// The inductive invariant of the pool protocol, in rely-guarantee form: a condition on the
// shared state, a condition on each call, and a relation Rely that bounds what a step of any
// other call may change. Stable: a call's condition survives whatever Rely allows.
module PoolInvariant {
  import opened Wrappers
  import opened PoolProtocol

  // ---------------------------------------------------------------- what a call holds

  function LockOf(pc: Pc): Option<Mutex> {
    if pc.InLogin? && !pc.login.GetLock? && !pc.login.AwaitLock? then Some(pc.login.mutex) else None
  }

  function AccountLed(pc: Pc): Option<Key> {
    if pc.InLogin? && pc.mode.Build? then Some(pc.key)
    else if pc.InFor? && (pc.stage.Recheck? || pc.stage.LeaveAccount?) then Some(pc.stage.key)
    else None
  }

  function SubjectLed(call: Call): Option<Subject> {
    if call.request.For? && (call.pc.InLogin? || (call.pc.InFor? && !call.pc.stage.JoinSubject?))
    then Some(call.request.subject) else None
  }

  function CheckLed(pc: Pc): Option<Key> {
    if pc.InLogin? && pc.mode.SelfProbe? then Some(pc.key)
    else if pc.InCheck? && !pc.check.EnterGroup? && !pc.check.JoinGroup? then Some(pc.key)
    else None
  }

  // The account against which this call has a real login in flight.
  function LoginInFlight(pc: Pc): Option<Key> {
    if pc.InLogin? && pc.login.LoggingIn? then Some(pc.key) else None
  }

  // Its own client's keepalive may be running and is this call's to stop.
  predicate KeepsOwn(pc: Pc) {
    pc.InLogin? && (pc.login.Publish? || pc.login.StopOwn?)
  }

  // A stop() this call still has to make.
  predicate MustStop(t: Tid, pc: Pc, client: Tid) {
    (KeepsOwn(pc) && client == t) || (pc.Stopping? && client in pc.pending)
  }

  // How far a call has come with building its own client.
  function Progress(pc: Pc): nat {
    match pc
    case Enter => 0
    case InFor(phase) => if phase.LeaveAccount? || phase.LeaveSubject? then 3 else 0
    case InLogin(_, mode, phase) =>
      if !mode.Build? then 0 else if phase.Warm? then 1 else if phase.Publish? then 2
      else if phase.StopOwn? || (phase.Unlock? && phase.outcome.LoginOk?) then 3 else 0
    case InCheck(_, _) => 0
    case Stopping(_) => 0
    case Returned(_) => 3
  }

  // The request fits the program counter.
  predicate Kind(call: Call) {
    match call.pc
    case InFor(_) => call.request.For?
    case InLogin(_, mode, phase) =>
      && (mode.Build? <==> call.request.For?)
      && (mode.SelfProbe? <==> call.request.SelfCheck?)
      && (phase.Warm? || phase.Publish? || phase.StopOwn? ==> mode.Build?)
    case InCheck(_, _) => call.request.SelfCheck?
    case Stopping(_) => call.request.Close?
    case _ => true
  }

  // ---------------------------------------------------------------- shared state

  ghost predicate Spaced(ps: seq<int>) {
    forall i :: 0 < i < |ps| ==> ps[i] - ps[i - 1] >= SELF_CHECK_MIN_INTERVAL
  }

  // Between executions the cache entry carries the start of the latest real probe.
  ghost predicate Idle(self: SelfChecks, k: Key) {
    if k in self.probes
    then |self.probes[k]| > 0 && k in self.cache && self.cache[k].at == self.probes[k][|self.probes[k]| - 1]
    else k !in self.cache
  }

  ghost predicate AnswerValid(clients: map<Key, Tid>, clock: int, a: Answer) {
    && (a.Client? ==> a.key in clients && clients[a.key] == a.client)
    && (a.Checked? ==> a.at <= a.decidedAt <= clock)
    && (a.Checked? && a.cached ==> a.decidedAt - a.at < SELF_CHECK_MIN_INTERVAL)
  }

  // The account an answer may carry is the one its subject resolves to.
  ghost predicate AnswerFor(c: Config, subject: Subject, a: Answer) {
    a.Client? ==> Lookup(c, subject) == Some(a.key)
  }

  ghost predicate TableInv(table: Table, leading: map<Key, Tid>) {
    && (forall k :: k in table.loginLocks ==> table.loginLocks[k] < table.nextMutex)
    && (forall k, k' :: k in table.loginLocks && k' in table.loginLocks && k != k' ==>
          table.loginLocks[k] != table.loginLocks[k'])
    && (forall k :: k in table.clients ==> table.successes[k] == 1 && table.ensured[table.clients[k]] == 1)
    && (forall k :: k !in table.clients && k !in leading ==> table.successes[k] == 0)
  }

  ghost predicate GoodOut(g: Group, clients: map<Key, Tid>, clock: int) {
    forall l :: l in g.out ==> AnswerValid(clients, clock, g.out[l].answer)
  }

  // What an execution left in a group fits the group's key.
  ghost predicate SubjectOut(c: Config, g: Group) {
    forall l :: l in g.out ==> AnswerFor(c, g.out[l].group, g.out[l].answer)
  }

  ghost predicate AccountOut(g: Group) {
    forall l :: l in g.out && g.out[l].answer.Client? ==> g.out[l].answer.key == g.out[l].group
  }

  ghost predicate CheckOut(g: Group) {
    forall l :: l in g.out ==> g.out[l].answer.Checked?
  }

  ghost predicate OutcomesInv(c: Config, sh: Shared) {
    && GoodOut(sh.bySubject, sh.table.clients, sh.clock) && SubjectOut(c, sh.bySubject)
    && GoodOut(sh.byAccount, sh.table.clients, sh.clock) && AccountOut(sh.byAccount)
    && GoodOut(sh.byCheck, sh.table.clients, sh.clock) && CheckOut(sh.byCheck)
  }

  // published: the clients in the map.
  ghost predicate KeepaliveInv(life: Keepalives, published: set<Tid>) {
    && (life.closes == 0 <==> !life.closed)
    && life.running <= life.warmed
    && (forall x :: x in life.warmed ==> x in life.custody || x in published)
    && (forall x :: x in life.running ==> x in life.custody || !life.closed)
    && (forall x :: x !in published ==> life.stopCalls[x] == 0)
    && (!life.closed ==> forall x :: x in published ==> x !in life.custody && life.stopCalls[x] == 0)
    && (life.closed ==> forall x :: x in published && x !in life.custody ==> life.stopCalls[x] >= 1)
    && (life.closes == 1 ==> forall x :: x in published ==>
          life.stopCalls[x] == if x in life.custody then 0 else 1)
  }

  ghost predicate SelfChecksInv(self: SelfChecks, leading: map<Key, Tid>, clock: int) {
    && (forall k :: k in self.probes ==> Spaced(self.probes[k]) && |self.probes[k]| > 0)
    && (forall k, i :: k in self.probes && 0 <= i < |self.probes[k]| ==> self.probes[k][i] <= clock)
    && (forall k :: k in self.cache ==> self.cache[k].at <= clock)
    && (forall k :: k !in leading ==> Idle(self, k))
  }

  // An executing call has left nothing behind yet.
  ghost predicate GroupInv(g: Group) {
    forall x :: x in g.leader ==> g.leader[x] !in g.out
  }

  ghost predicate SharedInv(c: Config, sh: Shared) {
    && GroupInv(sh.bySubject) && GroupInv(sh.byAccount) && GroupInv(sh.byCheck)
    && TableInv(sh.table, sh.byAccount.leader)
    && OutcomesInv(c, sh)
    && KeepaliveInv(sh.life, sh.table.clients.Values)
    && SelfChecksInv(sh.self, sh.byCheck.leader, sh.clock)
  }

  // ---------------------------------------------------------------- one call

  // A joiner's leader is still executing, or left the group after the joiner's call began.
  ghost predicate Joined(g: Group, name: string, leader: Tid, started: nat) {
    || (name in g.leader && g.leader[name] == leader)
    || (leader in g.out && g.out[leader].group == name && g.out[leader].at >= started)
  }

  ghost predicate ForKey(c: Config, call: Call, k: Key) {
    call.request.For? && Lookup(c, call.request.subject) == Some(k)
  }

  ghost predicate ProbeInv(self: SelfChecks, k: Key, at: int) {
    k in self.probes && |self.probes[k]| > 0 && self.probes[k][|self.probes[k]| - 1] == at
  }

  ghost predicate HasLock(table: Table, k: Key, m: Mutex) {
    k in table.loginLocks && table.loginLocks[k] == m
  }

  ghost predicate ForInv(c: Config, sh: Shared, call: Call) {
    match call.pc
    case InFor(phase) =>
      (match phase
       case JoinSubject(l) => call.request.For? && Joined(sh.bySubject, call.request.subject, l, call.started)
       case Resolve => true
       case FirstCheck(k) => ForKey(c, call, k)
       case EnterAccount(k) => ForKey(c, call, k)
       case JoinAccount(k, l) => ForKey(c, call, k) && Joined(sh.byAccount, k, l, call.started)
       case Recheck(k) => ForKey(c, call, k) && (k !in sh.table.clients ==> sh.table.successes[k] == 0)
       case LeaveAccount(k, a) =>
         && ForKey(c, call, k) && AnswerValid(sh.table.clients, sh.clock, a) && (a.Client? ==> a.key == k)
         && (k !in sh.table.clients ==> sh.table.successes[k] == 0)
       case LeaveSubject(a) =>
         call.request.For? && AnswerValid(sh.table.clients, sh.clock, a) && AnswerFor(c, call.request.subject, a))
    case Returned(a) =>
      && AnswerValid(sh.table.clients, sh.clock, a)
      && (call.request.For? ==> AnswerFor(c, call.request.subject, a))
    case _ => true
  }

  ghost predicate LoginInv(c: Config, table: Table, self: SelfChecks, t: Tid, call: Call) {
    call.pc.InLogin? ==>
      && (!call.pc.login.GetLock? ==> HasLock(table, call.pc.key, call.pc.login.mutex))
      && (call.pc.mode.SelfProbe? ==> ProbeInv(self, call.pc.key, call.pc.mode.at))
      && (call.pc.mode.Build? ==> ForKey(c, call, call.pc.key) && BuildInv(table, t, call.pc.key, Progress(call.pc)))
  }

  ghost predicate BuildInv(table: Table, t: Tid, k: Key, progress: nat) {
    if progress == 0 then k !in table.clients && table.successes[k] == 0
    else if progress < 3 then k !in table.clients && table.successes[k] == 1 && table.ensured[t] == 1
    else k in table.clients && table.clients[k] == t
  }

  ghost predicate CheckInv(sh: Shared, call: Call) {
    call.pc.InCheck? ==>
      match call.pc.check
      case EnterGroup => true
      case JoinGroup(l) => Joined(sh.byCheck, call.pc.key, l, call.started)
      case ReadCache => Idle(sh.self, call.pc.key)
      case Decide(seen) =>
        && Idle(sh.self, call.pc.key)
        && seen == (if call.pc.key in sh.self.cache then Some(sh.self.cache[call.pc.key]) else None)
      case Store(at, o) => ProbeInv(sh.self, call.pc.key, at)
      case LeaveGroup(a) => Idle(sh.self, call.pc.key) && AnswerValid(sh.table.clients, sh.clock, a) && a.Checked?
  }

  ghost predicate StopInv(life: Keepalives, published: set<Tid>, t: Tid, pc: Pc) {
    && (KeepsOwn(pc) ==> t in life.custody && life.custody[t] == t)
    && (pc.InLogin? && pc.login.StopOwn? ==> life.closed)
    && (pc.Stopping? ==>
          && life.closed && pc.pending <= published
          && (life.closes == 1 ==> forall x :: x in pc.pending ==> x in life.custody && life.custody[x] == t))
  }

  // The entries of m that name t: the one o gives, or none.
  ghost predicate Exactly<K(!new)>(m: map<K, Tid>, t: Tid, o: Option<K>) {
    forall x :: (x in m && m[x] == t) <==> o == Some(x)
  }

  // The shared entries that name call t are the ones its program counter accounts for.
  ghost predicate Holdings(sh: Shared, t: Tid, call: Call) {
    && call.started <= sh.steps
    && Kind(call)
    && Exactly(sh.held, t, LockOf(call.pc))
    && Exactly(sh.bySubject.leader, t, SubjectLed(call))
    && Exactly(sh.byAccount.leader, t, AccountLed(call.pc))
    && Exactly(sh.byCheck.leader, t, CheckLed(call.pc))
    && (t in sh.bySubject.out ==> call.pc.Returned?)
    && (t in sh.byAccount.out ==> call.pc.Returned? || (call.pc.InFor? && call.pc.stage.LeaveSubject?))
    && (t in sh.byCheck.out ==> call.pc.Returned?)
    && Marks(sh.table, sh.life, t, call.pc)
  }

  ghost predicate Marks(table: Table, life: Keepalives, t: Tid, pc: Pc) {
    && (t in table.clients.Values ==> Progress(pc) == 3)
    && (table.ensured[t] > 0 ==> Progress(pc) >= 1)
    && (t in life.warmed ==> Progress(pc) >= 2)
    && (t in life.custody ==> Progress(pc) >= 2)
    && (forall x :: x in life.custody && life.custody[x] == t ==> MustStop(t, pc, x))
  }

  ghost predicate CallInv(c: Config, sh: Shared, t: Tid, call: Call) {
    && Holdings(sh, t, call)
    && ForInv(c, sh, call)
    && LoginInv(c, sh.table, sh.self, t, call)
    && CheckInv(sh, call)
    && StopInv(sh.life, sh.table.clients.Values, t, call.pc)
  }

  // ---------------------------------------------------------------- interference

  ghost predicate OwnedAlike<K(!new)>(m: map<K, Tid>, m': map<K, Tid>, u: Tid) {
    forall x :: (x in m && m[x] == u) <==> (x in m' && m'[x] == u)
  }

  // An execution that disappears from a group left its outcome behind, now.
  ghost predicate GroupRely(g: Group, g': Group, u: Tid, now: nat) {
    && OwnedAlike(g.leader, g'.leader, u)
    && (forall x :: x in g.leader ==>
          || (x in g'.leader && g'.leader[x] == g.leader[x])
          || (g.leader[x] in g'.out && g'.out[g.leader[x]].group == x && g'.out[g.leader[x]].at >= now))
    && (forall l :: l in g.out ==> l in g'.out && g'.out[l] == g.out[l])
    && (u in g'.out ==> u in g.out)
  }

  // Clients and login mutexes are never replaced; an account led by u is published by nobody else.
  ghost predicate TableRely(table: Table, table': Table, leading: map<Key, Tid>, u: Tid) {
    && (forall k :: k in table.clients ==> k in table'.clients && table'.clients[k] == table.clients[k])
    && (forall k :: k in table'.clients && k !in table.clients ==>
          k in leading && leading[k] != u && table'.clients[k] != u)
    && (forall k :: k in table.loginLocks ==> k in table'.loginLocks && table'.loginLocks[k] == table.loginLocks[k])
    && (forall k :: table'.successes[k] != table.successes[k] ==> k in leading && leading[k] != u)
    && table'.ensured[u] == table.ensured[u]
  }

  ghost predicate LifeRely(life: Keepalives, life': Keepalives, published: set<Tid>, u: Tid) {
    && (life.closed ==> life'.closed && (life'.closes == 1 ==> life.closes == 1))
    && (u in life'.warmed ==> u in life.warmed)
    && (u in life'.custody ==> u in life.custody || u in published)
    && OwnedAlike(life.custody, life'.custody, u)
  }

  ghost predicate SelfAlike(self: SelfChecks, self': SelfChecks, k: Key) {
    && (k in self.probes <==> k in self'.probes)
    && (k in self.probes ==> self'.probes[k] == self.probes[k])
    && (k in self.cache <==> k in self'.cache)
    && (k in self.cache ==> self'.cache[k] == self.cache[k])
  }

  ghost predicate SelfRely(self: SelfChecks, self': SelfChecks, leading: map<Key, Tid>, u: Tid) {
    forall k :: k in leading && leading[k] == u ==> SelfAlike(self, self', k)
  }

  // What another call's step leaves alone, seen from call u.
  ghost predicate Rely(sh: Shared, sh': Shared, u: Tid) {
    && sh.steps <= sh'.steps
    && sh.clock <= sh'.clock
    && TableRely(sh.table, sh'.table, sh.byAccount.leader, u)
    && LifeRely(sh.life, sh'.life, sh.table.clients.Values, u)
    && OwnedAlike(sh.held, sh'.held, u)
    && GroupRely(sh.bySubject, sh'.bySubject, u, sh.steps)
    && GroupRely(sh.byAccount, sh'.byAccount, u, sh.steps)
    && GroupRely(sh.byCheck, sh'.byCheck, u, sh.steps)
    && SelfRely(sh.self, sh'.self, sh.byCheck.leader, u)
  }

  // ---------------------------------------------------------------- stability

  lemma StableClients(table: Table, table': Table, leading: map<Key, Tid>, u: Tid)
    requires TableRely(table, table', leading, u)
    ensures table.clients.Values <= table'.clients.Values
    ensures u in table'.clients.Values ==> u in table.clients.Values
  {
    forall x | x in table.clients.Values ensures x in table'.clients.Values {
      var k :| k in table.clients && table.clients[k] == x;
      assert k in table'.clients && table'.clients[k] == x;
    }
  }

  lemma StableJoined(g: Group, g': Group, u: Tid, now: nat, name: string, leader: Tid, started: nat)
    requires Joined(g, name, leader, started) && GroupRely(g, g', u, now) && started <= now
    ensures Joined(g', name, leader, started)
  {
  }

  // While u leads account k, no other call publishes or counts a login for it.
  lemma StableLed(table: Table, table': Table, leading: map<Key, Tid>, u: Tid, k: Key)
    requires TableRely(table, table', leading, u) && k in leading && leading[k] == u
    ensures k !in table.clients ==> k !in table'.clients
    ensures table'.successes[k] == table.successes[k]
  {
  }

  // The two groups whose leadership protects data, without the rest of Holdings.
  ghost predicate Leads(sh: Shared, u: Tid, pc: Pc) {
    && (AccountLed(pc).Some? ==>
          AccountLed(pc).value in sh.byAccount.leader && sh.byAccount.leader[AccountLed(pc).value] == u)
    && (CheckLed(pc).Some? ==>
          CheckLed(pc).value in sh.byCheck.leader && sh.byCheck.leader[CheckLed(pc).value] == u)
  }

  lemma StableLogin(c: Config, sh: Shared, sh': Shared, u: Tid, call: Call)
    requires LoginInv(c, sh.table, sh.self, u, call) && Leads(sh, u, call.pc)
    requires TableRely(sh.table, sh'.table, sh.byAccount.leader, u)
    requires SelfRely(sh.self, sh'.self, sh.byCheck.leader, u)
    ensures LoginInv(c, sh'.table, sh'.self, u, call)
  {
    if call.pc.InLogin? && call.pc.mode.Build? {
      StableLed(sh.table, sh'.table, sh.byAccount.leader, u, call.pc.key);
    } else if call.pc.InLogin? && call.pc.mode.SelfProbe? {
      assert SelfAlike(sh.self, sh'.self, call.pc.key);
    }
  }

  lemma StableFor(c: Config, sh: Shared, sh': Shared, u: Tid, call: Call)
    requires ForInv(c, sh, call) && Leads(sh, u, call.pc) && call.started <= sh.steps
    requires call.pc.InFor? ==> call.request.For?
    requires TableRely(sh.table, sh'.table, sh.byAccount.leader, u) && sh.clock <= sh'.clock
    requires GroupRely(sh.bySubject, sh'.bySubject, u, sh.steps)
    requires GroupRely(sh.byAccount, sh'.byAccount, u, sh.steps)
    ensures ForInv(c, sh', call)
  {
    if call.pc.InFor? {
      match call.pc.stage {
        case JoinSubject(l) => StableJoined(sh.bySubject, sh'.bySubject, u, sh.steps, call.request.subject, l,
                call.started);
        case JoinAccount(k, l) => StableJoined(sh.byAccount, sh'.byAccount, u, sh.steps, k, l, call.started);
        case Recheck(k) => StableLed(sh.table, sh'.table, sh.byAccount.leader, u, k);
        case LeaveAccount(k, _) => StableLed(sh.table, sh'.table, sh.byAccount.leader, u, k);
        case _ =>
      }
    }
  }

  lemma StableCheck(sh: Shared, sh': Shared, u: Tid, call: Call)
    requires CheckInv(sh, call) && Leads(sh, u, call.pc) && call.started <= sh.steps
    requires TableRely(sh.table, sh'.table, sh.byAccount.leader, u) && sh.clock <= sh'.clock
    requires SelfRely(sh.self, sh'.self, sh.byCheck.leader, u)
    requires GroupRely(sh.byCheck, sh'.byCheck, u, sh.steps)
    ensures CheckInv(sh', call)
  {
    if call.pc.InCheck? {
      if call.pc.check.JoinGroup? {
        StableJoined(sh.byCheck, sh'.byCheck, u, sh.steps, call.pc.key, call.pc.check.leader, call.started);
      } else if !call.pc.check.EnterGroup? {
        assert SelfAlike(sh.self, sh'.self, call.pc.key);
      }
    }
  }

  lemma StableStop(life: Keepalives, life': Keepalives, published: set<Tid>, published': set<Tid>, u: Tid, pc: Pc)
    requires StopInv(life, published, u, pc) && LifeRely(life, life', published, u) && published <= published'
    ensures StopInv(life', published', u, pc)
  {
  }

  lemma StableHoldings(sh: Shared, sh': Shared, u: Tid, call: Call)
    requires Holdings(sh, u, call) && Rely(sh, sh', u)
    ensures Holdings(sh', u, call) && Leads(sh, u, call.pc)
  {
    StableClients(sh.table, sh'.table, sh.byAccount.leader, u);
  }

  lemma Stable(c: Config, sh: Shared, sh': Shared, u: Tid, call: Call)
    requires CallInv(c, sh, u, call) && Rely(sh, sh', u)
    ensures CallInv(c, sh', u, call)
  {
    StableHoldings(sh, sh', u, call);
    StableFor(c, sh, sh', u, call);
    StableLogin(c, sh, sh', u, call);
    StableCheck(sh, sh', u, call);
    StableClients(sh.table, sh'.table, sh.byAccount.leader, u);
    StableStop(sh.life, sh'.life, sh.table.clients.Values, sh'.table.clients.Values, u, call.pc);
  }
}
