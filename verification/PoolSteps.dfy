// Every step of the pool protocol keeps the invariant of PoolInvariant.
module PoolSteps {
  import opened Wrappers
  import opened PoolProtocol
  import opened PoolInvariant

  // ---------------------------------------------------------------- effects of a step

  // A group changes exactly when the call's leadership does.
  ghost predicate GroupEffect(g: Group, g': Group, t: Tid, before: Option<string>, after: Option<string>,
                              answer: Option<Answer>, now: nat) {
    if before == after then g' == g
    else if before.None? then after.value !in g.leader && g' == Lead(g, after.value, t)
    else after.None? && answer.Some? && g' == Leave(g, before.value, t, answer.value, now)
  }

  // The answer with which a call is about to leave a group.
  function Leaving(pc: Pc): Option<Answer> {
    if pc.InFor? && (pc.stage.LeaveAccount? || pc.stage.LeaveSubject?) then Some(pc.stage.answer)
    else if pc.InCheck? && pc.check.LeaveGroup? then Some(pc.check.answer)
    else None
  }

  // A mutex changes hands exactly when the call's lock does.
  ghost predicate HeldEffect(held: map<Mutex, Tid>, held': map<Mutex, Tid>, t: Tid, before: Option<Mutex>,
                             after: Option<Mutex>) {
    if before == after then held' == held
    else if before.None? then after.value !in held && held' == held[after.value := t]
    else after.None? && held' == held - {before.value}
  }

  ghost predicate TableEffect(table: Table, table': Table, t: Tid, pc: Pc, pc': Pc) {
    if pc.InLogin? && pc.login.GetLock? then
      var (locks, next, _) := LoginLock(table.loginLocks, table.nextMutex, pc.key);
      table' == table.(loginLocks := locks, nextMutex := next)
    else if pc.InLogin? && pc.login.LoggingIn? && Progress(pc') == 1 then
      pc.mode.Build? && table' == Established(table, pc.key, t)
    else if pc.InLogin? && pc.login.Publish? then table' == table.(clients := table.clients[pc.key := t])
    else table' == table
  }

  ghost predicate LifeEffect(c: Config, life: Keepalives, life': Keepalives, published: set<Tid>, t: Tid, pc: Pc,
                             pc': Pc, victim: Tid) {
    if pc.Enter? && pc'.Stopping? then life' == Snapshot(life, published, t) && pc'.pending == published
    else if pc.InLogin? && pc.login.Warm? then life' == StartKeepalive(life, t, c.keepalive)
    else if pc.InLogin? && pc.login.Publish? then
      life' == if life.closed then life else life.(custody := life.custody - {t})
    else if pc.InLogin? && pc.login.StopOwn? then life' == StopClient(life, t, t)
    else if pc.Stopping? && pc'.Stopping? then
      victim in pc.pending && pc'.pending == pc.pending - {victim} && life' == StopClient(life, t, victim)
    else life' == life
  }

  ghost predicate SelfEffect(self: SelfChecks, self': SelfChecks, clock: int, pc: Pc, pc': Pc) {
    if pc.InCheck? && pc.check.Decide? && pc'.InLogin? then
      && self' == self.(probes := self.probes[pc.key := Probes(self, pc.key) + [clock]])
      && (pc.check.seen.Some? ==> clock - pc.check.seen.value.at >= SELF_CHECK_MIN_INTERVAL)
    else if pc.InLogin? && pc.login.Connect? && pc.mode.SelfProbe? && pc'.InLogin? && pc'.login.LoggingIn? then
      self' == StartLogin(self, pc.key, clock)
    else if pc.InCheck? && pc.check.Store? then
      self' == self.(cache := self.cache[pc.key := Entry(pc.check.outcome, pc.check.at)])
    else self' == self
  }

  ghost predicate PcEffect(pc: Pc, pc': Pc, closed: bool) {
    && !pc.Returned? && Progress(pc) <= Progress(pc')
    && (pc.InFor? && pc.stage.LeaveAccount? ==> pc'.InFor? && pc'.stage.LeaveSubject?)
    && ((pc.InFor? && pc.stage.LeaveSubject?) || (pc.InCheck? && pc.check.LeaveGroup?) ==> pc'.Returned?)
    && (pc.InLogin? && pc.login.Warm? ==> pc'.InLogin? && pc'.login.Publish?)
    && (pc.InLogin? && pc.login.Publish? ==> Progress(pc') == 3 && pc'.InLogin? && (closed <==> pc'.login.StopOwn?))
    && (pc.Stopping? && !pc'.Stopping? ==> pc.pending == {})
    && (KeepsOwn(pc') ==> pc.InLogin? && (pc.login.Warm? || pc.login.Publish?))
  }

  ghost predicate Effects(c: Config, t: Tid, sh: Shared, call: Call, choice: Choice, sh': Shared, pc': Pc) {
    && sh'.clock == sh.clock && sh'.steps == sh.steps + 1
    && PcEffect(call.pc, pc', sh.life.closed)
    && TableEffect(sh.table, sh'.table, t, call.pc, pc')
    && LifeEffect(c, sh.life, sh'.life, sh.table.clients.Values, t, call.pc, pc', choice.victim)
    && SelfEffect(sh.self, sh'.self, sh.clock, call.pc, pc')
    && HeldEffect(sh.held, sh'.held, t, LockOf(call.pc), LockOf(pc'))
    && GroupEffect(sh.bySubject, sh'.bySubject, t, SubjectLed(call), SubjectLed(call.(pc := pc')), Leaving(call.pc),
                   sh.steps)
    && GroupEffect(sh.byAccount, sh'.byAccount, t, AccountLed(call.pc), AccountLed(pc'), Leaving(call.pc), sh.steps)
    && GroupEffect(sh.byCheck, sh'.byCheck, t, CheckLed(call.pc), CheckLed(pc'), Leaving(call.pc), sh.steps)
  }

  lemma EnterEffects(c: Config, t: Tid, sh: Shared, call: Call, choice: Choice, sh': Shared, pc': Pc)
    requires Steps(c, t, sh, call, choice, sh', pc') && Kind(call) && call.pc.Enter?
    ensures Effects(c, t, sh, call, choice, sh', pc')
  {
  }

  lemma ForEffects(c: Config, t: Tid, sh: Shared, call: Call, choice: Choice, sh': Shared, pc': Pc)
    requires Steps(c, t, sh, call, choice, sh', pc') && Kind(call) && call.pc.InFor?
    ensures Effects(c, t, sh, call, choice, sh', pc')
  {
  }

  lemma LockEffects(c: Config, t: Tid, sh: Shared, call: Call, choice: Choice, sh': Shared, pc': Pc)
    requires Steps(c, t, sh, call, choice, sh', pc') && Kind(call) && call.pc.InLogin?
    requires call.pc.login.GetLock? || call.pc.login.AwaitLock?
    ensures Effects(c, t, sh, call, choice, sh', pc')
  {
  }

  lemma LoginEffects(c: Config, t: Tid, sh: Shared, call: Call, choice: Choice, sh': Shared, pc': Pc)
    requires Steps(c, t, sh, call, choice, sh', pc') && Kind(call) && call.pc.InLogin?
    requires call.pc.login.LoggingIn?
    ensures Effects(c, t, sh, call, choice, sh', pc')
  {
  }

  lemma ConnectEffects(c: Config, t: Tid, sh: Shared, call: Call, choice: Choice, sh': Shared, pc': Pc)
    requires Steps(c, t, sh, call, choice, sh', pc') && Kind(call) && call.pc.InLogin?
    requires call.pc.login.Connect?
    ensures Effects(c, t, sh, call, choice, sh', pc')
  {
  }

  lemma PublishEffects(c: Config, t: Tid, sh: Shared, call: Call, choice: Choice, sh': Shared, pc': Pc)
    requires Steps(c, t, sh, call, choice, sh', pc') && Kind(call) && call.pc.InLogin?
    requires call.pc.login.Warm? || call.pc.login.Publish? || call.pc.login.StopOwn? || call.pc.login.Unlock?
    ensures Effects(c, t, sh, call, choice, sh', pc')
  {
  }

  lemma CheckEffects(c: Config, t: Tid, sh: Shared, call: Call, choice: Choice, sh': Shared, pc': Pc)
    requires Steps(c, t, sh, call, choice, sh', pc') && Kind(call) && call.pc.InCheck?
    ensures Effects(c, t, sh, call, choice, sh', pc')
  {
  }

  lemma StoppingEffects(c: Config, t: Tid, sh: Shared, call: Call, choice: Choice, sh': Shared, pc': Pc)
    requires Steps(c, t, sh, call, choice, sh', pc') && Kind(call) && call.pc.Stopping?
    ensures Effects(c, t, sh, call, choice, sh', pc')
  {
  }

  lemma {:induction false} StepEffects(c: Config, t: Tid, sh: Shared, call: Call, choice: Choice, sh': Shared, pc': Pc)
    requires Steps(c, t, sh, call, choice, sh', pc') && Kind(call)
    ensures Effects(c, t, sh, call, choice, sh', pc')
  {
    match call.pc {
      case Enter => EnterEffects(c, t, sh, call, choice, sh', pc');
      case InFor(_) => ForEffects(c, t, sh, call, choice, sh', pc');
      case InLogin(_, _, phase) =>
        if phase.GetLock? || phase.AwaitLock? {
          LockEffects(c, t, sh, call, choice, sh', pc');
        } else if phase.Connect? {
          ConnectEffects(c, t, sh, call, choice, sh', pc');
        } else if phase.LoggingIn? {
          LoginEffects(c, t, sh, call, choice, sh', pc');
        } else {
          PublishEffects(c, t, sh, call, choice, sh', pc');
        }
      case InCheck(_, _) => CheckEffects(c, t, sh, call, choice, sh', pc');
      case Stopping(_) => StoppingEffects(c, t, sh, call, choice, sh', pc');
      case Returned(_) =>
    }
  }

  // ---------------------------------------------------------------- interference

  lemma GroupWithinRely(g: Group, g': Group, t: Tid, before: Option<string>, after: Option<string>,
                        answer: Option<Answer>, now: nat, u: Tid)
    requires GroupEffect(g, g', t, before, after, answer, now) && t != u
    requires before.Some? ==> before.value in g.leader && g.leader[before.value] == t && t !in g.out
    ensures GroupRely(g, g', u, now)
  {
  }

  lemma HeldWithinRely(held: map<Mutex, Tid>, held': map<Mutex, Tid>, t: Tid, before: Option<Mutex>,
                       after: Option<Mutex>, u: Tid)
    requires HeldEffect(held, held', t, before, after) && t != u
    requires before.Some? ==> before.value in held && held[before.value] == t
    ensures OwnedAlike(held, held', u)
  {
  }

  lemma TableWithinRely(table: Table, table': Table, leading: map<Key, Tid>, t: Tid, pc: Pc, pc': Pc, u: Tid)
    requires TableEffect(table, table', t, pc, pc') && t != u
    requires AccountLed(pc).Some? ==> AccountLed(pc).value in leading && leading[AccountLed(pc).value] == t
    requires pc.InLogin? && pc.login.Publish? ==> pc.mode.Build? && pc.key !in table.clients
    ensures TableRely(table, table', leading, u)
  {
  }

  lemma LifeWithinRely(c: Config, life: Keepalives, life': Keepalives, published: set<Tid>, t: Tid, pc: Pc, pc': Pc,
                       victim: Tid, u: Tid)
    requires LifeEffect(c, life, life', published, t, pc, pc', victim) && t != u
    requires KeepaliveInv(life, published) && StopInv(life, published, t, pc)
    requires pc.InLogin? && pc.login.Warm? ==> t !in life.custody
    ensures LifeRely(life, life', published, u)
  {
  }

  lemma SelfWithinRely(self: SelfChecks, self': SelfChecks, leading: map<Key, Tid>, clock: int, t: Tid, pc: Pc,
                       pc': Pc, u: Tid)
    requires SelfEffect(self, self', clock, pc, pc') && t != u
    requires CheckLed(pc).Some? ==> CheckLed(pc).value in leading && leading[CheckLed(pc).value] == t
    ensures SelfRely(self, self', leading, u)
  {
  }

  lemma {:induction false} GroupsWithinRely(c: Config, t: Tid, sh: Shared, call: Call, choice: Choice, sh': Shared,
                                            pc': Pc, u: Tid)
    requires Holdings(sh, t, call) && Effects(c, t, sh, call, choice, sh', pc') && t != u
    ensures GroupRely(sh.bySubject, sh'.bySubject, u, sh.steps) && GroupRely(sh.byAccount, sh'.byAccount, u, sh.steps)
    ensures GroupRely(sh.byCheck, sh'.byCheck, u, sh.steps) && OwnedAlike(sh.held, sh'.held, u)
  {
    var after := call.(pc := pc');
    GroupWithinRely(sh.bySubject, sh'.bySubject, t, SubjectLed(call), SubjectLed(after), Leaving(call.pc), sh.steps, u);
    GroupWithinRely(sh.byAccount, sh'.byAccount, t, AccountLed(call.pc), AccountLed(pc'), Leaving(call.pc), sh.steps,
                    u);
    GroupWithinRely(sh.byCheck, sh'.byCheck, t, CheckLed(call.pc), CheckLed(pc'), Leaving(call.pc), sh.steps, u);
    HeldWithinRely(sh.held, sh'.held, t, LockOf(call.pc), LockOf(pc'), u);
  }

  lemma {:induction false} StepWithinRely(c: Config, t: Tid, sh: Shared, call: Call, choice: Choice, sh': Shared,
                                          pc': Pc, u: Tid)
    requires SharedInv(c, sh) && CallInv(c, sh, t, call) && Effects(c, t, sh, call, choice, sh', pc') && t != u
    ensures Rely(sh, sh', u)
  {
    GroupsWithinRely(c, t, sh, call, choice, sh', pc', u);
    TableWithinRely(sh.table, sh'.table, sh.byAccount.leader, t, call.pc, pc', u);
    LifeWithinRely(c, sh.life, sh'.life, sh.table.clients.Values, t, call.pc, pc', choice.victim, u);
    SelfWithinRely(sh.self, sh'.self, sh.byCheck.leader, sh.clock, t, call.pc, pc', u);
  }

  // ---------------------------------------------------------------- the shared state

  lemma GroupKept(g: Group, g': Group, t: Tid, before: Option<string>, after: Option<string>, answer: Option<Answer>,
                  now: nat)
    requires GroupEffect(g, g', t, before, after, answer, now) && GroupInv(g) && Exactly(g.leader, t, before)
    requires (before != after ==> t !in g.out)
    ensures GroupInv(g') && Exactly(g'.leader, t, after)
  {
  }

  lemma HeldKept(held: map<Mutex, Tid>, held': map<Mutex, Tid>, t: Tid, before: Option<Mutex>, after: Option<Mutex>)
    requires HeldEffect(held, held', t, before, after) && Exactly(held, t, before)
    ensures Exactly(held', t, after)
  {
  }

  lemma LockKeepsTable(table: Table, leading: map<Key, Tid>, key: Key)
    requires TableInv(table, leading)
    ensures
      var (locks, next, m) := LoginLock(table.loginLocks, table.nextMutex, key);
      TableInv(table.(loginLocks := locks, nextMutex := next), leading)
  {
  }

  lemma LoginKeepsTable(table: Table, leading: map<Key, Tid>, key: Key, t: Tid)
    requires TableInv(table, leading) && key in leading && key !in table.clients && t !in table.clients.Values
    ensures TableInv(Established(table, key, t), leading)
  {
    assert forall k :: k in table.clients ==> table.clients[k] in table.clients.Values;
  }

  lemma PublishKeepsTable(table: Table, leading: map<Key, Tid>, key: Key, t: Tid)
    requires TableInv(table, leading) && key !in table.clients && table.successes[key] == 1 && table.ensured[t] == 1
    ensures TableInv(table.(clients := table.clients[key := t]), leading)
  {
  }

  lemma TableKept(c: Config, table: Table, table': Table, self: SelfChecks, leading: map<Key, Tid>, t: Tid,
                  call: Call, pc': Pc)
    requires TableEffect(table, table', t, call.pc, pc') && LoginInv(c, table, self, t, call)
    requires TableInv(table, leading)
    requires AccountLed(call.pc).Some? ==> AccountLed(call.pc).value in leading
    requires t in table.clients.Values ==> Progress(call.pc) == 3
    requires Kind(call)
    ensures TableInv(table', leading)
  {
    if call.pc.InLogin? {
      match call.pc.login {
        case GetLock => LockKeepsTable(table, leading, call.pc.key);
        case LoggingIn(_) => if Progress(pc') == 1 { LoginKeepsTable(table, leading, call.pc.key, t); }
        case Publish(_) => PublishKeepsTable(table, leading, call.pc.key, t);
        case _ =>
      }
    }
  }

  lemma LeadingKept(table: Table, g: Group, g': Group, t: Tid, before: Option<Key>, after: Option<Key>,
                    answer: Option<Answer>, now: nat)
    requires TableInv(table, g.leader) && GroupEffect(g, g', t, before, after, answer, now)
    requires before != after && before.Some? && before.value !in table.clients ==> table.successes[before.value] == 0
    ensures TableInv(table, g'.leader)
  {
  }

  lemma OutKept(g: Group, g': Group, clients: map<Key, Tid>, clients': map<Key, Tid>, clock: int,
                t: Tid, before: Option<string>, after: Option<string>, answer: Option<Answer>, now: nat)
    requires GroupEffect(g, g', t, before, after, answer, now) && GoodOut(g, clients, clock)
    requires before != after && before.Some? && answer.Some? ==> AnswerValid(clients, clock, answer.value)
    requires forall k :: k in clients ==> k in clients' && clients'[k] == clients[k]
    ensures GoodOut(g', clients', clock)
  {
  }

  lemma SnapshotKeeps(life: Keepalives, published: set<Tid>, t: Tid)
    requires KeepaliveInv(life, published)
    ensures KeepaliveInv(Snapshot(life, published, t), published)
  {
  }

  lemma WarmKeeps(life: Keepalives, published: set<Tid>, t: Tid, keepalive: bool)
    requires KeepaliveInv(life, published) && t !in published
    ensures KeepaliveInv(StartKeepalive(life, t, keepalive), published)
  {
  }

  // A client published before Close is Close's to stop, one published after it its builder's.
  lemma PublishKeeps(life: Keepalives, published: set<Tid>, t: Tid)
    requires KeepaliveInv(life, published) && t !in published && t in life.custody
    ensures KeepaliveInv(if life.closed then life else life.(custody := life.custody - {t}), published + {t})
  {
  }

  lemma StopKeeps(life: Keepalives, published: set<Tid>, t: Tid, client: Tid)
    requires KeepaliveInv(life, published) && client in published && life.closed
    requires life.closes == 1 ==> client in life.custody && life.custody[client] == t
    ensures KeepaliveInv(StopClient(life, t, client), published)
  {
  }

  lemma PublishValues(clients: map<Key, Tid>, key: Key, t: Tid)
    requires key !in clients
    ensures clients[key := t].Values == clients.Values + {t}
  {
    var clients' := clients[key := t];
    forall x | x in clients.Values + {t} ensures x in clients'.Values {
      if x == t {
        assert clients'[key] == t;
      } else {
        var k :| k in clients && clients[k] == x;
        assert clients'[k] == x;
      }
    }
  }

  lemma {:induction false} KeepalivesKept(c: Config, table: Table, table': Table, life: Keepalives, life': Keepalives,
                                          t: Tid, pc: Pc, pc': Pc, victim: Tid)
    requires LifeEffect(c, life, life', table.clients.Values, t, pc, pc', victim)
    requires TableEffect(table, table', t, pc, pc')
    requires KeepaliveInv(life, table.clients.Values) && StopInv(life, table.clients.Values, t, pc)
    requires t in table.clients.Values ==> Progress(pc) == 3
    requires pc.InLogin? && pc.login.Publish? ==> pc.key !in table.clients
    requires pc.InLogin? && pc.login.StopOwn? ==> t in table.clients.Values
    ensures KeepaliveInv(life', table'.clients.Values)
  {
    var published := table.clients.Values;
    match pc {
      case Enter => if pc'.Stopping? { SnapshotKeeps(life, published, t); }
      case InLogin(key, _, phase) =>
        match phase {
          case Warm(_) => WarmKeeps(life, published, t, c.keepalive);
          case Publish(_) => PublishKeeps(life, published, t); PublishValues(table.clients, key, t);
          case StopOwn(_) => StopKeeps(life, published, t, t);
          case _ =>
        }
      case Stopping(_) => if pc'.Stopping? { StopKeeps(life, published, t, victim); }
      case _ =>
    }
  }

  lemma ProbeKept(self: SelfChecks, leading: map<Key, Tid>, clock: int, key: Key)
    requires SelfChecksInv(self, leading, clock) && key in leading && Idle(self, key)
    requires key in self.cache ==> clock - self.cache[key].at >= SELF_CHECK_MIN_INTERVAL
    ensures SelfChecksInv(self.(probes := self.probes[key := Probes(self, key) + [clock]]), leading, clock)
  {
  }

  lemma StoreKept(self: SelfChecks, leading: map<Key, Tid>, clock: int, key: Key, entry: Entry)
    requires SelfChecksInv(self, leading, clock) && key in leading && ProbeInv(self, key, entry.at)
    ensures SelfChecksInv(self.(cache := self.cache[key := entry]), leading, clock)
  {
  }

  lemma {:induction false} ChecksKept(self: SelfChecks, self': SelfChecks, leading: map<Key, Tid>, clock: int, t: Tid,
                                      pc: Pc, pc': Pc)
    requires SelfEffect(self, self', clock, pc, pc') && SelfChecksInv(self, leading, clock)
    requires CheckLed(pc).Some? ==> CheckLed(pc).value in leading
    requires pc.InCheck? && pc.check.Decide? ==>
               && Idle(self, pc.key)
               && pc.check.seen == (if pc.key in self.cache then Some(self.cache[pc.key]) else None)
    requires pc.InCheck? && pc.check.Store? ==> ProbeInv(self, pc.key, pc.check.at)
    ensures SelfChecksInv(self', leading, clock)
  {
    if pc.InCheck? && pc.check.Decide? && pc'.InLogin? {
      ProbeKept(self, leading, clock, pc.key);
    } else if pc.InCheck? && pc.check.Store? {
      StoreKept(self, leading, clock, pc.key, Entry(pc.check.outcome, pc.check.at));
    }
  }

  lemma ChecksLeadingKept(self: SelfChecks, clock: int, g: Group, g': Group, t: Tid, before: Option<Key>,
                          after: Option<Key>,
                          answer: Option<Answer>, now: nat)
    requires SelfChecksInv(self, g.leader, clock) && GroupEffect(g, g', t, before, after, answer, now)
    requires before != after && before.Some? ==> Idle(self, before.value)
    ensures SelfChecksInv(self, g'.leader, clock)
  {
  }

  lemma MarksKept(c: Config, table: Table, table': Table, life: Keepalives, life': Keepalives, t: Tid, call: Call,
                  pc': Pc, victim: Tid)
    requires LifeEffect(c, life, life', table.clients.Values, t, call.pc, pc', victim)
    requires TableEffect(table, table', t, call.pc, pc')
    requires Marks(table, life, t, call.pc) && StopInv(life, table.clients.Values, t, call.pc)
    requires PcEffect(call.pc, pc', life.closed) && Kind(call)
    requires call.pc.InLogin? && call.pc.login.Publish? ==> call.pc.key !in table.clients
    ensures Marks(table', life', t, pc')
  {
  }

  // ---------------------------------------------------------------- the call's own condition

  ghost predicate LocalInv(c: Config, sh: Shared, t: Tid, call: Call) {
    && Kind(call)
    && ForInv(c, sh, call)
    && LoginInv(c, sh.table, sh.self, t, call)
    && CheckInv(sh, call)
    && StopInv(sh.life, sh.table.clients.Values, t, call.pc)
  }

  lemma EnterLocal(c: Config, t: Tid, sh: Shared, call: Call, choice: Choice, sh': Shared, pc': Pc, call': Call)
    requires Steps(c, t, sh, call, choice, sh', pc') && Kind(call) && call' == call.(pc := pc')
    requires call.pc.Enter? && KeepaliveInv(sh.life, sh.table.clients.Values)
    ensures LocalInv(c, sh', t, call')
  {
  }

  lemma ForLocal(c: Config, t: Tid, sh: Shared, call: Call, choice: Choice, sh': Shared, pc': Pc, call': Call)
    requires Steps(c, t, sh, call, choice, sh', pc') && Kind(call) && call' == call.(pc := pc')
    requires call.pc.InFor? && ForInv(c, sh, call) && Leads(sh, t, call.pc)
    requires TableInv(sh.table, sh.byAccount.leader) && OutcomesInv(c, sh) && GroupInv(sh.bySubject)
    requires GroupInv(sh.byAccount)
    ensures LocalInv(c, sh', t, call')
  {
  }

  lemma LoginLocal(c: Config, t: Tid, sh: Shared, call: Call, choice: Choice, sh': Shared, pc': Pc, call': Call)
    requires Steps(c, t, sh, call, choice, sh', pc') && Kind(call) && call' == call.(pc := pc')
    requires call.pc.InLogin? && LoginInv(c, sh.table, sh.self, t, call)
    requires (call.pc.login.GetLock? || call.pc.login.AwaitLock? || call.pc.login.Connect? || call.pc.login.LoggingIn?)
    requires StopInv(sh.life, sh.table.clients.Values, t, call.pc)
    requires sh.table.ensured[t] > 0 ==> Progress(call.pc) >= 1
    ensures LocalInv(c, sh', t, call')
  {
  }

  lemma PublishLocal(c: Config, t: Tid, sh: Shared, call: Call, choice: Choice, sh': Shared, pc': Pc, call': Call)
    requires Steps(c, t, sh, call, choice, sh', pc') && Kind(call) && call' == call.(pc := pc')
    requires call.pc.InLogin? && LoginInv(c, sh.table, sh.self, t, call)
    requires (call.pc.login.Warm? || call.pc.login.Publish? || call.pc.login.StopOwn? || call.pc.login.Unlock?)
    requires StopInv(sh.life, sh.table.clients.Values, t, call.pc)
    requires sh.table.ensured[t] > 0 ==> Progress(call.pc) >= 1
    ensures LocalInv(c, sh', t, call')
  {
  }

  lemma CheckLocal(c: Config, t: Tid, sh: Shared, call: Call, choice: Choice, sh': Shared, pc': Pc, call': Call)
    requires Steps(c, t, sh, call, choice, sh', pc') && Kind(call) && call' == call.(pc := pc')
    requires call.pc.InCheck? && CheckInv(sh, call) && OutcomesInv(c, sh) && GroupInv(sh.byCheck)
    requires SelfChecksInv(sh.self, sh.byCheck.leader, sh.clock)
    ensures LocalInv(c, sh', t, call')
  {
  }

  lemma StoppingLocal(c: Config, t: Tid, sh: Shared, call: Call, choice: Choice, sh': Shared, pc': Pc, call': Call)
    requires Steps(c, t, sh, call, choice, sh', pc') && Kind(call) && call' == call.(pc := pc')
    requires call.pc.Stopping? && StopInv(sh.life, sh.table.clients.Values, t, call.pc)
    ensures LocalInv(c, sh', t, call')
  {
  }

  lemma {:induction false} StepLocal(c: Config, t: Tid, sh: Shared, call: Call, choice: Choice, sh': Shared, pc': Pc)
    requires Steps(c, t, sh, call, choice, sh', pc') && SharedInv(c, sh) && CallInv(c, sh, t, call)
    requires Leads(sh, t, call.pc)
    ensures LocalInv(c, sh', t, call.(pc := pc'))
  {
    var call' := call.(pc := pc');
    match call.pc {
      case Enter => EnterLocal(c, t, sh, call, choice, sh', pc', call');
      case InFor(_) => ForLocal(c, t, sh, call, choice, sh', pc', call');
      case InLogin(_, _, phase) =>
        if phase.GetLock? || phase.AwaitLock? || phase.Connect? || phase.LoggingIn? {
          LoginLocal(c, t, sh, call, choice, sh', pc', call');
        } else {
          PublishLocal(c, t, sh, call, choice, sh', pc', call');
        }
      case InCheck(_, _) => CheckLocal(c, t, sh, call, choice, sh', pc', call');
      case Stopping(_) => StoppingLocal(c, t, sh, call, choice, sh', pc', call');
      case Returned(_) =>
    }
  }

  lemma {:induction false} HoldingsKept(c: Config, t: Tid, sh: Shared, call: Call, choice: Choice, sh': Shared, pc': Pc)
    requires Effects(c, t, sh, call, choice, sh', pc') && Holdings(sh, t, call)
    requires StopInv(sh.life, sh.table.clients.Values, t, call.pc)
    requires GroupInv(sh.bySubject) && GroupInv(sh.byAccount) && GroupInv(sh.byCheck) && Kind(call.(pc := pc'))
    requires call.pc.InLogin? && call.pc.login.Publish? ==> call.pc.key !in sh.table.clients
    ensures GroupInv(sh'.bySubject) && GroupInv(sh'.byAccount) && GroupInv(sh'.byCheck)
    ensures Holdings(sh', t, call.(pc := pc'))
  {
    var after := call.(pc := pc');
    GroupKept(sh.bySubject, sh'.bySubject, t, SubjectLed(call), SubjectLed(after), Leaving(call.pc), sh.steps);
    GroupKept(sh.byAccount, sh'.byAccount, t, AccountLed(call.pc), AccountLed(pc'), Leaving(call.pc), sh.steps);
    GroupKept(sh.byCheck, sh'.byCheck, t, CheckLed(call.pc), CheckLed(pc'), Leaving(call.pc), sh.steps);
    HeldKept(sh.held, sh'.held, t, LockOf(call.pc), LockOf(pc'));
    MarksKept(c, sh.table, sh'.table, sh.life, sh'.life, t, call, pc', choice.victim);
  }

  lemma OutcomesKept(c: Config, t: Tid, sh: Shared, call: Call, choice: Choice, sh': Shared, pc': Pc)
    requires Effects(c, t, sh, call, choice, sh', pc') && OutcomesInv(c, sh) && LocalInv(c, sh, t, call)
    requires call.pc.InLogin? && call.pc.login.Publish? ==> call.pc.key !in sh.table.clients
    ensures OutcomesInv(c, sh')
  {
    var after := call.(pc := pc');
    OutKept(sh.bySubject, sh'.bySubject, sh.table.clients, sh'.table.clients, sh.clock,
            t, SubjectLed(call), SubjectLed(after), Leaving(call.pc), sh.steps);
    OutKept(sh.byAccount, sh'.byAccount, sh.table.clients, sh'.table.clients, sh.clock,
            t, AccountLed(call.pc), AccountLed(pc'), Leaving(call.pc), sh.steps);
    OutKept(sh.byCheck, sh'.byCheck, sh.table.clients, sh'.table.clients, sh.clock,
            t, CheckLed(call.pc), CheckLed(pc'), Leaving(call.pc), sh.steps);
  }

  lemma TableAndGroupKept(c: Config, t: Tid, sh: Shared, call: Call, choice: Choice, sh': Shared, pc': Pc)
    requires TableEffect(sh.table, sh'.table, t, call.pc, pc')
    requires GroupEffect(sh.byAccount, sh'.byAccount, t, AccountLed(call.pc), AccountLed(pc'), Leaving(call.pc),
                   sh.steps)
    requires TableInv(sh.table, sh.byAccount.leader) && Kind(call) && Leads(sh, t, call.pc)
    requires LoginInv(c, sh.table, sh.self, t, call) && ForInv(c, sh, call)
    requires t in sh.table.clients.Values ==> Progress(call.pc) == 3
    ensures TableInv(sh'.table, sh'.byAccount.leader)
  {
    TableKept(c, sh.table, sh'.table, sh.self, sh.byAccount.leader, t, call, pc');
    LeadingKept(sh'.table, sh.byAccount, sh'.byAccount, t, AccountLed(call.pc), AccountLed(pc'), Leaving(call.pc),
                sh.steps);
  }

  lemma ChecksAndGroupKept(c: Config, t: Tid, sh: Shared, call: Call, choice: Choice, sh': Shared, pc': Pc)
    requires SelfEffect(sh.self, sh'.self, sh.clock, call.pc, pc')
    requires GroupEffect(sh.byCheck, sh'.byCheck, t, CheckLed(call.pc), CheckLed(pc'), Leaving(call.pc), sh.steps)
    requires SelfChecksInv(sh.self, sh.byCheck.leader, sh.clock) && Leads(sh, t, call.pc) && CheckInv(sh, call)
    ensures SelfChecksInv(sh'.self, sh'.byCheck.leader, sh.clock)
  {
    ChecksKept(sh.self, sh'.self, sh.byCheck.leader, sh.clock, t, call.pc, pc');
    ChecksLeadingKept(sh'.self, sh.clock, sh.byCheck, sh'.byCheck, t, CheckLed(call.pc), CheckLed(pc'),
                      Leaving(call.pc), sh.steps);
  }

  // The facts of CallInv about publishing, in the form the lemmas above ask for.
  lemma PublishFacts(c: Config, sh: Shared, t: Tid, call: Call)
    requires Holdings(sh, t, call) && LoginInv(c, sh.table, sh.self, t, call)
    ensures Leads(sh, t, call.pc) && Kind(call)
    ensures t in sh.table.clients.Values ==> Progress(call.pc) == 3
    ensures call.pc.InLogin? && call.pc.login.Publish? ==> call.pc.key !in sh.table.clients
    ensures call.pc.InLogin? && call.pc.login.StopOwn? ==> t in sh.table.clients.Values
  {
    if call.pc.InLogin? && call.pc.login.StopOwn? {
      assert sh.table.clients[call.pc.key] in sh.table.clients.Values;
    }
  }

  // A step keeps the shared condition and its own call's condition ...
  lemma {:induction false} StepKeeps(c: Config, t: Tid, sh: Shared, call: Call, choice: Choice, sh': Shared, pc': Pc)
    requires Steps(c, t, sh, call, choice, sh', pc') && SharedInv(c, sh) && CallInv(c, sh, t, call)
    ensures Effects(c, t, sh, call, choice, sh', pc')
    ensures SharedInv(c, sh') && CallInv(c, sh', t, call.(pc := pc'))
  {
    PublishFacts(c, sh, t, call);
    StepEffects(c, t, sh, call, choice, sh', pc');
    StepLocal(c, t, sh, call, choice, sh', pc');
    HoldingsKept(c, t, sh, call, choice, sh', pc');
    OutcomesKept(c, t, sh, call, choice, sh', pc');
    TableAndGroupKept(c, t, sh, call, choice, sh', pc');
    KeepalivesKept(c, sh.table, sh'.table, sh.life, sh'.life, t, call.pc, pc', choice.victim);
    ChecksAndGroupKept(c, t, sh, call, choice, sh', pc');
  }
}
