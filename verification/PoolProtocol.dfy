// The client pool of internal/clientpool/pool.go and the self_check throttle of
// internal/tools/ops.go as one transition system with unboundedly many calls.
//
// A call is named by its position in State.calls and runs one request to completion. Each
// step is one atomic action of the source: an access to a singleflight group, one critical
// section under Pool.mu, taking or releasing an account's login mutex, the start or the end
// of a real login. Fields marked as history record what happened; no step reads them to
// decide what to do.
module PoolProtocol {
  import opened Wrappers

  type Tid = nat
  type Subject = string
  type Key = string
  type Mutex = nat

  // One minute, in nanoseconds.
  const SELF_CHECK_MIN_INTERVAL: int := 60_000_000_000

  // resolver is the unchanging subject-to-username map; keepalive says whether
  // WithKeepalive was given a positive interval.
  datatype Config = Config(resolver: map<Subject, Key>, keepalive: bool)

  datatype Request =
    | For(subject: Subject)
    | Probe(subject: Subject)
    | SelfCheck(subject: Subject)
    | Close

  datatype LoginOutcome = LoginOk | Rejected | Unreachable

  // What a call returns. A client is named by the call that built it.
  datatype Answer =
    | Client(key: Key, client: Tid)
    | NoAccount
    | LoginFailed(origin: Tid)      // history: the call whose own build failed
    | Probed(outcome: LoginOutcome)
    | Checked(result: LoginOutcome, at: int, cached: bool, decidedAt: int)
    | Closed

  // Who is logging in: a pooled build, a bare ProbeLogin, or the probe of a self_check that
  // read its clock at `at`.
  datatype Mode = Build | ProbeOnly | SelfProbe(at: int)

  // A login that has ended: against which account, for what purpose, and how.
  datatype Attempt = Attempt(key: Key, mode: Mode, outcome: LoginOutcome)

  // For and forSubject, outside the login itself.
  datatype ForPhase =
    | JoinSubject(leader: Tid)
    | Resolve
    | FirstCheck(key: Key)
    | EnterAccount(key: Key)
    | JoinAccount(key: Key, leader: Tid)
    | Recheck(key: Key)
    | LeaveAccount(key: Key, answer: Answer)
    | LeaveSubject(answer: Answer)

  // buildAndLogin and ProbeLogin from loginLock on.
  datatype LoginPhase =
    | GetLock
    | AwaitLock(mutex: Mutex)
    | Connect(mutex: Mutex)
    | LoggingIn(mutex: Mutex)
    | Warm(mutex: Mutex)
    | Publish(mutex: Mutex)
    | StopOwn(mutex: Mutex)
    | Unlock(mutex: Mutex, outcome: LoginOutcome)

  // selfCheckResultFor, outside ProbeLogin.
  datatype CheckPhase =
    | EnterGroup
    | JoinGroup(leader: Tid)
    | ReadCache
    | Decide(seen: Option<Entry>)
    | Store(at: int, outcome: LoginOutcome)
    | LeaveGroup(answer: Answer)

  datatype Pc =
    | Enter
    | InFor(stage: ForPhase)
    | InLogin(key: Key, mode: Mode, login: LoginPhase)
    | InCheck(key: Key, check: CheckPhase)
    | Stopping(pending: set<Tid>)
    | Returned(answer: Answer)

  // started is the value of Shared.steps when the call began.
  datatype Call = Call(request: Request, started: nat, pc: Pc)

  // One account's entry in selfCheckCache.
  datatype Entry = Entry(result: LoginOutcome, at: int)

  // A finished singleflight execution: the group key it ran under, its value, and when
  // (in steps) it left the group.
  datatype Done = Done(group: string, answer: Answer, at: nat)

  // A singleflight.Group: the executing call of each key, and what finished calls left.
  datatype Group = Group(leader: map<string, Tid>, out: map<Tid, Done>)

  // Pool.clients and Pool.loginLocks.
  datatype Table = Table(
    clients: map<Key, Tid>,
    loginLocks: map<Key, Mutex>,
    nextMutex: Mutex,
    successes: multiset<Key>,     // history: successful EnsureSession calls, by account
    ensured: multiset<Tid>)       // history: the same, by client

  // Pool.closed and the keepalive goroutines.
  datatype Keepalives = Keepalives(
    closed: bool,
    running: set<Tid>,            // clients whose keepalive is running
    warmed: set<Tid>,             // history: clients whose keepalive was ever started
    custody: map<Tid, Tid>,       // history: client -> the call that still has to stop it
    stopCalls: multiset<Tid>,     // history: calls of stop(), by client
    closes: nat)                  // history: how often Close took its snapshot

  // selfCheckCache.
  datatype SelfChecks = SelfChecks(
    cache: map<Key, Entry>,
    probes: map<Key, seq<int>>,   // history: the clock readings of the real probes
    logins: map<Key, map<nat, int>>)  // history: when probe n of an account started its login

  datatype Shared = Shared(
    table: Table,
    life: Keepalives,
    held: map<Mutex, Tid>,
    bySubject: Group,
    byAccount: Group,
    byCheck: Group,
    self: SelfChecks,
    clock: int,
    steps: nat,                   // history: steps taken so far
    attempts: map<Tid, Attempt>)  // history: how each call's login ended

  datatype State = State(sh: Shared, calls: seq<Call>)

  function Fresh(clock: int): Shared {
    Shared(Table(map[], map[], 0, multiset{}, multiset{}), Keepalives(false, {}, {}, map[], multiset{}, 0),
           map[], Group(map[], map[]), Group(map[], map[]), Group(map[], map[]), SelfChecks(map[], map[], map[]),
           clock, 0, map[])
  }

  // ---------------------------------------------------------------- Pool's own functions

  // resolver.Credentials followed by accountKey: no account, or an account without a
  // username, yields no key.
  function Lookup(c: Config, subject: Subject): Option<Key> {
    if subject != "" && subject in c.resolver && c.resolver[subject] != ""
    then Some(c.resolver[subject]) else None
  }

  // Pool.cached
  function Cached(clients: map<Key, Tid>, key: Key): Option<Tid> {
    if key in clients then Some(clients[key]) else None
  }

  // Pool.loginLock: the account's mutex, created on first use.
  function LoginLock(locks: map<Key, Mutex>, next: Mutex, key: Key): (map<Key, Mutex>, Mutex, Mutex) {
    if key in locks then (locks, next, locks[key]) else (locks[key := next], next + 1, next)
  }

  // Do's first half for a key nobody is executing, and its end.
  function Lead(g: Group, name: string, t: Tid): Group {
    g.(leader := g.leader[name := t])
  }

  function Leave(g: Group, name: string, t: Tid, answer: Answer, now: nat): Group {
    Group(g.leader - {name}, g.out[t := Done(name, answer, now)])
  }

  function Established(table: Table, key: Key, t: Tid): Table {
    table.(successes := table.successes + multiset{key}, ensured := table.ensured + multiset{t})
  }

  function LoginEnds(sh: Shared, t: Tid, key: Key, mode: Mode, outcome: LoginOutcome): Shared {
    sh.(attempts := sh.attempts[t := Attempt(key, mode, outcome)])
  }

  // From here on somebody has to stop client t: its builder, until it is in the map.
  function StartKeepalive(life: Keepalives, t: Tid, keepalive: bool): Keepalives {
    life.(warmed := if keepalive then life.warmed + {t} else life.warmed,
          running := if keepalive then life.running + {t} else life.running,
          custody := life.custody[t := t])
  }

  // The first half of Close: mark the pool closed and take over every client found in it.
  function Snapshot(life: Keepalives, pending: set<Tid>, t: Tid): Keepalives {
    life.(closed := true, closes := life.closes + 1,
          custody := life.custody + (map x | x in pending && x !in life.custody :: t))
  }

  // Call t runs client's stop function.
  function StopClient(life: Keepalives, t: Tid, client: Tid): Keepalives {
    life.(running := life.running - {client},
          stopCalls := life.stopCalls + multiset{client},
          custody := if client in life.custody && life.custody[client] == t
                     then life.custody - {client} else life.custody)
  }

  function Probes(self: SelfChecks, key: Key): seq<int> {
    if key in self.probes then self.probes[key] else []
  }

  function Logins(self: SelfChecks, key: Key): map<nat, int> {
    if key in self.logins then self.logins[key] else map[]
  }

  // The latest probe of an account starts its login.
  function StartLogin(self: SelfChecks, key: Key, now: int): SelfChecks {
    var n := |Probes(self, key)|;
    if n == 0 then self else self.(logins := self.logins[key := Logins(self, key)[n - 1 := now]])
  }

  // ---------------------------------------------------------------- steps

  // The nondeterminism of a step: whether a client can be built, how a login ends, and which
  // keepalive Close stops next.
  datatype Choice = Choice(connects: bool, outcome: LoginOutcome, victim: Tid)

  datatype Move = Blocked | Move(sh: Shared, pc: Pc)

  function Step(c: Config, t: Tid, sh: Shared, call: Call, choice: Choice): Move {
    match call.pc
    case Enter => EnterStep(c, t, sh, call.request)
    case InFor(phase) => ForStep(c, t, sh, call.request, phase)
    case InLogin(key, mode, phase) => LoginStep(c, t, sh, key, mode, phase, choice)
    case InCheck(key, phase) => CheckStep(t, sh, key, phase)
    case Stopping(pending) => StoppingStep(t, sh, pending, choice.victim)
    case Returned(_) => Blocked
  }

  function EnterStep(c: Config, t: Tid, sh: Shared, request: Request): Move {
    match request
    case For(subject) =>
      if subject == "" then Move(sh, Returned(NoAccount))
      else if subject in sh.bySubject.leader then Move(sh, InFor(JoinSubject(sh.bySubject.leader[subject])))
      else Move(sh.(bySubject := Lead(sh.bySubject, subject, t)), InFor(Resolve))
    case Probe(subject) =>
      (match Lookup(c, subject)
       case None => Move(sh, Returned(NoAccount))
       case Some(key) => Move(sh, InLogin(key, ProbeOnly, GetLock)))
    case SelfCheck(subject) =>
      (match Lookup(c, subject)
       case None => Move(sh, Returned(NoAccount))
       case Some(key) => Move(sh, InCheck(key, EnterGroup)))
    case Close =>
      var pending := sh.table.clients.Values;
      Move(sh.(life := Snapshot(sh.life, pending, t)), Stopping(pending))
  }

  function ForStep(c: Config, t: Tid, sh: Shared, request: Request, phase: ForPhase): Move {
    var subject := if request.Close? then "" else request.subject;
    match phase
    case JoinSubject(leader) =>
      if leader in sh.bySubject.out then Move(sh, Returned(sh.bySubject.out[leader].answer)) else Blocked
    case Resolve =>
      (match Lookup(c, subject)
       case None => Move(sh, InFor(LeaveSubject(NoAccount)))
       case Some(key) => Move(sh, InFor(FirstCheck(key))))
    case FirstCheck(key) =>
      (match Cached(sh.table.clients, key)
       case Some(client) => Move(sh, InFor(LeaveSubject(Client(key, client))))
       case None => Move(sh, InFor(EnterAccount(key))))
    case EnterAccount(key) =>
      if key in sh.byAccount.leader then Move(sh, InFor(JoinAccount(key, sh.byAccount.leader[key])))
      else Move(sh.(byAccount := Lead(sh.byAccount, key, t)), InFor(Recheck(key)))
    case JoinAccount(_, leader) =>
      if leader in sh.byAccount.out then Move(sh, InFor(LeaveSubject(sh.byAccount.out[leader].answer))) else Blocked
    case Recheck(key) =>
      (match Cached(sh.table.clients, key)
       case Some(client) => Move(sh, InFor(LeaveAccount(key, Client(key, client))))
       case None => Move(sh, InLogin(key, Build, GetLock)))
    case LeaveAccount(key, answer) =>
      Move(sh.(byAccount := Leave(sh.byAccount, key, t, answer, sh.steps)), InFor(LeaveSubject(answer)))
    case LeaveSubject(answer) =>
      Move(sh.(bySubject := Leave(sh.bySubject, subject, t, answer, sh.steps)), Returned(answer))
  }

  function LoginStep(c: Config, t: Tid, sh: Shared, key: Key, mode: Mode, phase: LoginPhase, choice: Choice): Move {
    match phase
    case GetLock =>
      var (locks, next, mutex) := LoginLock(sh.table.loginLocks, sh.table.nextMutex, key);
      Move(sh.(table := sh.table.(loginLocks := locks, nextMutex := next)), InLogin(key, mode, AwaitLock(mutex)))
    case AwaitLock(mutex) =>
      if mutex in sh.held then Blocked
      else Move(sh.(held := sh.held[mutex := t]), InLogin(key, mode, Connect(mutex)))
    case Connect(mutex) =>
      if !choice.connects
      then Move(LoginEnds(sh, t, key, mode, Unreachable), InLogin(key, mode, Unlock(mutex, Unreachable)))
      else if !mode.SelfProbe? then Move(sh, InLogin(key, mode, LoggingIn(mutex)))
      else Move(sh.(self := StartLogin(sh.self, key, sh.clock)), InLogin(key, mode, LoggingIn(mutex)))
    case LoggingIn(mutex) =>
      if mode.Build? && choice.outcome.LoginOk?
      then Move(LoginEnds(sh, t, key, mode, LoginOk).(table := Established(sh.table, key, t)),
                InLogin(key, mode, Warm(mutex)))
      else Move(LoginEnds(sh, t, key, mode, choice.outcome), InLogin(key, mode, Unlock(mutex, choice.outcome)))
    case Warm(mutex) =>
      Move(sh.(life := StartKeepalive(sh.life, t, c.keepalive)), InLogin(key, mode, Publish(mutex)))
    case Publish(mutex) =>
      var table := sh.table.(clients := sh.table.clients[key := t]);
      if sh.life.closed
      then Move(sh.(table := table), InLogin(key, mode, StopOwn(mutex)))
      else Move(sh.(table := table, life := sh.life.(custody := sh.life.custody - {t})),
                InLogin(key, mode, Unlock(mutex, LoginOk)))
    case StopOwn(mutex) =>
      Move(sh.(life := StopClient(sh.life, t, t)), InLogin(key, mode, Unlock(mutex, LoginOk)))
    case Unlock(mutex, outcome) =>
      Move(sh.(held := sh.held - {mutex}), AfterLogin(t, key, mode, outcome))
  }

  function AfterLogin(t: Tid, key: Key, mode: Mode, outcome: LoginOutcome): Pc {
    match mode
    case Build => InFor(LeaveAccount(key, if outcome.LoginOk? then Client(key, t) else LoginFailed(t)))
    case ProbeOnly => Returned(Probed(outcome))
    case SelfProbe(at) => InCheck(key, Store(at, outcome))
  }

  // The second half of Close: the collected stop functions, in any order.
  function StoppingStep(t: Tid, sh: Shared, pending: set<Tid>, victim: Tid): Move {
    if pending == {} then Move(sh, Returned(Closed))
    else if victim in pending
    then Move(sh.(life := StopClient(sh.life, t, victim)), Stopping(pending - {victim}))
    else Blocked
  }

  function CheckStep(t: Tid, sh: Shared, key: Key, phase: CheckPhase): Move {
    match phase
    case EnterGroup =>
      if key in sh.byCheck.leader then Move(sh, InCheck(key, JoinGroup(sh.byCheck.leader[key])))
      else Move(sh.(byCheck := Lead(sh.byCheck, key, t)), InCheck(key, ReadCache))
    case JoinGroup(leader) =>
      if leader in sh.byCheck.out then Move(sh, Returned(sh.byCheck.out[leader].answer)) else Blocked
    case ReadCache =>
      Move(sh, InCheck(key, Decide(if key in sh.self.cache then Some(sh.self.cache[key]) else None)))
    case Decide(seen) =>
      var now := sh.clock;
      if seen.Some? && now - seen.value.at < SELF_CHECK_MIN_INTERVAL
      then Move(sh, InCheck(key, LeaveGroup(Checked(seen.value.result, seen.value.at, true, now))))
      else
        Move(sh.(self := sh.self.(probes := sh.self.probes[key := Probes(sh.self, key) + [now]])),
             InLogin(key, SelfProbe(now), GetLock))
    case Store(at, outcome) =>
      Move(sh.(self := sh.self.(cache := sh.self.cache[key := Entry(outcome, at)])),
           InCheck(key, LeaveGroup(Checked(outcome, at, false, at))))
    case LeaveGroup(answer) =>
      Move(sh.(byCheck := Leave(sh.byCheck, key, t, answer, sh.steps)), Returned(answer))
  }

  // ---------------------------------------------------------------- runs

  ghost predicate Steps(c: Config, t: Tid, sh: Shared, call: Call, choice: Choice, sh': Shared, pc': Pc) {
    var m := Step(c, t, sh, call, choice);
    m.Move? && sh' == m.sh.(steps := m.sh.steps + 1) && pc' == m.pc
  }

  // Call t takes the step picked by choice.
  ghost predicate CallStep(c: Config, s: State, s': State, t: Tid, choice: Choice) {
    && t < |s.calls| == |s'.calls|
    && s'.calls == s.calls[t := s.calls[t].(pc := s'.calls[t].pc)]
    && Steps(c, t, s.sh, s.calls[t], choice, s'.sh, s'.calls[t].pc)
  }

  // Some call takes a step.
  ghost predicate SystemStep(c: Config, s: State, s': State) {
    exists t, choice :: CallStep(c, s, s', t, choice)
  }

  // A new call begins.
  ghost predicate Arrival(s: State, s': State, request: Request) {
    s' == State(s.sh, s.calls + [Call(request, s.sh.steps, Enter)])
  }

  // Time passes.
  ghost predicate Passage(s: State, s': State, delta: nat) {
    s' == s.(sh := s.sh.(clock := s.sh.clock + delta))
  }

  ghost predicate Next(c: Config, s: State, s': State) {
    || SystemStep(c, s, s')
    || (exists request :: Arrival(s, s', request))
    || (exists delta :: Passage(s, s', delta))
  }

  ghost predicate IsRun(c: Config, run: seq<State>) {
    && |run| > 0
    && run[0].calls == []
    && run[0].sh == Fresh(run[0].sh.clock)
    && forall i :: 0 <= i < |run| - 1 ==> Next(c, run[i], run[i + 1])
  }
}
