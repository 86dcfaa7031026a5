// A run in which two logins of self_check for one account start one second apart: the first
// probe waits 59 seconds for a pooled login to release the account's mutex, the second, which
// starts a minute after the first, waits not at all.
module PoolCloseLogins {
  import opened Wrappers
  import opened PoolProtocol
  import opened PoolProbes
  import opened PoolPlay

  const SECOND: int := 1_000_000_000
  const CONFIG: Config := Config(map["a" := "k"], false)
  const NOBODY: Group := Group(map[], map[])
  const REJECTED: Choice := Choice(true, Rejected, 0)
  const NO_CHECKS: SelfChecks := SelfChecks(map[], map[], map[])
  const ONE_PROBE: SelfChecks := SelfChecks(map[], map["k" := [0]], map[])
  const ONE_LOGIN: SelfChecks := SelfChecks(map[], map["k" := [0]], map["k" := map[0 := 59 * SECOND]])

  // The pooled login ends in step 13, the first probe's in step 17.
  function Ended(steps: nat): map<Tid, Attempt> {
    if steps < 14 then map[]
    else if steps < 18 then map[0 := Attempt("k", Build, Rejected)]
    else map[0 := Attempt("k", Build, Rejected), 1 := Attempt("k", SelfProbe(0), Rejected)]
  }

  function Led(byCheck: Group, held: map<Mutex, Tid>, self: SelfChecks, clock: int, steps: nat): Shared {
    var account := Group(map["k" := 0], map[]);
    var table := Table(map[], map["k" := 0], 1, multiset{}, multiset{});
    Fresh(clock).(table := table, held := held, bySubject := Group(map["a" := 0], map[]),
                  byAccount := account, byCheck := byCheck, self := self, steps := steps, attempts := Ended(steps))
  }

  function Unlocked(bySubject: Group, byAccount: Group, steps: nat): Shared {
    Fresh(0).(bySubject := bySubject, byAccount := byAccount, steps := steps)
  }

  function Pooled(pc: Pc): Call {
    Call(For("a"), 0, pc)
  }

  function CheckOne(pc: Pc): Call {
    Call(SelfCheck("a"), 8, pc)
  }

  function CheckTwo(pc: Pc): Call {
    Call(SelfCheck("a"), 21, pc)
  }

  function Building(login: LoginPhase): Pc {
    InLogin("k", Build, login)
  }

  function Probing(at: int, login: LoginPhase): Pc {
    InLogin("k", SelfProbe(at), login)
  }

  function Checking(check: CheckPhase): Pc {
    InCheck("k", check)
  }

  // A pooled login gets under way.
  function Opening(n: nat): State
    requires n <= 9
  {
    var a, k := Group(map["a" := 0], map[]), Group(map["k" := 0], map[]);
    match n
    case 0 => State(Unlocked(NOBODY, NOBODY, 0), [])
    case 1 => State(Unlocked(NOBODY, NOBODY, 0), [Pooled(Enter)])
    case 2 => State(Unlocked(a, NOBODY, 1), [Pooled(InFor(Resolve))])
    case 3 => State(Unlocked(a, NOBODY, 2), [Pooled(InFor(FirstCheck("k")))])
    case 4 => State(Unlocked(a, NOBODY, 3), [Pooled(InFor(EnterAccount("k")))])
    case 5 => State(Unlocked(a, k, 4), [Pooled(InFor(Recheck("k")))])
    case 6 => State(Unlocked(a, k, 5), [Pooled(Building(GetLock))])
    case 7 => State(Led(NOBODY, map[], NO_CHECKS, 0, 6), [Pooled(Building(AwaitLock(0)))])
    case 8 => State(Led(NOBODY, map[0 := 0], NO_CHECKS, 0, 7), [Pooled(Building(Connect(0)))])
    case _ => State(Led(NOBODY, map[0 := 0], NO_CHECKS, 0, 8), [Pooled(Building(LoggingIn(0)))])
  }

  // A self_check records its start and waits for the mutex until that login is over.
  function Waiting(n: nat): State
    requires n <= 9
  {
    var held, check := map[0 := 0], Group(map["k" := 1], map[]);
    var login := Pooled(Building(LoggingIn(0)));
    var waiting := CheckOne(Probing(0, AwaitLock(0)));
    match n
    case 0 => State(Led(NOBODY, held, NO_CHECKS, 0, 8), [login])
    case 1 => State(Led(NOBODY, held, NO_CHECKS, 0, 8), [login, CheckOne(Enter)])
    case 2 => State(Led(NOBODY, held, NO_CHECKS, 0, 9), [login, CheckOne(Checking(EnterGroup))])
    case 3 => State(Led(check, held, NO_CHECKS, 0, 10), [login, CheckOne(Checking(ReadCache))])
    case 4 => State(Led(check, held, NO_CHECKS, 0, 11), [login, CheckOne(Checking(Decide(None)))])
    case 5 => State(Led(check, held, ONE_PROBE, 0, 12), [login, CheckOne(Probing(0, GetLock))])
    case 6 => State(Led(check, held, ONE_PROBE, 0, 13), [login, waiting])
    case 7 => State(Led(check, held, ONE_PROBE, 59 * SECOND, 13), [login, waiting])
    case 8 => State(Led(check, held, ONE_PROBE, 59 * SECOND, 14), [Pooled(Building(Unlock(0, Rejected))), waiting])
    case _ => State(Led(check, map[], ONE_PROBE, 59 * SECOND, 15), [Failed(), waiting])
  }

  function Failed(): Call {
    Pooled(InFor(LeaveAccount("k", LoginFailed(0))))
  }

  function FirstAnswer(): Answer {
    Checked(Rejected, 0, false, 0)
  }

  function AfterFirst(cache: map<Key, Entry>): SelfChecks {
    ONE_LOGIN.(cache := cache)
  }

  // The first probe logs in, stores its result under its recorded start, and returns.
  function Probed(n: nat): State
    requires n <= 6
  {
    var held, check := map[0 := 1], Group(map["k" := 1], map[]);
    var now := 59 * SECOND;
    var stored := AfterFirst(map["k" := Entry(Rejected, 0)]);
    match n
    case 0 => State(Led(check, map[], ONE_PROBE, now, 15), [Failed(), CheckOne(Probing(0, AwaitLock(0)))])
    case 1 => State(Led(check, held, ONE_PROBE, now, 16), [Failed(), CheckOne(Probing(0, Connect(0)))])
    case 2 => State(Led(check, held, ONE_LOGIN, now, 17), [Failed(), CheckOne(Probing(0, LoggingIn(0)))])
    case 3 => State(Led(check, held, ONE_LOGIN, now, 18), [Failed(), CheckOne(Probing(0, Unlock(0, Rejected)))])
    case 4 => State(Led(check, map[], ONE_LOGIN, now, 19), [Failed(), CheckOne(Checking(Store(0, Rejected)))])
    case 5 => State(Led(check, map[], stored, now, 20), [Failed(), CheckOne(Checking(LeaveGroup(FirstAnswer())))])
    case _ => State(Led(Group(map[], map[1 := Done("k", FirstAnswer(), 20)]), map[], stored, now, 21),
                    [Failed(), CheckOne(Returned(FirstAnswer()))])
  }

  // A second later the interval since the first start is over, and a second probe logs in.
  function Again(n: nat): State
    requires n <= 9
  {
    var left, now := Group(map[], map[1 := Done("k", FirstAnswer(), 20)]), 60 * SECOND;
    var check := left.(leader := map["k" := 2]);
    var entry := Entry(Rejected, 0);
    var stored := AfterFirst(map["k" := entry]);
    var probe := stored.(probes := map["k" := [0, now]]);
    var login := probe.(logins := map["k" := map[0 := 59 * SECOND, 1 := now]]);
    var first := CheckOne(Returned(FirstAnswer()));
    match n
    case 0 => State(Led(left, map[], stored, 59 * SECOND, 21), [Failed(), first])
    case 1 => State(Led(left, map[], stored, now, 21), [Failed(), first])
    case 2 => State(Led(left, map[], stored, now, 21), [Failed(), first, CheckTwo(Enter)])
    case 3 => State(Led(left, map[], stored, now, 22), [Failed(), first, CheckTwo(Checking(EnterGroup))])
    case 4 => State(Led(check, map[], stored, now, 23), [Failed(), first, CheckTwo(Checking(ReadCache))])
    case 5 => State(Led(check, map[], stored, now, 24), [Failed(), first, CheckTwo(Checking(Decide(Some(entry))))])
    case 6 => State(Led(check, map[], probe, now, 25), [Failed(), first, CheckTwo(Probing(now, GetLock))])
    case 7 => State(Led(check, map[], probe, now, 26), [Failed(), first, CheckTwo(Probing(now, AwaitLock(0)))])
    case 8 => State(Led(check, map[0 := 2], probe, now, 27), [Failed(), first, CheckTwo(Probing(now, Connect(0)))])
    case _ => State(Led(check, map[0 := 2], login, now, 28), [Failed(), first, CheckTwo(Probing(now, LoggingIn(0)))])
  }

  lemma OpeningRuns(n: nat)
    requires n < 5
    ensures Next(CONFIG, Opening(n), Opening(n + 1))
  {
    if n == 0 {
      ArrivalIsNext(CONFIG, Opening(0), Opening(1), For("a"));
    } else {
      StepIsNext(CONFIG, Opening(n), Opening(n + 1), 0, REJECTED);
    }
  }

  lemma PooledLoginRuns(n: nat)
    requires 5 <= n < 9
    ensures Next(CONFIG, Opening(n), Opening(n + 1))
  {
    StepIsNext(CONFIG, Opening(n), Opening(n + 1), 0, REJECTED);
  }

  lemma WaitingBegins(n: nat)
    requires n < 4
    ensures Next(CONFIG, Waiting(n), Waiting(n + 1))
  {
    if n == 0 {
      ArrivalIsNext(CONFIG, Waiting(0), Waiting(1), SelfCheck("a"));
    } else {
      StepIsNext(CONFIG, Waiting(n), Waiting(n + 1), 1, REJECTED);
    }
  }

  lemma WaitingRuns(n: nat)
    requires 4 <= n < 7
    ensures Next(CONFIG, Waiting(n), Waiting(n + 1))
  {
    assert [] + [0] == [0];
    assert NO_CHECKS.probes["k" := [0]] == ONE_PROBE.probes;
    if n == 6 {
      PassageIsNext(CONFIG, Waiting(6), Waiting(7), 59 * SECOND);
    } else {
      StepIsNext(CONFIG, Waiting(n), Waiting(n + 1), 1, REJECTED);
    }
  }

  lemma WaitingEnds(n: nat)
    requires 7 <= n < 9
    ensures Next(CONFIG, Waiting(n), Waiting(n + 1))
  {
    StepIsNext(CONFIG, Waiting(n), Waiting(n + 1), 0, REJECTED);
  }

  lemma ProbeRuns(n: nat)
    requires n < 3
    ensures Next(CONFIG, Probed(n), Probed(n + 1))
  {
    StepIsNext(CONFIG, Probed(n), Probed(n + 1), 1, REJECTED);
  }

  lemma ProbeEnds(n: nat)
    requires 3 <= n < 6
    ensures Next(CONFIG, Probed(n), Probed(n + 1))
  {
    StepIsNext(CONFIG, Probed(n), Probed(n + 1), 1, REJECTED);
  }

  lemma AgainArrives(n: nat)
    requires n < 2
    ensures Next(CONFIG, Again(n), Again(n + 1))
  {
    if n == 0 {
      PassageIsNext(CONFIG, Again(0), Again(1), SECOND);
    } else {
      ArrivalIsNext(CONFIG, Again(1), Again(2), SelfCheck("a"));
    }
  }

  lemma AgainBegins(n: nat)
    requires 2 <= n < 5
    ensures Next(CONFIG, Again(n), Again(n + 1))
  {
    StepIsNext(CONFIG, Again(n), Again(n + 1), 2, REJECTED);
  }

  lemma AgainDecides(n: nat)
    requires n == 5 || n == 6
    ensures Next(CONFIG, Again(n), Again(n + 1))
  {
    assert [0] + [60 * SECOND] == [0, 60 * SECOND];
    assert ONE_LOGIN.probes["k" := [0, 60 * SECOND]] == map["k" := [0, 60 * SECOND]];
    StepIsNext(CONFIG, Again(n), Again(n + 1), 2, REJECTED);
  }

  lemma AgainLogsIn(n: nat)
    requires n == 7 || n == 8
    ensures Next(CONFIG, Again(n), Again(n + 1))
  {
    var logins := map[0 := 59 * SECOND, 1 := 60 * SECOND];
    assert ONE_LOGIN.logins["k"][1 := 60 * SECOND] == logins;
    assert ONE_LOGIN.logins["k" := logins] == map["k" := logins];
    StepIsNext(CONFIG, Again(n), Again(n + 1), 2, REJECTED);
  }

  function StateAt(n: nat): State
    requires n <= 33
  {
    if n <= 9 then Opening(n) else if n <= 18 then Waiting(n - 9) else if n <= 24 then Probed(n - 18) else Again(n - 24)
  }

  lemma StateRuns(n: nat)
    requires n < 33
    ensures Next(CONFIG, StateAt(n), StateAt(n + 1))
  {
    if n < 9 {
      if n < 5 { OpeningRuns(n); } else { PooledLoginRuns(n); }
    } else if n < 18 {
      assert Opening(9) == Waiting(0);
      if n < 13 { WaitingBegins(n - 9); } else if n < 16 { WaitingRuns(n - 9); } else { WaitingEnds(n - 9); }
    } else if n < 24 {
      assert Waiting(9) == Probed(0);
      if n < 21 { ProbeRuns(n - 18); } else { ProbeEnds(n - 18); }
    } else {
      assert Probed(6) == Again(0);
      if n < 26 { AgainArrives(n - 24); } else if n < 29 { AgainBegins(n - 24); }
      if 29 <= n < 31 { AgainDecides(n - 24); } else if n >= 31 { AgainLogsIn(n - 24); }
    }
  }

  // Two successive logins of self_check for account "k" start within a second of each other.
  lemma LoginsTooClose() returns (run: seq<State>, end: nat)
    ensures IsRun(CONFIG, run) && end < |run|
    ensures Logins(run[end].sh.self, "k") == map[0 := 59 * SECOND, 1 := 60 * SECOND]
    ensures Logins(run[end].sh.self, "k")[1] - Logins(run[end].sh.self, "k")[0] < SELF_CHECK_MIN_INTERVAL
    ensures Probes(run[end].sh.self, "k") == [0, 60 * SECOND]
  {
    run := seq(34, n requires 0 <= n < 34 => StateAt(n));
    forall n | 0 <= n < |run| - 1 ensures Next(CONFIG, run[n], run[n + 1]) {
      StateRuns(n);
    }
    end := 33;
  }
}
