// A run in which a call of self_check is handed a cached answer that is older than the interval:
// it joins an execution that decided on the answer ten seconds before the call began.
module PoolLateAnswer {
  import opened Wrappers
  import opened PoolProtocol
  import opened PoolPlay

  const SECOND: int := 1_000_000_000
  const CONFIG: Config := Config(map["a" := "k"], false)
  const NO_CLIENT: Choice := Choice(false, Unreachable, 0)
  const ENTRY: Entry := Entry(Unreachable, 0)
  const PROBED: SelfChecks := SelfChecks(map[], map["k" := [0]], map[])
  const STORED: SelfChecks := PROBED.(cache := map["k" := ENTRY])
  const ANSWER: Answer := Checked(Unreachable, 0, false, 0)
  const CACHED: Answer := Checked(Unreachable, 0, true, 59 * SECOND)

  // The probe's login ends in step 6.
  function Ended(steps: nat): map<Tid, Attempt> {
    if steps < 7 then map[] else map[0 := Attempt("k", SelfProbe(0), Unreachable)]
  }

  function Shares(byCheck: Group, locked: bool, held: map<Mutex, Tid>, self: SelfChecks, clock: int,
                  steps: nat): Shared {
    var table := Table(map[], if locked then map["k" := 0] else map[], if locked then 1 else 0, multiset{}, multiset{});
    Fresh(clock).(table := table, held := held, byCheck := byCheck, self := self, steps := steps,
                  attempts := Ended(steps))
  }

  function CheckAt(started: nat, pc: Pc): Call {
    Call(SelfCheck("a"), started, pc)
  }

  function Checking(check: CheckPhase): Pc {
    InCheck("k", check)
  }

  function Probing(login: LoginPhase): Pc {
    InLogin("k", SelfProbe(0), login)
  }

  // A first self_check, at time 0, probes the account and stores the outcome.
  function Opening(n: nat): State
    requires n <= 11
  {
    var none, check, held, blank := Group(map[], map[]), Group(map["k" := 0], map[]), map[0 := 0], Fresh(0).self;
    match n
    case 0 => State(Shares(none, false, map[], blank, 0, 0), [])
    case 1 => State(Shares(none, false, map[], blank, 0, 0), [CheckAt(0, Enter)])
    case 2 => State(Shares(none, false, map[], blank, 0, 1), [CheckAt(0, Checking(EnterGroup))])
    case 3 => State(Shares(check, false, map[], blank, 0, 2), [CheckAt(0, Checking(ReadCache))])
    case 4 => State(Shares(check, false, map[], blank, 0, 3), [CheckAt(0, Checking(Decide(None)))])
    case 5 => State(Shares(check, false, map[], PROBED, 0, 4), [CheckAt(0, Probing(GetLock))])
    case 6 => State(Shares(check, true, map[], PROBED, 0, 5), [CheckAt(0, Probing(AwaitLock(0)))])
    case 7 => State(Shares(check, true, held, PROBED, 0, 6), [CheckAt(0, Probing(Connect(0)))])
    case 8 => State(Shares(check, true, held, PROBED, 0, 7), [CheckAt(0, Probing(Unlock(0, Unreachable)))])
    case 9 => State(Shares(check, true, map[], PROBED, 0, 8), [CheckAt(0, Checking(Store(0, Unreachable)))])
    case 10 => State(Shares(check, true, map[], STORED, 0, 9), [CheckAt(0, Checking(LeaveGroup(ANSWER)))])
    case _ => State(Shares(Left(map[]), true, map[], STORED, 0, 10), [CheckAt(0, Returned(ANSWER))])
  }

  function Left(leader: map<string, Tid>): Group {
    Group(leader, map[0 := Done("k", ANSWER, 9)])
  }

  // 59 seconds later a second one decides that this is fresh enough; 10 seconds after that a third
  // one joins it, and both return.
  function Handing(n: nat): State
    requires n <= 12
  {
    var t1, t2, first := 59 * SECOND, 69 * SECOND, CheckAt(0, Returned(ANSWER));
    var leaving := CheckAt(10, Checking(LeaveGroup(CACHED)));
    var check := Left(map["k" := 1]);
    var both := Group(map[], map[0 := Done("k", ANSWER, 9), 1 := Done("k", CACHED, 16)]);
    match n
    case 0 => State(Shares(Left(map[]), true, map[], STORED, 0, 10), [first])
    case 1 => State(Shares(Left(map[]), true, map[], STORED, t1, 10), [first])
    case 2 => State(Shares(Left(map[]), true, map[], STORED, t1, 10), [first, CheckAt(10, Enter)])
    case 3 => State(Shares(Left(map[]), true, map[], STORED, t1, 11), [first, CheckAt(10, Checking(EnterGroup))])
    case 4 => State(Shares(check, true, map[], STORED, t1, 12), [first, CheckAt(10, Checking(ReadCache))])
    case 5 => State(Shares(check, true, map[], STORED, t1, 13), [first, CheckAt(10, Checking(Decide(Some(ENTRY))))])
    case 6 => State(Shares(check, true, map[], STORED, t1, 14), [first, leaving])
    case 7 => State(Shares(check, true, map[], STORED, t2, 14), [first, leaving])
    case 8 => State(Shares(check, true, map[], STORED, t2, 14), [first, leaving, CheckAt(14, Enter)])
    case 9 => State(Shares(check, true, map[], STORED, t2, 15), [first, leaving, CheckAt(14, Checking(EnterGroup))])
    case 10 => State(Shares(check, true, map[], STORED, t2, 16), [first, leaving, CheckAt(14, Checking(JoinGroup(1)))])
    case 11 => State(Shares(both, true, map[], STORED, t2, 17),
                     [first, CheckAt(10, Returned(CACHED)), CheckAt(14, Checking(JoinGroup(1)))])
    case _ => State(Shares(both, true, map[], STORED, t2, 18),
                    [first, CheckAt(10, Returned(CACHED)), CheckAt(14, Returned(CACHED))])
  }

  lemma OpeningBegins(n: nat)
    requires n < 5
    ensures Next(CONFIG, Opening(n), Opening(n + 1))
  {
    assert [] + [0] == [0];
    assert Fresh(0).self.probes["k" := [0]] == PROBED.probes;
    if n == 0 {
      ArrivalIsNext(CONFIG, Opening(0), Opening(1), SelfCheck("a"));
    } else {
      StepIsNext(CONFIG, Opening(n), Opening(n + 1), 0, NO_CLIENT);
    }
  }

  lemma OpeningRuns(n: nat)
    requires 5 <= n < 8
    ensures Next(CONFIG, Opening(n), Opening(n + 1))
  {
    StepIsNext(CONFIG, Opening(n), Opening(n + 1), 0, NO_CLIENT);
  }

  lemma OpeningEnds(n: nat)
    requires 8 <= n < 11
    ensures Next(CONFIG, Opening(n), Opening(n + 1))
  {
    StepIsNext(CONFIG, Opening(n), Opening(n + 1), 0, NO_CLIENT);
  }

  lemma SecondRuns(n: nat)
    requires n < 6
    ensures Next(CONFIG, Handing(n), Handing(n + 1))
  {
    if n == 0 {
      PassageIsNext(CONFIG, Handing(0), Handing(1), 59 * SECOND);
    } else if n == 1 {
      ArrivalIsNext(CONFIG, Handing(1), Handing(2), SelfCheck("a"));
    } else {
      StepIsNext(CONFIG, Handing(n), Handing(n + 1), 1, NO_CLIENT);
    }
  }

  lemma ThirdRuns(n: nat)
    requires 6 <= n < 10
    ensures Next(CONFIG, Handing(n), Handing(n + 1))
  {
    if n == 6 {
      PassageIsNext(CONFIG, Handing(6), Handing(7), 10 * SECOND);
    } else if n == 7 {
      ArrivalIsNext(CONFIG, Handing(7), Handing(8), SelfCheck("a"));
    } else {
      StepIsNext(CONFIG, Handing(n), Handing(n + 1), 2, NO_CLIENT);
    }
  }

  lemma BothReturn(n: nat)
    requires 10 <= n < 12
    ensures Next(CONFIG, Handing(n), Handing(n + 1))
  {
    StepIsNext(CONFIG, Handing(n), Handing(n + 1), n - 9, NO_CLIENT);
  }

  function StateAt(n: nat): State
    requires n <= 23
  {
    if n <= 11 then Opening(n) else Handing(n - 11)
  }

  lemma StateRuns(n: nat)
    requires n < 23
    ensures Next(CONFIG, StateAt(n), StateAt(n + 1))
  {
    if n < 11 {
      if n < 5 { OpeningBegins(n); } else if n < 8 { OpeningRuns(n); } else { OpeningEnds(n); }
    } else {
      assert Opening(11) == Handing(0);
      if n < 17 { SecondRuns(n - 11); } else if n < 21 { ThirdRuns(n - 11); } else { BothReturn(n - 11); }
    }
  }

  // The third call returns an answer marked cached that is 69 seconds old, and already was when
  // the call began.
  lemma OldAnswer() returns (run: seq<State>, began: nat, end: nat)
    ensures IsRun(CONFIG, run) && began < end < |run| && |run[began].calls| == 3 == |run[end].calls|
    ensures run[began].calls[2].pc == Enter && run[end].calls[2].pc == Returned(CACHED)
    ensures run[began].sh.clock - CACHED.at > SELF_CHECK_MIN_INTERVAL && run[end].sh.clock == run[began].sh.clock
  {
    run := seq(24, n requires 0 <= n < 24 => StateAt(n));
    forall n | 0 <= n < |run| - 1 ensures Next(CONFIG, run[n], run[n + 1]) {
      StateRuns(n);
    }
    began, end := 19, 23;
  }
}
