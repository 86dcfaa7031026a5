// A run in which For returns the failure of a login that was over before the call began: two
// subjects share an account; the second waits for the first one's login, which fails; before
// the second has taken the failure over, a third call joins it and is handed it too.
module PoolStaleRun {
  import opened Wrappers
  import opened PoolProtocol
  import opened PoolOutcomes
  import opened PoolPlay

  const CONFIG: Config := Config(map["a" := "k", "b" := "k"], false)
  const NOBODY: Group := Group(map[], map[])
  const FAILURE: Answer := LoginFailed(0)

  // The login ends in step 11.
  function Ended(steps: nat): map<Tid, Attempt> {
    if steps < 12 then map[] else map[0 := Attempt("k", Build, Unreachable)]
  }

  function Shares(bySubject: Group, byAccount: Group, locked: bool, held: map<Mutex, Tid>, steps: nat): Shared {
    var table := Table(map[], if locked then map["k" := 0] else map[], if locked then 1 else 0, multiset{}, multiset{});
    Fresh(0).(table := table, held := held, bySubject := bySubject, byAccount := byAccount, steps := steps,
              attempts := Ended(steps))
  }

  function First(pc: Pc): Call {
    Call(For("a"), 0, pc)
  }

  function Second(pc: Pc): Call {
    Call(For("b"), 4, pc)
  }

  function Third(pc: Pc): Call {
    Call(For("b"), 14, pc)
  }

  function Leading(leader: map<string, Tid>): Group {
    Group(leader, map[])
  }

  // The first call gets as far as executing for the account.
  function Opening(n: nat): State
    requires n <= 5
  {
    var a := Leading(map["a" := 0]);
    match n
    case 0 => State(Shares(NOBODY, NOBODY, false, map[], 0), [])
    case 1 => State(Shares(NOBODY, NOBODY, false, map[], 0), [First(Enter)])
    case 2 => State(Shares(a, NOBODY, false, map[], 1), [First(InFor(Resolve))])
    case 3 => State(Shares(a, NOBODY, false, map[], 2), [First(InFor(FirstCheck("k")))])
    case 4 => State(Shares(a, NOBODY, false, map[], 3), [First(InFor(EnterAccount("k")))])
    case _ => State(Shares(a, Leading(map["k" := 0]), false, map[], 4), [First(InFor(Recheck("k")))])
  }

  // The second call comes to wait for it.
  function Joining(n: nat): State
    requires n <= 5
  {
    var a, ab, k := Leading(map["a" := 0]), Leading(map["a" := 0, "b" := 1]), Leading(map["k" := 0]);
    var first := First(InFor(Recheck("k")));
    match n
    case 0 => State(Shares(a, k, false, map[], 4), [first])
    case 1 => State(Shares(a, k, false, map[], 4), [first, Second(Enter)])
    case 2 => State(Shares(ab, k, false, map[], 5), [first, Second(InFor(Resolve))])
    case 3 => State(Shares(ab, k, false, map[], 6), [first, Second(InFor(FirstCheck("k")))])
    case 4 => State(Shares(ab, k, false, map[], 7), [first, Second(InFor(EnterAccount("k")))])
    case _ => State(Shares(ab, k, false, map[], 8), [first, Second(InFor(JoinAccount("k", 0)))])
  }

  // The first call's login fails, and it leaves the account's group.
  function Failing(n: nat): State
    requires n <= 6
  {
    var ab, k := Leading(map["a" := 0, "b" := 1]), Leading(map["k" := 0]);
    var second := Second(InFor(JoinAccount("k", 0)));
    match n
    case 0 => State(Shares(ab, k, false, map[], 8), [First(InFor(Recheck("k"))), second])
    case 1 => State(Shares(ab, k, false, map[], 9), [First(InLogin("k", Build, GetLock)), second])
    case 2 => State(Shares(ab, k, true, map[], 10), [First(InLogin("k", Build, AwaitLock(0))), second])
    case 3 => State(Shares(ab, k, true, map[0 := 0], 11), [First(InLogin("k", Build, Connect(0))), second])
    case 4 => State(Shares(ab, k, true, map[0 := 0], 12), [First(InLogin("k", Build, Unlock(0, Unreachable))), second])
    case 5 => State(Shares(ab, k, true, map[], 13), [First(InFor(LeaveAccount("k", FAILURE))), second])
    case _ => State(Shares(ab, Group(map[], map[0 := Done("k", FAILURE, 13)]), true, map[], 14),
                    [First(InFor(LeaveSubject(FAILURE))), second])
  }

  // A third call begins, joins the second and is handed the failure.
  function Handing(n: nat): State
    requires n <= 5
  {
    var ab, k := Leading(map["a" := 0, "b" := 1]), Group(map[], map[0 := Done("k", FAILURE, 13)]);
    var first, handed := First(InFor(LeaveSubject(FAILURE))), Group(map["a" := 0], map[1 := Done("b", FAILURE, 16)]);
    match n
    case 0 => State(Shares(ab, k, true, map[], 14), [first, Second(InFor(JoinAccount("k", 0)))])
    case 1 => State(Shares(ab, k, true, map[], 14), [first, Second(InFor(JoinAccount("k", 0))), Third(Enter)])
    case 2 => State(Shares(ab, k, true, map[], 15),
                    [first, Second(InFor(JoinAccount("k", 0))), Third(InFor(JoinSubject(1)))])
    case 3 => State(Shares(ab, k, true, map[], 16),
                    [first, Second(InFor(LeaveSubject(FAILURE))), Third(InFor(JoinSubject(1)))])
    case 4 => State(Shares(handed, k, true, map[], 17),
                    [first, Second(Returned(FAILURE)), Third(InFor(JoinSubject(1)))])
    case _ => State(Shares(handed, k, true, map[], 18), [first, Second(Returned(FAILURE)), Third(Returned(FAILURE))])
  }

  const NO_CLIENT: Choice := Choice(false, Unreachable, 0)

  lemma OpeningRuns(n: nat)
    requires n < 5
    ensures Next(CONFIG, Opening(n), Opening(n + 1))
  {
    if n == 0 {
      ArrivalIsNext(CONFIG, Opening(0), Opening(1), For("a"));
    } else {
      StepIsNext(CONFIG, Opening(n), Opening(n + 1), 0, NO_CLIENT);
    }
  }

  lemma JoiningRuns(n: nat)
    requires n < 5
    ensures Next(CONFIG, Joining(n), Joining(n + 1))
  {
    if n == 0 {
      ArrivalIsNext(CONFIG, Joining(0), Joining(1), For("b"));
    } else {
      StepIsNext(CONFIG, Joining(n), Joining(n + 1), 1, NO_CLIENT);
    }
  }

  lemma LoginRuns(n: nat)
    requires n < 3
    ensures Next(CONFIG, Failing(n), Failing(n + 1))
  {
    StepIsNext(CONFIG, Failing(n), Failing(n + 1), 0, NO_CLIENT);
  }

  lemma FailureRuns(n: nat)
    requires 3 <= n < 6
    ensures Next(CONFIG, Failing(n), Failing(n + 1))
  {
    StepIsNext(CONFIG, Failing(n), Failing(n + 1), 0, NO_CLIENT);
  }

  lemma ThirdRuns(n: nat)
    requires n == 0 || n == 1 || n == 4
    ensures Next(CONFIG, Handing(n), Handing(n + 1))
  {
    if n == 0 {
      ArrivalIsNext(CONFIG, Handing(0), Handing(1), For("b"));
    } else {
      StepIsNext(CONFIG, Handing(n), Handing(n + 1), 2, NO_CLIENT);
    }
  }

  lemma SecondRuns(n: nat)
    requires n == 2 || n == 3
    ensures Next(CONFIG, Handing(n), Handing(n + 1))
  {
    StepIsNext(CONFIG, Handing(n), Handing(n + 1), 1, NO_CLIENT);
  }

  function StateAt(n: nat): State
    requires n <= 21
  {
    if n <= 5 then Opening(n)
    else if n <= 10 then Joining(n - 5)
    else if n <= 16 then Failing(n - 10)
    else Handing(n - 16)
  }

  // The third call is handed a failure whose login execution had left its group before the
  // call began.
  lemma StaleFailure() returns (run: seq<State>, began: nat, end: nat)
    ensures IsRun(CONFIG, run) && began < end < |run|
    ensures |run[began].calls| == 3 && run[began].calls[2] == Call(For("b"), run[began].sh.steps, Enter)
    ensures |run[end].calls| == 3 && run[end].calls[2].pc == Returned(FAILURE)
    ensures FailedBefore(run[end].sh.byAccount, FAILURE.origin, run[end].calls[2].started)
  {
    run := seq(22, n requires 0 <= n < 22 => StateAt(n));
    forall n | 0 <= n < |run| - 1 ensures Next(CONFIG, run[n], run[n + 1]) {
      if n < 5 {
        OpeningRuns(n);
      } else if n < 10 {
        assert Opening(5) == Joining(0);
        JoiningRuns(n - 5);
      } else if n < 16 {
        assert Joining(5) == Failing(0);
        if n < 13 {
          LoginRuns(n - 10);
        } else {
          FailureRuns(n - 10);
        }
      } else {
        assert Failing(6) == Handing(0);
        if n == 18 || n == 19 {
          SecondRuns(n - 16);
        } else {
          ThirdRuns(n - 16);
        }
      }
    }
    began, end := 17, 21;
  }
}
