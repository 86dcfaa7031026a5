// The pool protocol neither deadlocks nor runs forever: as long as a call is unfinished some
// call can step, and every step lowers a measure. Blocked calls wait in one direction only:
// for a subject's or a self_check's execution, that for an account's execution, that for a
// login mutex, whose holder can always step.
module PoolLiveness {
  import opened Sets
  import opened Wrappers
  import opened PoolProtocol
  import opened PoolInvariant
  import opened PoolTheorems

  // ---------------------------------------------------------------- no deadlock

  predicate Enabled(c: Config, s: State, t: Tid, choice: Choice) {
    t < |s.calls| && Step(c, t, s.sh, s.calls[t], choice).Move?
  }

  // A choice with which an unblocked call steps.
  ghost function AnyChoice(pc: Pc): Choice {
    Choice(true, LoginOk, if pc.Stopping? && pc.pending != {} then (var x :| x in pc.pending; x) else 0)
  }

  // The call is waiting for somebody else.
  predicate Waiting(sh: Shared, pc: Pc) {
    match pc
    case InFor(phase) =>
      || (phase.JoinSubject? && phase.leader !in sh.bySubject.out)
      || (phase.JoinAccount? && phase.leader !in sh.byAccount.out)
    case InLogin(_, _, phase) => phase.AwaitLock? && phase.mutex in sh.held
    case InCheck(_, phase) => phase.JoinGroup? && phase.leader !in sh.byCheck.out
    case _ => false
  }

  lemma UnblockedSteps(c: Config, s: State, t: Tid)
    requires t < |s.calls| && !s.calls[t].pc.Returned? && !Waiting(s.sh, s.calls[t].pc)
    ensures Enabled(c, s, t, AnyChoice(s.calls[t].pc))
  {
  }

  // Whoever stands in the way of call t: the mutex holder, or the leader of the execution.
  function Blocker(sh: Shared, pc: Pc): Tid
    requires Waiting(sh, pc)
  {
    match pc
    case InFor(phase) => phase.leader
    case InLogin(_, _, phase) => sh.held[phase.mutex]
    case InCheck(_, phase) => phase.leader
  }

  // The order of waits: a blocker is closer to running than what it blocks.
  function Depth(pc: Pc): nat {
    match pc
    case InFor(phase) => if phase.JoinSubject? then 3 else if phase.JoinAccount? then 2 else 0
    case InLogin(_, _, phase) => if phase.AwaitLock? then 1 else 0
    case InCheck(_, phase) => if phase.JoinGroup? then 3 else 0
    case _ => 0
  }

  lemma BlockerIsCloser(c: Config, s: State, t: Tid)
    requires Inv(c, s) && t < |s.calls| && Waiting(s.sh, s.calls[t].pc)
    ensures
      var b := Blocker(s.sh, s.calls[t].pc);
      b < |s.calls| && !s.calls[b].pc.Returned? && Depth(s.calls[b].pc) < Depth(s.calls[t].pc)
  {
    var sh, call := s.sh, s.calls[t];
    assert CallInv(c, sh, t, call);
    var b := Blocker(sh, call.pc);
    assert b < |s.calls|;
    assert CallInv(c, sh, b, s.calls[b]);
  }

  lemma {:induction false} SomeoneSteps(c: Config, s: State, t: Tid) returns (u: Tid)
    requires Inv(c, s) && t < |s.calls| && !s.calls[t].pc.Returned?
    ensures u < |s.calls| && Enabled(c, s, u, AnyChoice(s.calls[u].pc))
    decreases Depth(s.calls[t].pc)
  {
    if Waiting(s.sh, s.calls[t].pc) {
      BlockerIsCloser(c, s, t);
      u := SomeoneSteps(c, s, Blocker(s.sh, s.calls[t].pc));
    } else {
      UnblockedSteps(c, s, t);
      u := t;
    }
  }

  lemma EnabledSteps(c: Config, s: State, t: Tid, choice: Choice)
    requires Enabled(c, s, t, choice)
    ensures exists s' :: SystemStep(c, s, s')
  {
    var m := Step(c, t, s.sh, s.calls[t], choice);
    var s' := State(m.sh.(steps := m.sh.steps + 1), s.calls[t := s.calls[t].(pc := m.pc)]);
    assert CallStep(c, s, s', t, choice);
    assert SystemStep(c, s, s');
  }

  // From every reachable state with an unfinished call, some call can step.
  lemma NoDeadlock(c: Config, run: seq<State>, i: nat, t: Tid)
    requires IsRun(c, run) && i < |run| && t < |run[i].calls| && !run[i].calls[t].pc.Returned?
    ensures exists s' :: SystemStep(c, run[i], s')
  {
    RunInv(c, run, i);
    var u := SomeoneSteps(c, run[i], t);
    EnabledSteps(c, run[i], u, AnyChoice(run[i].calls[u].pc));
  }

  // ---------------------------------------------------------------- termination

  // How many more steps a call can take at most, when n calls have begun.
  function Rank(pc: Pc, n: nat): nat {
    match pc
    case Enter => 16 + n
    case InFor(phase) =>
      (match phase
       case Resolve => 15
       case FirstCheck(_) => 14
       case EnterAccount(_) => 13
       case Recheck(_) => 12
       case JoinAccount(_, _) => 2
       case LeaveAccount(_, _) => 2
       case JoinSubject(_) => 1
       case LeaveSubject(_) => 1)
    case InLogin(_, _, phase) =>
      (match phase
       case GetLock => 11
       case AwaitLock(_) => 10
       case Connect(_) => 9
       case LoggingIn(_) => 8
       case Warm(_) => 7
       case Publish(_) => 6
       case StopOwn(_) => 5
       case Unlock(_, _) => 4)
    case InCheck(_, phase) =>
      (match phase
       case EnterGroup => 14
       case ReadCache => 13
       case Decide(_) => 12
       case Store(_, _) => 2
       case JoinGroup(_) => 1
       case LeaveGroup(_) => 1)
    case Stopping(pending) => 1 + |pending|
    case Returned(_) => 0
  }

  function Remaining(calls: seq<Call>, n: nat): nat {
    if calls == [] then 0 else Remaining(calls[..|calls| - 1], n) + Rank(calls[|calls| - 1].pc, n)
  }

  lemma {:induction false} RemainingUpdate(calls: seq<Call>, t: nat, call: Call, n: nat)
    requires t < |calls|
    ensures Remaining(calls[t := call], n) == Remaining(calls, n) - Rank(calls[t].pc, n) + Rank(call.pc, n)
  {
    var last := |calls| - 1;
    if t == last {
      assert calls[t := call][..last] == calls[..last];
    } else {
      assert calls[t := call][..last] == calls[..last][t := call];
      RemainingUpdate(calls[..last], t, call, n);
    }
  }

  lemma ForRank(c: Config, t: Tid, sh: Shared, call: Call, choice: Choice, sh': Shared, pc': Pc, n: nat)
    requires Steps(c, t, sh, call, choice, sh', pc') && (call.pc.InFor?)
    ensures Rank(pc', n) < Rank(call.pc, n)
  {
  }

  lemma LoginRank(c: Config, t: Tid, sh: Shared, call: Call, choice: Choice, sh': Shared, pc': Pc, n: nat)
    requires Steps(c, t, sh, call, choice, sh', pc') && (call.pc.InLogin?)
    ensures Rank(pc', n) < Rank(call.pc, n)
  {
  }

  lemma CheckRank(c: Config, t: Tid, sh: Shared, call: Call, choice: Choice, sh': Shared, pc': Pc, n: nat)
    requires Steps(c, t, sh, call, choice, sh', pc') && (call.pc.InCheck? || call.pc.Stopping?)
    ensures Rank(pc', n) < Rank(call.pc, n)
  {
  }

  lemma EnterRank(c: Config, t: Tid, sh: Shared, call: Call, choice: Choice, sh': Shared, pc': Pc, n: nat)
    requires Steps(c, t, sh, call, choice, sh', pc') && (call.pc.Enter? && |sh.table.clients.Values| <= n)
    ensures Rank(pc', n) < Rank(call.pc, n)
  {
  }

  lemma {:induction false} StepRank(c: Config, t: Tid, sh: Shared, call: Call, choice: Choice, sh': Shared, pc': Pc,
                                    n: nat)
    requires Steps(c, t, sh, call, choice, sh', pc') && |sh.table.clients.Values| <= n
    ensures Rank(pc', n) < Rank(call.pc, n)
  {
    match call.pc {
      case Enter => EnterRank(c, t, sh, call, choice, sh', pc', n);
      case InFor(_) => ForRank(c, t, sh, call, choice, sh', pc', n);
      case InLogin(_, _, _) => LoginRank(c, t, sh, call, choice, sh', pc', n);
      case Returned(_) =>
      case _ => CheckRank(c, t, sh, call, choice, sh', pc', n);
    }
  }

  lemma {:induction false} StepDecreases(c: Config, s: State, s': State)
    requires Inv(c, s) && SystemStep(c, s, s')
    ensures Inv(c, s') && |s'.calls| == |s.calls|
    ensures Remaining(s'.calls, |s.calls|) < Remaining(s.calls, |s.calls|)
  {
    var t: Tid, choice :| CallStep(c, s, s', t, choice);
    StepInv(c, s, s', t, choice);
    IntervalSize(s.sh.table.clients.Values, 0, |s.calls|);
    StepRank(c, t, s.sh, s.calls[t], choice, s'.sh, s'.calls[t].pc, |s.calls|);
    RemainingUpdate(s.calls, t, s'.calls[t], |s.calls|);
  }

  // Consecutive steps of calls, with no arrivals in between.
  ghost predicate Busy(c: Config, steps: seq<State>) {
    |steps| > 0 && forall i :: 0 < i < |steps| ==> SystemStep(c, steps[i - 1], steps[i])
  }

  lemma {:induction false} BusyBound(c: Config, steps: seq<State>)
    requires Busy(c, steps) && Inv(c, steps[0])
    ensures |steps| - 1 <= Remaining(steps[0].calls, |steps[0].calls|)
    ensures Inv(c, steps[|steps| - 1])
  {
    if |steps| > 1 {
      BusyTail(c, steps);
      StepDecreases(c, steps[0], steps[1]);
      BusyBound(c, steps[1..]);
    }
  }

  lemma BusyTail(c: Config, steps: seq<State>)
    requires Busy(c, steps) && |steps| > 1
    ensures SystemStep(c, steps[0], steps[1]) && Busy(c, steps[1..])
  {
    assert SystemStep(c, steps[1 - 1], steps[1]);
    forall i | 0 < i < |steps[1..]| ensures SystemStep(c, steps[1..][i - 1], steps[1..][i]) {
      assert SystemStep(c, steps[i + 1 - 1], steps[i + 1]);
    }
  }

  // From every reachable state the calls that have begun take a bounded number of steps,
  // however these are interleaved and however the logins end; when none is left to take,
  // every call has returned.
  lemma CallsFinish(c: Config, run: seq<State>, i: nat, steps: seq<State>, last: State)
    requires IsRun(c, run) && i < |run| && Busy(c, steps) && steps[0] == run[i] && last == steps[|steps| - 1]
    ensures |steps| - 1 <= Remaining(run[i].calls, |run[i].calls|)
    ensures (forall s' :: !SystemStep(c, last, s')) ==> forall t :: 0 <= t < |last.calls| ==> last.calls[t].pc.Returned?
  {
    RunInv(c, run, i);
    BusyBound(c, steps);
    forall t | 0 <= t < |last.calls| && !last.calls[t].pc.Returned?
      ensures exists s' :: SystemStep(c, last, s')
    {
      var u := SomeoneSteps(c, last, t);
      EnabledSteps(c, last, u, AnyChoice(last.calls[u].pc));
    }
  }
}
