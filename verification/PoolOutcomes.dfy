// Which login a failed For owes its failure to. The execution for its account that a call
// waits for is never stale; an execution for its subject can hand on a failure that is.
module PoolOutcomes {
  import opened Wrappers
  import opened PoolProtocol
  import opened PoolInvariant
  import opened PoolSteps
  import opened PoolTheorems

  // The failed execution for an account, and that it left its group at step n or later.
  predicate FailedSince(g: Group, origin: Tid, n: nat) {
    origin in g.out && g.out[origin].answer == LoginFailed(origin) && g.out[origin].at >= n
  }

  predicate FailedBefore(g: Group, origin: Tid, n: nat) {
    origin in g.out && g.out[origin].answer == LoginFailed(origin) && g.out[origin].at < n
  }

  // What a group and a call hold comes from an execution that failed itself.
  ghost predicate AccountFailures(g: Group) {
    forall l :: l in g.out && g.out[l].answer.LoginFailed? ==> g.out[l].answer.origin == l
  }

  ghost predicate CallFailure(byAccount: Group, t: Tid, call: Call) {
    && (call.pc.InFor? && call.pc.stage.LeaveAccount? && call.pc.stage.answer.LoginFailed? ==>
        call.pc.stage.answer.origin == t)
    && (call.pc.InFor? && call.pc.stage.LeaveSubject? && call.pc.stage.answer.LoginFailed? ==>
          FailedSince(byAccount, call.pc.stage.answer.origin, call.started))
  }

  // Every outcome was left in an earlier step.
  ghost predicate PastOut(g: Group, steps: nat) {
    forall l :: l in g.out ==> g.out[l].at < steps
  }

  ghost predicate Failures(s: State) {
    && AccountFailures(s.sh.byAccount)
    && PastOut(s.sh.byAccount, s.sh.steps)
    && forall t :: 0 <= t < |s.calls| ==> CallFailure(s.sh.byAccount, t, s.calls[t])
  }

  // ---------------------------------------------------------------- steps keep it

  // Outcomes stay, and what is added is what the stepping call leaves with, now.
  ghost predicate OutGrows(g: Group, g': Group, t: Tid, answer: Option<Answer>, now: nat) {
    && (forall l :: l in g.out ==> l in g'.out && g'.out[l] == g.out[l])
    && (forall l :: l in g'.out && l !in g.out ==> l == t && answer == Some(g'.out[l].answer) && g'.out[l].at == now)
  }

  lemma GroupGrows(g: Group, g': Group, t: Tid, before: Option<string>, after: Option<string>, answer: Option<Answer>,
                   now: nat)
    requires GroupEffect(g, g', t, before, after, answer, now) && (before.Some? ==> t !in g.out)
    ensures OutGrows(g, g', t, answer, now)
  {
  }

  lemma {:induction false} AccountGrows(c: Config, s: State, s': State, t: Tid, choice: Choice)
    requires Inv(c, s) && CallStep(c, s, s', t, choice)
    ensures OutGrows(s.sh.byAccount, s'.sh.byAccount, t, Leaving(s.calls[t].pc), s.sh.steps)
    ensures OutGrows(s.sh.bySubject, s'.sh.bySubject, t, Leaving(s.calls[t].pc), s.sh.steps)
    ensures s'.sh.steps == s.sh.steps + 1
  {
    var call, pc' := s.calls[t], s'.calls[t].pc;
    assert CallInv(c, s.sh, t, call);
    StepEffects(c, t, s.sh, call, choice, s'.sh, pc');
    GroupGrows(s.sh.byAccount, s'.sh.byAccount, t, AccountLed(call.pc), AccountLed(pc'), Leaving(call.pc), s.sh.steps);
    GroupGrows(s.sh.bySubject, s'.sh.bySubject, t, SubjectLed(call), SubjectLed(call.(pc := pc')), Leaving(call.pc),
               s.sh.steps);
  }

  lemma OwnFailure(c: Config, sh: Shared, t: Tid, call: Call, choice: Choice, sh': Shared, pc': Pc)
    requires Steps(c, t, sh, call, choice, sh', pc') && Kind(call) && ForInv(c, sh, call)
    requires CallFailure(sh.byAccount, t, call) && AccountFailures(sh.byAccount) && GroupInv(sh.byAccount)
    requires call.started <= sh.steps
    ensures CallFailure(sh'.byAccount, t, call.(pc := pc'))
  {
  }

  lemma OthersFailure(g: Group, g': Group, t: Tid, answer: Option<Answer>, now: nat, u: Tid, call: Call)
    requires OutGrows(g, g', t, answer, now) && CallFailure(g, u, call)
    ensures CallFailure(g', u, call)
  {
  }

  lemma LeavesAccount(c: Config, sh: Shared, t: Tid, call: Call, choice: Choice, sh': Shared, pc': Pc)
    requires Steps(c, t, sh, call, choice, sh', pc') && t in sh'.byAccount.out && t !in sh.byAccount.out
    ensures call.pc.InFor? && call.pc.stage.LeaveAccount?
  {
  }

  lemma GroupFailures(g: Group, g': Group, t: Tid, call: Call, now: nat)
    requires OutGrows(g, g', t, Leaving(call.pc), now) && CallFailure(g, t, call)
    requires t in g'.out && t !in g.out ==> call.pc.InFor? && call.pc.stage.LeaveAccount?
    requires AccountFailures(g) && PastOut(g, now)
    ensures AccountFailures(g') && PastOut(g', now + 1)
  {
  }

  lemma {:induction false} StepFailures(c: Config, s: State, s': State, t: Tid, choice: Choice)
    requires Inv(c, s) && Failures(s) && CallStep(c, s, s', t, choice)
    ensures Failures(s')
  {
    assert CallInv(c, s.sh, t, s.calls[t]);
    AccountGrows(c, s, s', t, choice);
    if t in s'.sh.byAccount.out && t !in s.sh.byAccount.out {
      LeavesAccount(c, s.sh, t, s.calls[t], choice, s'.sh, s'.calls[t].pc);
    }
    GroupFailures(s.sh.byAccount, s'.sh.byAccount, t, s.calls[t], s.sh.steps);
    OwnFailure(c, s.sh, t, s.calls[t], choice, s'.sh, s'.calls[t].pc);
    forall u | 0 <= u < |s'.calls| ensures CallFailure(s'.sh.byAccount, u, s'.calls[u]) {
      if u != t {
        OthersFailure(s.sh.byAccount, s'.sh.byAccount, t, Leaving(s.calls[t].pc), s.sh.steps, u, s.calls[u]);
      }
    }
  }

  lemma {:induction false} NextFailures(c: Config, s: State, s': State)
    requires Inv(c, s) && Failures(s) && Next(c, s, s')
    ensures Failures(s')
  {
    if t: Tid, choice :| CallStep(c, s, s', t, choice) {
      StepFailures(c, s, s', t, choice);
    }
  }

  lemma {:induction false} RunFailures(c: Config, run: seq<State>, i: nat)
    requires IsRun(c, run) && i < |run|
    ensures Inv(c, run[i]) && Failures(run[i])
  {
    RunInv(c, run, i);
    if i > 0 {
      RunFailures(c, run, i - 1);
      assert Next(c, run[i - 1], run[i - 1 + 1]);
      NextFailures(c, run[i - 1], run[i]);
    }
  }

  // The call that executes for its subject returns no failure of a login execution that had
  // left its group before that call began.
  lemma LeadersFailuresAreFresh(c: Config, run: seq<State>, i: nat, t: Tid, origin: Tid)
    requires IsRun(c, run) && i < |run| && t < |run[i].calls|
    requires run[i].calls[t].pc == InFor(LeaveSubject(LoginFailed(origin)))
    ensures FailedSince(run[i].sh.byAccount, origin, run[i].calls[t].started)
  {
    RunFailures(c, run, i);
    assert CallFailure(run[i].sh.byAccount, t, run[i].calls[t]);
  }

  // ---------------------------------------------------------------- joiners of a subject's execution

  // Call l, executing for its subject, already depends on a finished execution for its account.
  predicate Decided(sh: Shared, pc: Pc) {
    pc.InFor? && ((pc.stage.JoinAccount? && pc.stage.leader in sh.byAccount.out) || pc.stage.LeaveSubject?)
  }

  // What l hands on, or will, was or was not decided before step n.
  predicate Late(sh: Shared, l: Tid, pc: Pc, n: nat) {
    LateJoin(sh.byAccount, pc, n) && LateLeave(sh.byAccount, pc, n) && LateOut(sh, l, n)
  }

  predicate LateJoin(g: Group, pc: Pc, n: nat) {
    pc.InFor? && pc.stage.JoinAccount? && pc.stage.leader in g.out ==> g.out[pc.stage.leader].at >= n
  }

  predicate LateLeave(g: Group, pc: Pc, n: nat) {
    pc.InFor? && pc.stage.LeaveSubject? && pc.stage.answer.LoginFailed? ==> FailedSince(g, pc.stage.answer.origin, n)
  }

  predicate LateOut(sh: Shared, l: Tid, n: nat) {
    l in sh.bySubject.out && sh.bySubject.out[l].answer.LoginFailed? ==>
      FailedSince(sh.byAccount, sh.bySubject.out[l].answer.origin, n)
  }

  predicate Early(sh: Shared, l: Tid, pc: Pc, n: nat) {
    if l in sh.bySubject.out then
      sh.bySubject.out[l].answer.LoginFailed? ==> FailedBefore(sh.byAccount, sh.bySubject.out[l].answer.origin, n)
    else
      && Decided(sh, pc)
      && (pc.stage.JoinAccount? ==> sh.byAccount.out[pc.stage.leader].at < n)
      && (pc.stage.LeaveSubject? && pc.stage.answer.LoginFailed? ==>
          FailedBefore(sh.byAccount, pc.stage.answer.origin, n))
  }

  predicate Handed(sh: Shared, l: Tid, pc: Pc) {
    || pc == InFor(JoinSubject(l))
    || (l in sh.bySubject.out && pc == Returned(sh.bySubject.out[l].answer))
  }

  lemma OwnLateJoin(c: Config, sh: Shared, l: Tid, call: Call, choice: Choice, sh': Shared, pc': Pc, n: nat)
    requires Steps(c, l, sh, call, choice, sh', pc') && GroupInv(sh.byAccount)
    ensures LateJoin(sh'.byAccount, pc', n)
  {
  }

  lemma OwnLateLeave(c: Config, sh: Shared, l: Tid, call: Call, choice: Choice, sh': Shared, pc': Pc, n: nat)
    requires Steps(c, l, sh, call, choice, sh', pc') && CallFailure(sh.byAccount, l, call)
    requires AccountFailures(sh.byAccount) && n <= sh.steps && LateJoin(sh.byAccount, call.pc, n)
    ensures LateLeave(sh'.byAccount, pc', n)
  {
  }

  lemma LeavesSubject(c: Config, sh: Shared, l: Tid, call: Call, choice: Choice, sh': Shared, pc': Pc)
    requires Steps(c, l, sh, call, choice, sh', pc') && l in sh'.bySubject.out && l !in sh.bySubject.out
    ensures call.pc.InFor? && call.pc.stage.LeaveSubject?
  {
  }

  lemma OwnLateOut(sh: Shared, l: Tid, pc: Pc, sh': Shared, n: nat)
    requires OutGrows(sh.byAccount, sh'.byAccount, l, Leaving(pc), sh.steps)
    requires OutGrows(sh.bySubject, sh'.bySubject, l, Leaving(pc), sh.steps)
    requires l in sh'.bySubject.out && l !in sh.bySubject.out ==> pc.InFor? && pc.stage.LeaveSubject?
    requires LateLeave(sh.byAccount, pc, n) && LateOut(sh, l, n)
    ensures LateOut(sh', l, n)
  {
  }

  lemma OwnLate(c: Config, sh: Shared, l: Tid, call: Call, choice: Choice, sh': Shared, pc': Pc, n: nat)
    requires Steps(c, l, sh, call, choice, sh', pc') && CallFailure(sh.byAccount, l, call)
    requires AccountFailures(sh.byAccount) && GroupInv(sh.byAccount) && n <= sh.steps
    requires OutGrows(sh.byAccount, sh'.byAccount, l, Leaving(call.pc), sh.steps)
    requires OutGrows(sh.bySubject, sh'.bySubject, l, Leaving(call.pc), sh.steps)
    requires Late(sh, l, call.pc, n)
    ensures Late(sh', l, pc', n)
  {
    OwnLateJoin(c, sh, l, call, choice, sh', pc', n);
    OwnLateLeave(c, sh, l, call, choice, sh', pc', n);
    if l in sh'.bySubject.out && l !in sh.bySubject.out {
      LeavesSubject(c, sh, l, call, choice, sh', pc');
    }
    OwnLateOut(sh, l, call.pc, sh', n);
  }

  lemma OwnEarly(c: Config, sh: Shared, l: Tid, call: Call, choice: Choice, sh': Shared, pc': Pc, n: nat)
    requires Steps(c, l, sh, call, choice, sh', pc') && Kind(call) && AccountFailures(sh.byAccount)
    requires OutGrows(sh.byAccount, sh'.byAccount, l, Leaving(call.pc), sh.steps)
    requires (l in sh.bySubject.out ==> call.pc.Returned?) && Early(sh, l, call.pc, n)
    ensures Early(sh', l, pc', n)
  {
  }

  lemma OthersKeep(sh: Shared, sh': Shared, t: Tid, answer: Option<Answer>, now: nat, l: Tid, pc: Pc, n: nat)
    requires OutGrows(sh.byAccount, sh'.byAccount, t, answer, now)
    requires OutGrows(sh.bySubject, sh'.bySubject, t, answer, now)
    requires t != l && n <= now
    ensures Late(sh, l, pc, n) ==> Late(sh', l, pc, n)
    ensures Early(sh, l, pc, n) ==> Early(sh', l, pc, n)
  {
  }

  // What l hands on was, or was not, decided before step n. Before l begins, nothing was.
  ghost predicate Sourced(s: State, l: Tid, n: nat, early: bool) {
    && n <= s.sh.steps
    && (early ==> l < |s.calls|)
    && (l >= |s.calls| ==> l !in s.sh.bySubject.out)
    && (l < |s.calls| ==> if early then Early(s.sh, l, s.calls[l].pc, n) else Late(s.sh, l, s.calls[l].pc, n))
  }

  // Call t, begun at step n, has joined l's execution.
  predicate HandedTo(s: State, t: Tid, l: Tid, n: nat) {
    t < |s.calls| && s.calls[t].started == n && Handed(s.sh, l, s.calls[t].pc)
  }

  predicate HasLeft(s: State, l: Tid) {
    l in s.sh.bySubject.out
  }

  predicate Began(s: State, t: Tid, n: nat) {
    t < |s.calls| && s.calls[t].started == n
  }

  lemma SourceStep(c: Config, s: State, s': State, u: Tid, choice: Choice, l: Tid, n: nat, early: bool)
    requires Inv(c, s) && Failures(s) && CallStep(c, s, s', u, choice) && Sourced(s, l, n, early)
    ensures Sourced(s', l, n, early)
  {
    AccountGrows(c, s, s', u, choice);
    if l >= |s.calls| {
    } else if u != l {
      OthersKeep(s.sh, s'.sh, u, Leaving(s.calls[u].pc), s.sh.steps, l, s.calls[l].pc, n);
    } else {
      assert CallInv(c, s.sh, l, s.calls[l]) && CallFailure(s.sh.byAccount, l, s.calls[l]);
      if early {
        OwnEarly(c, s.sh, l, s.calls[l], choice, s'.sh, s'.calls[l].pc, n);
      } else {
        OwnLate(c, s.sh, l, s.calls[l], choice, s'.sh, s'.calls[l].pc, n);
      }
    }
  }

  lemma SourceNext(c: Config, s: State, s': State, l: Tid, n: nat, early: bool)
    requires Inv(c, s) && Failures(s) && Next(c, s, s') && Sourced(s, l, n, early)
    ensures Sourced(s', l, n, early)
  {
    if u: Tid, choice :| CallStep(c, s, s', u, choice) {
      SourceStep(c, s, s', u, choice, l, n, early);
    }
  }

  lemma HandedNext(c: Config, s: State, s': State, t: Tid, l: Tid, n: nat)
    requires Inv(c, s) && Next(c, s, s') && HandedTo(s, t, l, n)
    ensures HandedTo(s', t, l, n)
  {
    if u: Tid, choice :| CallStep(c, s, s', u, choice) {
      AccountGrows(c, s, s', u, choice);
    }
  }

  lemma BeganNext(c: Config, s: State, s': State, t: Tid, n: nat)
    requires Next(c, s, s') && Began(s, t, n)
    ensures Began(s', t, n)
  {
  }

  lemma LeftNext(c: Config, s: State, s': State, l: Tid)
    requires Inv(c, s) && Next(c, s, s') && HasLeft(s, l)
    ensures HasLeft(s', l)
  {
    if u: Tid, choice :| CallStep(c, s, s', u, choice) {
      AccountGrows(c, s, s', u, choice);
    }
  }

  lemma StatesAt(c: Config, run: seq<State>, j: nat) returns (s: State, s': State)
    requires IsRun(c, run) && 0 < j < |run|
    ensures s == run[j - 1] && s' == run[j] && Inv(c, s) && Failures(s) && Next(c, s, s')
  {
    RunFailures(c, run, j - 1);
    assert Next(c, run[j - 1], run[j - 1 + 1]);
    s, s' := run[j - 1], run[j];
  }

  // ---------------------------------------------------------------- along a run

  lemma {:induction false} Carries(flags: seq<bool>, i: nat, j: nat)
    requires i <= j < |flags| && flags[i]
    requires forall k :: 0 < k < |flags| ==> flags[k - 1] ==> flags[k]
    ensures flags[j]
  {
    if i < j {
      Carries(flags, i, j - 1);
    }
  }

  lemma SourceAt(c: Config, run: seq<State>, j: nat, l: Tid, n: nat, early: bool)
    requires IsRun(c, run) && 0 < j < |run|
    ensures Sourced(run[j - 1], l, n, early) ==> Sourced(run[j], l, n, early)
  {
    var s, s' := StatesAt(c, run, j);
    if Sourced(s, l, n, early) {
      SourceNext(c, s, s', l, n, early);
    }
  }

  lemma SourceRun(c: Config, run: seq<State>, i: nat, j: nat, l: Tid, n: nat, early: bool)
    requires IsRun(c, run) && i <= j < |run| && Sourced(run[i], l, n, early)
    ensures Sourced(run[j], l, n, early)
  {
    var flags := seq(|run|, k requires 0 <= k < |run| => Sourced(run[k], l, n, early));
    forall k | 0 < k < |flags| ensures flags[k - 1] ==> flags[k] {
      SourceAt(c, run, k, l, n, early);
    }
    Carries(flags, i, j);
  }

  lemma HandedAt(c: Config, run: seq<State>, j: nat, t: Tid, l: Tid, n: nat)
    requires IsRun(c, run) && 0 < j < |run|
    ensures HandedTo(run[j - 1], t, l, n) ==> HandedTo(run[j], t, l, n)
  {
    var s, s' := StatesAt(c, run, j);
    if HandedTo(s, t, l, n) {
      HandedNext(c, s, s', t, l, n);
    }
  }

  lemma HandedRun(c: Config, run: seq<State>, i: nat, j: nat, t: Tid, l: Tid, n: nat)
    requires IsRun(c, run) && i <= j < |run| && HandedTo(run[i], t, l, n)
    ensures HandedTo(run[j], t, l, n)
  {
    var flags := seq(|run|, k requires 0 <= k < |run| => HandedTo(run[k], t, l, n));
    forall k | 0 < k < |flags| ensures flags[k - 1] ==> flags[k] {
      HandedAt(c, run, k, t, l, n);
    }
    Carries(flags, i, j);
  }

  lemma BeganAt(c: Config, run: seq<State>, j: nat, t: Tid, n: nat)
    requires IsRun(c, run) && 0 < j < |run|
    ensures Began(run[j - 1], t, n) ==> Began(run[j], t, n)
  {
    var s, s' := StatesAt(c, run, j);
    if Began(s, t, n) {
      BeganNext(c, s, s', t, n);
    }
  }

  lemma BeganRun(c: Config, run: seq<State>, i: nat, j: nat, t: Tid, n: nat)
    requires IsRun(c, run) && i <= j < |run| && Began(run[i], t, n)
    ensures Began(run[j], t, n)
  {
    var flags := seq(|run|, k requires 0 <= k < |run| => Began(run[k], t, n));
    forall k | 0 < k < |flags| ensures flags[k - 1] ==> flags[k] {
      BeganAt(c, run, k, t, n);
    }
    Carries(flags, i, j);
  }

  lemma LeftAt(c: Config, run: seq<State>, j: nat, l: Tid)
    requires IsRun(c, run) && 0 < j < |run|
    ensures HasLeft(run[j - 1], l) ==> HasLeft(run[j], l)
  {
    var s, s' := StatesAt(c, run, j);
    if HasLeft(s, l) {
      LeftNext(c, s, s', l);
    }
  }

  lemma LeftRun(c: Config, run: seq<State>, i: nat, j: nat, l: Tid)
    requires IsRun(c, run) && i <= j < |run| && HasLeft(run[i], l)
    ensures HasLeft(run[j], l)
  {
    var flags := seq(|run|, k requires 0 <= k < |run| => HasLeft(run[k], l));
    forall k | 0 < k < |flags| ensures flags[k - 1] ==> flags[k] {
      LeftAt(c, run, k, l);
    }
    Carries(flags, i, j);
  }

  // ---------------------------------------------------------------- the joiner

  // Call l exists and already depends on a finished execution for its account.
  predicate DecidedIn(s: State, l: Tid) {
    l < |s.calls| && Decided(s.sh, s.calls[l].pc)
  }

  lemma SourceStarts(s: State, l: Tid)
    requires Failures(s) && l !in s.sh.bySubject.out
    ensures Sourced(s, l, s.sh.steps, DecidedIn(s, l))
  {
    if l < |s.calls| {
      assert CallFailure(s.sh.byAccount, l, s.calls[l]);
    }
  }

  // Where a call joins, the joined call has not left.
  lemma Joins(c: Config, s: State, s': State, t: Tid, choice: Choice, l: Tid)
    requires Inv(c, s) && CallStep(c, s, s', t, choice)
    requires s.calls[t].pc.Enter? && s'.calls[t].pc == InFor(JoinSubject(l))
    ensures l !in s.sh.bySubject.out && HandedTo(s', t, l, s.calls[t].started)
  {
    assert s.calls[t].request.For? && s.sh.bySubject.leader[s.calls[t].request.subject] == l;
  }

  lemma Concludes(s: State, t: Tid, l: Tid, n: nat, early: bool, origin: Tid)
    requires Named(s.sh, |s.calls|) && Sourced(s, l, n, early) && HandedTo(s, t, l, n)
    requires s.calls[t].pc == Returned(LoginFailed(origin))
    ensures origin in s.sh.byAccount.out && (s.sh.byAccount.out[origin].at >= n <==> !early)
  {
    assert l in s.sh.bySubject.out;
  }

  lemma Begins(c: Config, s: State, s': State, t: Tid)
    requires Next(c, s, s') && |s.calls| == t < |s'.calls|
    ensures Began(s', t, s.sh.steps)
  {
  }

  lemma BeginsNext(c: Config, run: seq<State>, b: nat, t: Tid)
    requires IsRun(c, run) && b + 1 < |run| && |run[b].calls| == t < |run[b + 1].calls|
    ensures Began(run[b + 1], t, run[b].sh.steps)
  {
    var s, s' := StatesAt(c, run, b + 1);
    Begins(c, s, s', t);
  }

  lemma BeginsAt(c: Config, run: seq<State>, b: nat, i: nat, t: Tid)
    requires IsRun(c, run) && b < i < |run| && |run[b].calls| == t < |run[b + 1].calls|
    ensures Began(run[i], t, run[b].sh.steps)
  {
    BeginsNext(c, run, b, t);
    BeganRun(c, run, b + 1, i, t, run[b].sh.steps);
  }

  lemma JoinsAt(c: Config, run: seq<State>, b: nat, i: nat, t: Tid, choice: Choice, l: Tid)
    requires IsRun(c, run) && b < i && i + 1 < |run| && t < |run[i].calls|
    requires CallStep(c, run[i], run[i + 1], t, choice)
    requires run[i].calls[t].pc.Enter? && run[i + 1].calls[t].pc == InFor(JoinSubject(l))
    ensures l !in run[b].sh.bySubject.out && HandedTo(run[i + 1], t, l, run[i].calls[t].started)
  {
    RunInv(c, run, i);
    Joins(c, run[i], run[i + 1], t, choice, l);
    if HasLeft(run[b], l) {
      LeftRun(c, run, b, i, l);
    }
  }

  lemma SourceFrom(c: Config, run: seq<State>, b: nat, j: nat, l: Tid)
    requires IsRun(c, run) && b <= j < |run| && l !in run[b].sh.bySubject.out
    ensures Named(run[j].sh, |run[j].calls|)
    ensures Sourced(run[j], l, run[b].sh.steps, DecidedIn(run[b], l))
  {
    RunFailures(c, run, b);
    RunInv(c, run, j);
    SourceStarts(run[b], l);
    SourceRun(c, run, b, j, l, run[b].sh.steps, DecidedIn(run[b], l));
  }

  // A call t begins in state b, joins l's execution for its subject in state i, and has been
  // handed a failure by state j. The login execution that failed was still running when t began,
  // or began later, exactly if in state b the joined call was not yet there or did not yet depend
  // on a finished execution.
  lemma JoinedFailureIsFreshExactly(c: Config, run: seq<State>, b: nat, i: nat, j: nat, t: Tid, choice: Choice,
                                    l: Tid, origin: Tid)
    requires IsRun(c, run) && b < i < j < |run|
    requires |run[b].calls| == t < |run[b + 1].calls| && t < |run[i].calls| && t < |run[j].calls|
    requires CallStep(c, run[i], run[i + 1], t, choice)
    requires run[i].calls[t].pc.Enter? && run[i + 1].calls[t].pc == InFor(JoinSubject(l))
    requires run[j].calls[t].pc == Returned(LoginFailed(origin))
    ensures origin in run[j].sh.byAccount.out && run[j].calls[t].started == run[b].sh.steps
    ensures run[j].sh.byAccount.out[origin].at >= run[j].calls[t].started <==> !DecidedIn(run[b], l)
  {
    var n := run[b].sh.steps;
    BeginsAt(c, run, b, i, t);
    JoinsAt(c, run, b, i, t, choice, l);
    HandedRun(c, run, i + 1, j, t, l, n);
    SourceFrom(c, run, b, j, l);
    Concludes(run[j], t, l, n, DecidedIn(run[b], l), origin);
  }
}
