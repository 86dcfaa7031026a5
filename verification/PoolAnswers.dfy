// How old an answer of self_check can be when it is asked for. One that a call decides on itself
// was young when the call began; one that it takes over from a call it joins may not have been,
// and this says exactly when.
module PoolAnswers {
  import opened Wrappers
  import opened PoolProtocol
  import opened PoolInvariant
  import opened PoolSteps
  import opened PoolTheorems
  import opened PoolOutcomes

  // Decided on at time `since` or later, if marked cached at all.
  predicate Recent(a: Answer, since: int) {
    a.Checked? && a.cached ==> a.decidedAt >= since
  }

  // The answer with which a call is about to leave its account's self_check group.
  function HeldBy(pc: Pc): Option<Answer> {
    if pc.InCheck? && pc.check.LeaveGroup? then Some(pc.check.answer) else None
  }

  // Call l leaves, or has left, with answer a.
  predicate Keeps(g: Group, l: Tid, pc: Pc, a: Answer) {
    if l in g.out then g.out[l].answer == a else HeldBy(pc) == Some(a)
  }

  // Whatever call l leaves or has left with is recent.
  predicate Renews(g: Group, l: Tid, pc: Pc, since: int) {
    && (l in g.out ==> Recent(g.out[l].answer, since))
    && (HeldBy(pc).Some? ==> Recent(HeldBy(pc).value, since))
  }

  // What l hands on: the answer it held in an earlier state with clock `since`, if it held one
  // then, and otherwise a recent one.
  ghost predicate Supplies(s: State, l: Tid, since: int, held: Option<Answer>) {
    && since <= s.sh.clock
    && (held.Some? ==> l < |s.calls|)
    && (l >= |s.calls| ==> l !in s.sh.byCheck.out)
    && (l < |s.calls| ==>
          if held.Some? then Keeps(s.sh.byCheck, l, s.calls[l].pc, held.value)
          else Renews(s.sh.byCheck, l, s.calls[l].pc, since))
  }

  // Call t has joined l's execution.
  predicate Receives(s: State, t: Tid, l: Tid) {
    && t < |s.calls|
    && ((s.calls[t].pc.InCheck? && s.calls[t].pc.check == JoinGroup(l))
        || (l in s.sh.byCheck.out && s.calls[t].pc == Returned(s.sh.byCheck.out[l].answer)))
  }

  predicate LeftCheck(s: State, l: Tid) {
    l in s.sh.byCheck.out
  }

  // ---------------------------------------------------------------- one step

  lemma CheckGrows(c: Config, s: State, s': State, t: Tid, choice: Choice)
    requires Inv(c, s) && CallStep(c, s, s', t, choice)
    ensures OutGrows(s.sh.byCheck, s'.sh.byCheck, t, Leaving(s.calls[t].pc), s.sh.steps)
    ensures s'.sh.clock == s.sh.clock
  {
    var call, pc' := s.calls[t], s'.calls[t].pc;
    assert CallInv(c, s.sh, t, call);
    StepEffects(c, t, s.sh, call, choice, s'.sh, pc');
    GroupGrows(s.sh.byCheck, s'.sh.byCheck, t, CheckLed(call.pc), CheckLed(pc'), Leaving(call.pc), s.sh.steps);
  }

  // A call that has left does not step any more, and one that leaves leaves with what it held.
  lemma OwnKeeps(c: Config, sh: Shared, l: Tid, call: Call, choice: Choice, sh': Shared, pc': Pc, a: Answer)
    requires Steps(c, l, sh, call, choice, sh', pc') && (l in sh.byCheck.out ==> call.pc.Returned?)
    requires Keeps(sh.byCheck, l, call.pc, a)
    ensures Keeps(sh'.byCheck, l, pc', a)
  {
  }

  // Only where it checks does a call come to hold an answer of its account's group, or leave it.
  lemma HoldsNoneElsewhere(c: Config, sh: Shared, l: Tid, call: Call, choice: Choice, sh': Shared, pc': Pc)
    requires Steps(c, l, sh, call, choice, sh', pc') && !call.pc.InCheck?
    ensures sh'.byCheck == sh.byCheck && HeldBy(pc') == None
  {
  }

  lemma CheckRenews(c: Config, sh: Shared, l: Tid, call: Call, choice: Choice, sh': Shared, pc': Pc, since: int)
    requires Steps(c, l, sh, call, choice, sh', pc') && l !in sh.byCheck.out && call.pc.InCheck?
    requires Renews(sh.byCheck, l, call.pc, since) && since <= sh.clock
    ensures Renews(sh'.byCheck, l, pc', since)
  {
  }

  lemma OwnRenews(c: Config, sh: Shared, l: Tid, call: Call, choice: Choice, sh': Shared, pc': Pc, since: int)
    requires Steps(c, l, sh, call, choice, sh', pc') && (l in sh.byCheck.out ==> call.pc.Returned?)
    requires Renews(sh.byCheck, l, call.pc, since) && since <= sh.clock
    ensures Renews(sh'.byCheck, l, pc', since)
  {
    if call.pc.InCheck? {
      CheckRenews(c, sh, l, call, choice, sh', pc', since);
    } else {
      HoldsNoneElsewhere(c, sh, l, call, choice, sh', pc');
    }
  }

  lemma SupplyStep(c: Config, s: State, s': State, u: Tid, choice: Choice, l: Tid, since: int, held: Option<Answer>)
    requires Inv(c, s) && CallStep(c, s, s', u, choice) && Supplies(s, l, since, held)
    ensures Supplies(s', l, since, held)
  {
    CheckGrows(c, s, s', u, choice);
    if l == u {
      assert CallInv(c, s.sh, l, s.calls[l]);
      if held.Some? {
        OwnKeeps(c, s.sh, l, s.calls[l], choice, s'.sh, s'.calls[l].pc, held.value);
      } else {
        OwnRenews(c, s.sh, l, s.calls[l], choice, s'.sh, s'.calls[l].pc, since);
      }
    }
  }

  lemma SupplyNext(c: Config, s: State, s': State, l: Tid, since: int, held: Option<Answer>)
    requires Inv(c, s) && Next(c, s, s') && Supplies(s, l, since, held)
    ensures Supplies(s', l, since, held)
  {
    if u: Tid, choice :| CallStep(c, s, s', u, choice) {
      SupplyStep(c, s, s', u, choice, l, since, held);
    }
  }

  lemma ReceivesNext(c: Config, s: State, s': State, t: Tid, l: Tid)
    requires Inv(c, s) && Next(c, s, s') && Receives(s, t, l)
    ensures Receives(s', t, l)
  {
    if u: Tid, choice :| CallStep(c, s, s', u, choice) {
      CheckGrows(c, s, s', u, choice);
    }
  }

  lemma LeftCheckNext(c: Config, s: State, s': State, l: Tid)
    requires Inv(c, s) && Next(c, s, s') && LeftCheck(s, l)
    ensures LeftCheck(s', l)
  {
    if u: Tid, choice :| CallStep(c, s, s', u, choice) {
      CheckGrows(c, s, s', u, choice);
    }
  }

  // ---------------------------------------------------------------- along a run

  lemma SupplyAt(c: Config, run: seq<State>, j: nat, l: Tid, since: int, held: Option<Answer>)
    requires IsRun(c, run) && 0 < j < |run|
    ensures Supplies(run[j - 1], l, since, held) ==> Supplies(run[j], l, since, held)
  {
    var s, s' := StatesAt(c, run, j);
    if Supplies(s, l, since, held) {
      SupplyNext(c, s, s', l, since, held);
    }
  }

  lemma SupplyRun(c: Config, run: seq<State>, i: nat, j: nat, l: Tid, since: int, held: Option<Answer>)
    requires IsRun(c, run) && i <= j < |run| && Supplies(run[i], l, since, held)
    ensures Supplies(run[j], l, since, held)
  {
    var flags := seq(|run|, k requires 0 <= k < |run| => Supplies(run[k], l, since, held));
    forall k | 0 < k < |flags| ensures flags[k - 1] ==> flags[k] {
      SupplyAt(c, run, k, l, since, held);
    }
    Carries(flags, i, j);
  }

  lemma ReceivesAt(c: Config, run: seq<State>, j: nat, t: Tid, l: Tid)
    requires IsRun(c, run) && 0 < j < |run|
    ensures Receives(run[j - 1], t, l) ==> Receives(run[j], t, l)
  {
    var s, s' := StatesAt(c, run, j);
    if Receives(s, t, l) {
      ReceivesNext(c, s, s', t, l);
    }
  }

  lemma ReceivesRun(c: Config, run: seq<State>, i: nat, j: nat, t: Tid, l: Tid)
    requires IsRun(c, run) && i <= j < |run| && Receives(run[i], t, l)
    ensures Receives(run[j], t, l)
  {
    var flags := seq(|run|, k requires 0 <= k < |run| => Receives(run[k], t, l));
    forall k | 0 < k < |flags| ensures flags[k - 1] ==> flags[k] {
      ReceivesAt(c, run, k, t, l);
    }
    Carries(flags, i, j);
  }

  lemma LeftCheckAt(c: Config, run: seq<State>, j: nat, l: Tid)
    requires IsRun(c, run) && 0 < j < |run|
    ensures LeftCheck(run[j - 1], l) ==> LeftCheck(run[j], l)
  {
    var s, s' := StatesAt(c, run, j);
    if LeftCheck(s, l) {
      LeftCheckNext(c, s, s', l);
    }
  }

  lemma LeftCheckRun(c: Config, run: seq<State>, i: nat, j: nat, l: Tid)
    requires IsRun(c, run) && i <= j < |run| && LeftCheck(run[i], l)
    ensures LeftCheck(run[j], l)
  {
    var flags := seq(|run|, k requires 0 <= k < |run| => LeftCheck(run[k], l));
    forall k | 0 < k < |flags| ensures flags[k - 1] ==> flags[k] {
      LeftCheckAt(c, run, k, l);
    }
    Carries(flags, i, j);
  }

  // ---------------------------------------------------------------- the two cases

  function HeldIn(s: State, l: Tid): Option<Answer> {
    if l < |s.calls| then HeldBy(s.calls[l].pc) else None
  }

  // In state s call l is about to leave with a cached answer that is an interval old or older.
  predicate HoldsOld(s: State, l: Tid) {
    && HeldIn(s, l).Some? && HeldIn(s, l).value.Checked? && HeldIn(s, l).value.cached
    && s.sh.clock - HeldIn(s, l).value.at >= SELF_CHECK_MIN_INTERVAL
  }

  lemma SupplyFrom(c: Config, run: seq<State>, b: nat, j: nat, l: Tid)
    requires IsRun(c, run) && b <= j < |run| && l !in run[b].sh.byCheck.out
    ensures Inv(c, run[j]) && Supplies(run[j], l, run[b].sh.clock, HeldIn(run[b], l))
  {
    RunInv(c, run, j);
    SupplyRun(c, run, b, j, l, run[b].sh.clock, HeldIn(run[b], l));
  }

  lemma NotLeftYet(c: Config, s: State, s': State, t: Tid, choice: Choice, l: Tid)
    requires Inv(c, s) && CallStep(c, s, s', t, choice)
    requires s.calls[t].pc.InCheck? && s.calls[t].pc.check.EnterGroup?
    requires s'.calls[t].pc.InCheck? && s'.calls[t].pc.check == JoinGroup(l)
    ensures l !in s.sh.byCheck.out && Receives(s', t, l)
  {
    assert s.sh.byCheck.leader[s.calls[t].pc.key] == l;
  }

  lemma NotLeftAt(c: Config, run: seq<State>, b: nat, i: nat, t: Tid, choice: Choice, l: Tid)
    requires IsRun(c, run) && b < i && i + 1 < |run| && t < |run[i].calls|
    requires CallStep(c, run[i], run[i + 1], t, choice)
    requires run[i].calls[t].pc.InCheck? && run[i].calls[t].pc.check.EnterGroup?
    requires run[i + 1].calls[t].pc.InCheck? && run[i + 1].calls[t].pc.check == JoinGroup(l)
    ensures l !in run[b].sh.byCheck.out && Receives(run[i + 1], t, l)
  {
    RunInv(c, run, i);
    NotLeftYet(c, run[i], run[i + 1], t, choice, l);
    if LeftCheck(run[b], l) {
      LeftCheckRun(c, run, b, i, l);
    }
  }

  // What a joiner has been handed is what l held, or recent.
  lemma Handover(s: State, t: Tid, l: Tid, since: int, held: Option<Answer>, a: Answer)
    requires Receives(s, t, l) && Supplies(s, l, since, held) && s.calls[t].pc == Returned(a)
    ensures if held.Some? then a == held.value else Recent(a, since)
  {
  }

  // A call t begins in state b, joins l's execution in state i, and has returned a cached answer
  // by state j. The answer was younger than the interval when t began exactly if l was not then
  // already about to leave with a cached answer that was older.
  lemma JoinedAnswerWasYoungExactly(c: Config, run: seq<State>, b: nat, i: nat, j: nat, t: Tid, choice: Choice, l: Tid,
                                    a: Answer)
    requires IsRun(c, run) && b < i < j < |run|
    requires |run[b].calls| == t < |run[b + 1].calls| && t < |run[i].calls| && t < |run[j].calls|
    requires CallStep(c, run[i], run[i + 1], t, choice)
    requires run[i].calls[t].pc.InCheck? && run[i].calls[t].pc.check.EnterGroup?
    requires run[i + 1].calls[t].pc.InCheck? && run[i + 1].calls[t].pc.check == JoinGroup(l)
    requires run[j].calls[t].pc == Returned(a) && a.Checked? && a.cached
    ensures run[b].sh.clock - a.at < SELF_CHECK_MIN_INTERVAL <==> !HoldsOld(run[b], l)
  {
    NotLeftAt(c, run, b, i, t, choice, l);
    ReceivesRun(c, run, i + 1, j, t, l);
    SupplyFrom(c, run, b, j, l);
    Handover(run[j], t, l, run[b].sh.clock, HeldIn(run[b], l), a);
    assert CallInv(c, run[j].sh, t, run[j].calls[t]);
  }

  lemma NobodyLeftEarly(c: Config, run: seq<State>, b: nat)
    requires IsRun(c, run) && b < |run|
    ensures |run[b].calls| !in run[b].sh.byCheck.out
  {
    RunInv(c, run, b);
  }

  // A call that decides on a cached answer itself: it was younger than the interval when the call
  // began, always.
  lemma OwnAnswerWasYoung(c: Config, run: seq<State>, b: nat, j: nat, t: Tid, a: Answer)
    requires IsRun(c, run) && b < j < |run| && |run[b].calls| == t < |run[j].calls|
    requires HeldBy(run[j].calls[t].pc) == Some(a) && a.Checked? && a.cached
    ensures a.decidedAt >= run[b].sh.clock && run[b].sh.clock - a.at < SELF_CHECK_MIN_INTERVAL
  {
    NobodyLeftEarly(c, run, b);
    SupplyFrom(c, run, b, j, t);
    assert CallInv(c, run[j].sh, t, run[j].calls[t]);
  }
}
