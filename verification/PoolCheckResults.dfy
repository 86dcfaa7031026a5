// The outcome that self_check reports and caches is the one with which the probe it names ended:
// every recorded start belongs to one login, so that an account and a start fix the outcome.
module PoolCheckResults {
  import opened Wrappers
  import opened PoolProtocol
  import opened PoolInvariant
  import opened PoolSteps
  import opened PoolTheorems
  import opened PoolProbes
  import opened PoolResults

  // Attempt a is that of a self_check probe of account k which started at `at`.
  predicate ProbeAt(a: Attempt, k: Key, at: int) {
    a.key == k && a.mode == SelfProbe(at)
  }

  ghost predicate Recorded(attempts: map<Tid, Attempt>, self: SelfChecks) {
    forall o :: o in attempts && attempts[o].mode.SelfProbe? ==>
                  attempts[o].mode.at in Probes(self, attempts[o].key)
  }

  ghost predicate Distinct(attempts: map<Tid, Attempt>) {
    forall o, o', k, at ::
      o in attempts && o' in attempts && ProbeAt(attempts[o], k, at) && ProbeAt(attempts[o'], k, at) ==> o == o'
  }

  // No login of account k's probe that started at `at` has ended yet.
  ghost predicate Unended(attempts: map<Tid, Attempt>, k: Key, at: int) {
    forall o :: o in attempts ==> !ProbeAt(attempts[o], k, at)
  }

  // A probe whose login has not ended.
  predicate Open(pc: Pc) {
    pc.InLogin? && pc.mode.SelfProbe? &&
    (pc.login.GetLock? || pc.login.AwaitLock? || pc.login.Connect? || pc.login.LoggingIn?)
  }

  ghost predicate OpenUnended(attempts: map<Tid, Attempt>, pc: Pc) {
    Open(pc) ==> Unended(attempts, pc.key, pc.mode.at)
  }

  ghost predicate ProbeLogins(s: State) {
    && Recorded(s.sh.attempts, s.sh.self)
    && Distinct(s.sh.attempts)
    && forall t :: 0 <= t < |s.calls| ==> OpenUnended(s.sh.attempts, s.calls[t].pc)
  }

  // ---------------------------------------------------------------- one step

  lemma StepOpen(c: Config, sh: Shared, t: Tid, call: Call, choice: Choice, sh': Shared, pc': Pc)
    requires Steps(c, t, sh, call, choice, sh', pc') && Open(pc')
    ensures Open(call.pc) ==> pc'.key == call.pc.key && pc'.mode == call.pc.mode && sh'.attempts == sh.attempts
    ensures !Open(call.pc) ==>
              && call.pc.InCheck? && call.pc.check.Decide? && pc' == InLogin(call.pc.key, SelfProbe(sh.clock), GetLock)
              && sh'.attempts == sh.attempts
  {
  }

  // A probe that is decided on starts later than all before it.
  lemma StartIsNew(self: SelfChecks, clock: int, k: Key, seen: Option<Entry>)
    requires Spaced(Probes(self, k)) && Idle(self, k)
    requires seen == if k in self.cache then Some(self.cache[k]) else None
    requires seen.Some? ==> clock - seen.value.at >= SELF_CHECK_MIN_INTERVAL
    ensures clock !in Probes(self, k)
  {
    var ps := Probes(self, k);
    forall m | 0 <= m < |ps| ensures ps[m] != clock {
      SpacedFar(ps, m, |ps| - 1);
    }
  }

  lemma OwnOpen(c: Config, sh: Shared, t: Tid, call: Call, choice: Choice, sh': Shared, pc': Pc)
    requires Steps(c, t, sh, call, choice, sh', pc') && SelfEffect(sh.self, sh'.self, sh.clock, call.pc, pc')
    requires CheckInv(sh, call) && (forall k :: Spaced(Probes(sh.self, k)))
    requires Recorded(sh.attempts, sh.self) && OpenUnended(sh.attempts, call.pc)
    ensures OpenUnended(sh'.attempts, pc')
  {
    if Open(pc') {
      StepOpen(c, sh, t, call, choice, sh', pc');
      if !Open(call.pc) {
        StartIsNew(sh.self, sh.clock, call.pc.key, call.pc.check.seen);
      }
    }
  }

  // Only the call that checks the account ends a login of one of its probes.
  lemma OthersOpen(attempts: map<Tid, Attempt>, attempts': map<Tid, Attempt>, leading: map<Key, Tid>,
                   t: Tid, pc: Pc, choice: Choice, u: Tid, other: Pc)
    requires AttemptEffect(attempts, attempts', t, pc, choice) && OpenUnended(attempts, other) && u != t
    requires CheckLed(pc).Some? ==> CheckLed(pc).value in leading && leading[CheckLed(pc).value] == t
    requires CheckLed(other).Some? ==> CheckLed(other).value in leading && leading[CheckLed(other).value] == u
    ensures OpenUnended(attempts', other)
  {
  }

  lemma DistinctKept(attempts: map<Tid, Attempt>, attempts': map<Tid, Attempt>, t: Tid, pc: Pc, choice: Choice)
    requires AttemptEffect(attempts, attempts', t, pc, choice) && OpenUnended(attempts, pc)
    requires Distinct(attempts) && Own(attempts, t, pc)
    ensures Distinct(attempts')
  {
  }

  lemma RecordedKept(sh: Shared, sh': Shared, t: Tid, pc: Pc, pc': Pc, choice: Choice)
    requires AttemptEffect(sh.attempts, sh'.attempts, t, pc, choice)
    requires SelfEffect(sh.self, sh'.self, sh.clock, pc, pc') && Recorded(sh.attempts, sh.self)
    requires pc.InLogin? && pc.mode.SelfProbe? ==> ProbeInv(sh.self, pc.key, pc.mode.at)
    ensures Recorded(sh'.attempts, sh'.self)
  {
    forall k, at | at in Probes(sh.self, k) ensures at in Probes(sh'.self, k) {
    }
  }

  lemma {:induction false} StepProbeLogins(c: Config, s: State, s': State, t: Tid, choice: Choice)
    requires Inv(c, s) && Results(c, s) && ProbeLogins(s) && CallStep(c, s, s', t, choice)
    ensures ProbeLogins(s')
  {
    var sh, call, sh', pc' := s.sh, s.calls[t], s'.sh, s'.calls[t].pc;
    assert CallInv(c, sh, t, call) && CallResult(c, sh, t, call);
    StepEffects(c, t, sh, call, choice, sh', pc');
    StepAttempt(c, sh, t, call, choice, sh', pc');
    DistinctKept(sh.attempts, sh'.attempts, t, call.pc, choice);
    RecordedKept(sh, sh', t, call.pc, pc', choice);
    OwnOpen(c, sh, t, call, choice, sh', pc');
    forall u | 0 <= u < |s'.calls| ensures OpenUnended(sh'.attempts, s'.calls[u].pc) {
      if u != t {
        assert CallInv(c, sh, u, s.calls[u]);
        OthersOpen(sh.attempts, sh'.attempts, sh.byCheck.leader, t, call.pc, choice, u, s.calls[u].pc);
      }
    }
  }

  lemma NextProbeLogins(c: Config, s: State, s': State)
    requires Inv(c, s) && Results(c, s) && ProbeLogins(s) && Next(c, s, s')
    ensures ProbeLogins(s')
  {
    if t: Tid, choice :| CallStep(c, s, s', t, choice) {
      StepProbeLogins(c, s, s', t, choice);
    }
  }

  lemma {:induction false} RunProbeLogins(c: Config, run: seq<State>, i: nat)
    requires IsRun(c, run) && i < |run|
    ensures ProbeLogins(run[i])
  {
    if i > 0 {
      RunProbeLogins(c, run, i - 1);
      var s, s' := ResultsAt(c, run, i);
      NextProbeLogins(c, s, s');
    }
  }

  // ---------------------------------------------------------------- the outcome

  // Call o is the one whose self_check probe of account k, recorded as started at `at`, ended its
  // login with this result.
  ghost predicate IsOutcome(sh: Shared, k: Key, at: int, result: LoginOutcome, o: Tid) {
    && o in sh.attempts && sh.attempts[o] == Attempt(k, SelfProbe(at), result)
    && at in Probes(sh.self, k)
    && forall o' :: o' in sh.attempts && ProbeAt(sh.attempts[o'], k, at) ==> o' == o
  }

  lemma OutcomeOf(s: State, k: Key, at: int, result: LoginOutcome)
    requires ProbeLogins(s) && ProbeEnded(s.sh.attempts, k, at, result)
    ensures exists o :: IsOutcome(s.sh, k, at, result, o)
  {
    var o :| o in s.sh.attempts && s.sh.attempts[o] == Attempt(k, SelfProbe(at), result);
    assert IsOutcome(s.sh, k, at, result, o);
  }

  // What the cache holds for an account is how the login of the probe with that start ended.
  lemma CacheHoldsTheOutcome(c: Config, run: seq<State>, i: nat, k: Key)
    requires IsRun(c, run) && i < |run| && k in run[i].sh.self.cache
    ensures exists o :: IsOutcome(run[i].sh, k, run[i].sh.self.cache[k].at, run[i].sh.self.cache[k].result, o)
  {
    RunResults(c, run, i);
    RunProbeLogins(c, run, i);
    OutcomeOf(run[i], k, run[i].sh.self.cache[k].at, run[i].sh.self.cache[k].result);
  }

  // And so is what a self_check answers, its own probe's, a joined one's or a cached one.
  lemma AnswerIsTheOutcome(c: Config, run: seq<State>, i: nat, t: Tid)
    requires IsRun(c, run) && i < |run| && t < |run[i].calls|
    requires run[i].calls[t].pc.Returned? && run[i].calls[t].pc.answer.Checked?
    ensures
      var request, a := run[i].calls[t].request, run[i].calls[t].pc.answer;
      && request.SelfCheck? && request.subject in c.resolver
      && exists o :: IsOutcome(run[i].sh, c.resolver[request.subject], a.at, a.result, o)
  {
    RunResults(c, run, i);
    RunProbeLogins(c, run, i);
    var request, a := run[i].calls[t].request, run[i].calls[t].pc.answer;
    assert CallResult(c, run[i].sh, t, run[i].calls[t]);
    OutcomeOf(run[i], c.resolver[request.subject], a.at, a.result);
  }
}
