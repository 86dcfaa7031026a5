// When the logins of self_check keep the interval. Whether they will is settled once a probe has
// recorded its start: if the previous login started a full interval ago they do in every
// continuation, and if it did not there is one in which they do not.
module PoolLogins {
  import opened Wrappers
  import opened PoolProtocol
  import opened PoolInvariant
  import opened PoolSteps
  import opened PoolTheorems
  import opened PoolLiveness
  import opened PoolOutcomes
  import opened PoolProbes

  // ---------------------------------------------------------------- what a history keeps

  // Since a state with clock `since`, in which n was the latest probe and had no login: earlier
  // logins are what they were, and n's, if it has one by now, came no earlier.
  ghost predicate Grown(before: SelfChecks, self: SelfChecks, k: Key, n: nat, since: int) {
    && n < |Probes(self, k)|
    && (forall m :: m < n ==> (m in Logins(self, k) <==> m in Logins(before, k)))
    && (forall m :: m < n && m in Logins(self, k) && m in Logins(before, k) ==>
          Logins(self, k)[m] == Logins(before, k)[m])
    && (n in Logins(self, k) ==> Logins(self, k)[n] >= since)
  }

  lemma GrownStep(before: SelfChecks, self: SelfChecks, self': SelfChecks, clock: int, pc: Pc, pc': Pc, k: Key, n: nat,
                  since: int)
    requires SelfEffect(self, self', clock, pc, pc') && Grown(before, self, k, n, since) && since <= clock
    ensures Grown(before, self', k, n, since)
  {
  }

  ghost predicate GrownIn(before: SelfChecks, s: State, k: Key, n: nat, since: int) {
    since <= s.sh.clock && Grown(before, s.sh.self, k, n, since)
  }

  lemma GrownNext(c: Config, before: SelfChecks, s: State, s': State, k: Key, n: nat, since: int)
    requires Inv(c, s) && Next(c, s, s') && GrownIn(before, s, k, n, since)
    ensures GrownIn(before, s', k, n, since)
  {
    if t: Tid, choice :| CallStep(c, s, s', t, choice) {
      assert CallInv(c, s.sh, t, s.calls[t]);
      StepEffects(c, t, s.sh, s.calls[t], choice, s'.sh, s'.calls[t].pc);
      GrownStep(before, s.sh.self, s'.sh.self, s.sh.clock, s.calls[t].pc, s'.calls[t].pc, k, n, since);
    }
  }

  lemma GrownRun(c: Config, before: SelfChecks, run: seq<State>, i: nat, j: nat, k: Key, n: nat, since: int)
    requires IsRun(c, run) && i <= j < |run| && GrownIn(before, run[i], k, n, since)
    ensures GrownIn(before, run[j], k, n, since)
  {
    var flags := seq(|run|, x requires 0 <= x < |run| => GrownIn(before, run[x], k, n, since));
    forall x | 0 < x < |flags| ensures flags[x - 1] ==> flags[x] {
      var s, s' := StatesAt(c, run, x);
      if GrownIn(before, s, k, n, since) {
        GrownNext(c, before, s, s', k, n, since);
      }
    }
    Carries(flags, i, j);
  }

  // ---------------------------------------------------------------- a login can start at once

  // One step on the way of call t to its login, without the clock moving: its own, or that of the
  // call that holds the account's mutex. Only the start of t's login touches the self_check data.
  ghost predicate Nearer(c: Config, s: State, s': State, t: Tid) {
    && SystemStep(c, s, s') && t < |s.calls| == |s'.calls| && s'.sh.clock == s.sh.clock
    && OnItsWay(s.calls[t].pc)
    && (if OnItsWay(s'.calls[t].pc) then s'.sh.self == s.sh.self && s'.calls[t].pc.key == s.calls[t].pc.key
        else s'.sh.self == StartLogin(s.sh.self, s.calls[t].pc.key, s.sh.clock))
  }

  function After(s: State, t: Tid, m: Move): State
    requires t < |s.calls| && m.Move?
  {
    State(m.sh.(steps := m.sh.steps + 1), s.calls[t := s.calls[t].(pc := m.pc)])
  }

  const GO: Choice := Choice(true, LoginOk, 0)

  lemma OwnStep(c: Config, s: State, t: Tid) returns (s': State)
    requires t < |s.calls| && OnItsWay(s.calls[t].pc)
    requires s.calls[t].pc.login.AwaitLock? ==> s.calls[t].pc.login.mutex !in s.sh.held
    ensures Nearer(c, s, s', t)
  {
    s' := After(s, t, Step(c, t, s.sh, s.calls[t], GO));
    assert CallStep(c, s, s', t, GO);
  }

  // Whoever holds the mutex call t waits for is another call, past taking it, and not checking
  // any account.
  lemma HolderIsElse(c: Config, s: State, t: Tid, u: Tid)
    requires Inv(c, s) && t < |s.calls| && OnItsWay(s.calls[t].pc) && s.calls[t].pc.login.AwaitLock?
    requires s.calls[t].pc.login.mutex in s.sh.held && s.sh.held[s.calls[t].pc.login.mutex] == u
    ensures u < |s.calls| && u != t && s.calls[u].pc.InLogin? && !s.calls[u].pc.mode.SelfProbe?
    ensures !s.calls[u].pc.login.GetLock? && !s.calls[u].pc.login.AwaitLock?
  {
    assert CallInv(c, s.sh, t, s.calls[t]);
    assert u < |s.calls|;
    assert CallInv(c, s.sh, u, s.calls[u]);
    assert LockOf(s.calls[u].pc) == Some(s.calls[t].pc.login.mutex);
  }

  lemma HolderStep(c: Config, s: State, t: Tid, u: Tid) returns (s': State)
    requires t < |s.calls| && OnItsWay(s.calls[t].pc)
    requires u < |s.calls| && u != t && s.calls[u].pc.InLogin? && !s.calls[u].pc.mode.SelfProbe?
    requires !s.calls[u].pc.login.GetLock? && !s.calls[u].pc.login.AwaitLock?
    ensures Nearer(c, s, s', t)
  {
    s' := After(s, u, Step(c, u, s.sh, s.calls[u], GO));
    assert CallStep(c, s, s', u, GO);
  }

  lemma ClearTheWay(c: Config, s: State, t: Tid) returns (s': State)
    requires Inv(c, s) && t < |s.calls| && OnItsWay(s.calls[t].pc)
    ensures Nearer(c, s, s', t)
  {
    if s.calls[t].pc.login.AwaitLock? && s.calls[t].pc.login.mutex in s.sh.held {
      var u := s.sh.held[s.calls[t].pc.login.mutex];
      HolderIsElse(c, s, t, u);
      s' := HolderStep(c, s, t, u);
    } else {
      s' := OwnStep(c, s, t);
    }
  }

  lemma BusyFrom(c: Config, s: State, rest: seq<State>)
    requires Busy(c, rest) && SystemStep(c, s, rest[0])
    ensures Busy(c, [s] + rest)
  {
    var steps := [s] + rest;
    forall i | 0 < i < |steps| ensures SystemStep(c, steps[i - 1], steps[i]) {
      if i > 1 {
        assert SystemStep(c, rest[i - 1 - 1], rest[i - 1]);
      }
    }
  }

  // These steps lead from s to the start of call t's login, and no time passes.
  ghost predicate ToLogin(c: Config, s: State, t: Tid, steps: seq<State>) {
    && t < |s.calls| && s.calls[t].pc.InLogin? && Busy(c, steps) && steps[0] == s
    && steps[|steps| - 1].sh.self == StartLogin(s.sh.self, s.calls[t].pc.key, s.sh.clock)
  }

  lemma FirstOfMore(c: Config, s: State, s': State, t: Tid, rest: seq<State>)
    requires Nearer(c, s, s', t) && OnItsWay(s'.calls[t].pc) && ToLogin(c, s', t, rest)
    ensures ToLogin(c, s, t, [s] + rest)
  {
    BusyFrom(c, s, rest);
  }

  lemma OnlyOne(c: Config, s: State, s': State, t: Tid)
    requires Nearer(c, s, s', t) && !OnItsWay(s'.calls[t].pc)
    ensures ToLogin(c, s, t, [s] + [s'])
  {
    BusyFrom(c, s, [s']);
  }

  lemma NearerKeeps(c: Config, s: State, s': State, t: Tid)
    requires Inv(c, s) && Nearer(c, s, s', t)
    ensures Inv(c, s') && Remaining(s'.calls, |s'.calls|) < Remaining(s.calls, |s.calls|)
  {
    StepDecreases(c, s, s');
  }

  // From every state that keeps the invariant, a probe on its way can start its login before any
  // time passes, through steps of calls that have begun.
  lemma {:induction false} LoginCanStartNow(c: Config, s: State, t: Tid) returns (steps: seq<State>)
    requires Inv(c, s) && t < |s.calls| && OnItsWay(s.calls[t].pc)
    ensures ToLogin(c, s, t, steps)
    decreases Remaining(s.calls, |s.calls|)
  {
    var s' := ClearTheWay(c, s, t);
    NearerKeeps(c, s, s', t);
    if OnItsWay(s'.calls[t].pc) {
      var rest := LoginCanStartNow(c, s', t);
      FirstOfMore(c, s, s', t, rest);
      steps := [s] + rest;
    } else {
      OnlyOne(c, s, s', t);
      steps := [s] + [s'];
    }
  }

  lemma RunOn(c: Config, run: seq<State>, i: nat, steps: seq<State>) returns (later: seq<State>)
    requires IsRun(c, run) && i < |run| && Busy(c, steps) && steps[0] == run[i]
    ensures IsRun(c, later) && i < |later| && later[i] == run[i] && later[|later| - 1] == steps[|steps| - 1]
  {
    later := run[..i] + steps;
    forall j | 0 <= j < |later| - 1 ensures Next(c, later[j], later[j + 1]) {
      if j < i {
        assert Next(c, run[j], run[j + 1]);
      } else {
        assert SystemStep(c, steps[j + 1 - i - 1], steps[j + 1 - i]);
      }
    }
  }

  // ---------------------------------------------------------------- the condition

  // Probe n's login, once it has started, is a full interval after every earlier one.
  predicate Apart(self: SelfChecks, k: Key, n: nat) {
    n in Logins(self, k) ==>
      forall m :: m in Logins(self, k) && m < n ==> Logins(self, k)[n] - Logins(self, k)[m] >= SELF_CHECK_MIN_INTERVAL
  }

  ghost predicate Through(c: Config, run: seq<State>, i: nat, s: State) {
    IsRun(c, run) && i < |run| && run[i] == s
  }

  predicate ApartAt(run: seq<State>, j: nat, k: Key, n: nat) {
    j < |run| ==> Apart(run[j].sh.self, k, n)
  }

  // In every continuation of every run through s.
  ghost predicate StaysApart(c: Config, s: State, k: Key, n: nat) {
    forall run, i, j :: Through(c, run, i, s) && i <= j ==> ApartAt(run, j, k, n)
  }

  // The number of the latest probe.
  function Latest(self: SelfChecks, k: Key): int {
    |Probes(self, k)| - 1
  }

  // The probe before the latest has had no login, or its login started a full interval ago.
  predicate PreviousIsFar(self: SelfChecks, k: Key, clock: int) {
    var n := Latest(self, k);
    n > 0 && n - 1 in Logins(self, k) ==> clock - Logins(self, k)[n - 1] >= SELF_CHECK_MIN_INTERVAL
  }

  lemma FarFromEarlier(c: Config, run: seq<State>, j: nat, k: Key, before: SelfChecks, since: int)
    requires IsRun(c, run) && j < |run| && Latest(before, k) >= 0 && PreviousIsFar(before, k, since)
    requires GrownIn(before, run[j], k, Latest(before, k), since)
    ensures Apart(run[j].sh.self, k, Latest(before, k))
  {
    var self, n := run[j].sh.self, Latest(before, k);
    if n in Logins(self, k) {
      forall m | m in Logins(self, k) && m < n
        ensures Logins(self, k)[n] - Logins(self, k)[m] >= SELF_CHECK_MIN_INTERVAL
      {
        if m + 1 < n {
          LoginsTwoApart(c, run, j, k, m, n);
        }
      }
    }
  }

  // A full interval after the previous login, nothing can bring the next one too close.
  lemma FarEnough(c: Config, s: State, k: Key, run: seq<State>, i: nat, j: nat)
    requires Latest(s.sh.self, k) >= 0 && Latest(s.sh.self, k) !in Logins(s.sh.self, k)
    requires PreviousIsFar(s.sh.self, k, s.sh.clock) && Through(c, run, i, s) && i <= j < |run|
    ensures Apart(run[j].sh.self, k, Latest(s.sh.self, k))
  {
    var self, n := s.sh.self, Latest(s.sh.self, k);
    assert GrownIn(self, run[i], k, n, s.sh.clock);
    GrownRun(c, self, run, i, j, k, n, s.sh.clock);
    FarFromEarlier(c, run, j, k, self, s.sh.clock);
  }

  lemma FarEnoughAlways(c: Config, s: State, k: Key)
    requires Latest(s.sh.self, k) >= 0 && Latest(s.sh.self, k) !in Logins(s.sh.self, k)
    requires PreviousIsFar(s.sh.self, k, s.sh.clock)
    ensures StaysApart(c, s, k, Latest(s.sh.self, k))
  {
    forall run, i: nat, j: nat | Through(c, run, i, s) && i <= j ensures ApartAt(run, j, k, Latest(s.sh.self, k)) {
      if j < |run| {
        FarEnough(c, s, k, run, i, j);
      }
    }
  }

  lemma StartsTooClose(self: SelfChecks, k: Key, clock: int)
    requires !PreviousIsFar(self, k, clock)
    ensures !Apart(StartLogin(self, k, clock), k, Latest(self, k))
  {
    var n := Latest(self, k);
    var logins := Logins(StartLogin(self, k, clock), k);
    assert logins == Logins(self, k)[n := clock];
    assert n in logins && n - 1 in logins && logins[n] - logins[n - 1] < SELF_CHECK_MIN_INTERVAL;
  }

  // Sooner than that, the next login may start at once.
  lemma TooClose(c: Config, run: seq<State>, i: nat, t: Tid, k: Key)
    requires IsRun(c, run) && i < |run| && Inv(c, run[i]) && t < |run[i].calls|
    requires OnItsWay(run[i].calls[t].pc) && run[i].calls[t].pc.key == k && Latest(run[i].sh.self, k) >= 0
    requires !PreviousIsFar(run[i].sh.self, k, run[i].sh.clock)
    ensures !StaysApart(c, run[i], k, Latest(run[i].sh.self, k))
  {
    var steps := LoginCanStartNow(c, run[i], t);
    var later := RunOn(c, run, i, steps);
    StartsTooClose(run[i].sh.self, k, run[i].sh.clock);
    var j := |later| - 1;
    assert Through(c, later, i, run[i]) && !ApartAt(later, j, k, Latest(run[i].sh.self, k));
  }

  lemma ProbeIsLatest(c: Config, run: seq<State>, i: nat, t: Tid)
    requires IsRun(c, run) && i < |run| && t < |run[i].calls| && OnItsWay(run[i].calls[t].pc)
    ensures Inv(c, run[i])
    ensures
      var self, k := run[i].sh.self, run[i].calls[t].pc.key;
      Latest(self, k) >= 0 && Latest(self, k) !in Logins(self, k)
  {
    RunLogins(c, run, i);
    assert Pending(run[i].sh.self, run[i].calls[t].pc);
  }

  // A self_check has recorded the start of its account's latest probe and not begun its login. In
  // every continuation this login is a full interval after each earlier one if and only if, now,
  // the previous probe has had no login or its login started a full interval ago.
  lemma IntervalIsSettled(c: Config, run: seq<State>, i: nat, t: Tid)
    requires IsRun(c, run) && i < |run| && t < |run[i].calls| && OnItsWay(run[i].calls[t].pc)
    ensures
      var self, k := run[i].sh.self, run[i].calls[t].pc.key;
      && Latest(self, k) >= 0
      && (StaysApart(c, run[i], k, Latest(self, k)) <==> PreviousIsFar(self, k, run[i].sh.clock))
  {
    ProbeIsLatest(c, run, i, t);
    var k := run[i].calls[t].pc.key;
    if PreviousIsFar(run[i].sh.self, k, run[i].sh.clock) {
      FarEnoughAlways(c, run[i], k);
    } else {
      TooClose(c, run, i, t, k);
    }
  }
}
