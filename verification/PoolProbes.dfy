// The self_check throttle: how far apart probes and their logins are, and how old an answer is.
// The starts that selfCheckResultFor records keep the interval; the logins they lead to need not.
module PoolProbes {
  import opened Sets
  import opened Wrappers
  import opened PoolProtocol
  import opened PoolInvariant
  import opened PoolSteps
  import opened PoolTheorems

  // ---------------------------------------------------------------- recorded starts

  // The recorded starts of one account's probes are at least the interval apart.
  lemma ProbesSpaced(c: Config, run: seq<State>, i: nat, k: Key)
    requires IsRun(c, run) && i < |run|
    ensures Spaced(Probes(run[i].sh.self, k))
  {
    RunInv(c, run, i);
  }

  lemma {:induction false} SpacedFar(ps: seq<int>, m: nat, n: nat)
    requires Spaced(ps) && m <= n < |ps|
    ensures ps[n] - ps[m] >= (n - m) * SELF_CHECK_MIN_INTERVAL
  {
    if m < n {
      SpacedFar(ps, m, n - 1);
    }
  }

  // How many of the probe starts ps lie in [from, to].
  function CountIn(ps: seq<int>, from: int, to: int): nat {
    if ps == [] then 0
    else CountIn(ps[..|ps| - 1], from, to) + if from <= ps[|ps| - 1] <= to then 1 else 0
  }

  lemma {:induction false} CountBound(ps: seq<int>, from: int, to: int)
    requires Spaced(ps) && from <= to
    ensures CountIn(ps, from, to) == 0 || (CountIn(ps, from, to) - 1) * SELF_CHECK_MIN_INTERVAL
              <= (if ps[|ps| - 1] <= to then ps[|ps| - 1] else to) - from
    ensures CountIn(ps, from, to) > 0 ==> ps != [] && ps[|ps| - 1] >= from
  {
    if ps != [] {
      CountBound(ps[..|ps| - 1], from, to);
    }
  }

  // A window of length `width` holds at most width / interval + 1 recorded starts.
  lemma ProbesPerWindow(c: Config, run: seq<State>, i: nat, k: Key, from: int, width: nat)
    requires IsRun(c, run) && i < |run|
    ensures CountIn(Probes(run[i].sh.self, k), from, from + width) <= width / SELF_CHECK_MIN_INTERVAL + 1
  {
    ProbesSpaced(c, run, i, k);
    CountBound(Probes(run[i].sh.self, k), from, from + width);
  }

  // ---------------------------------------------------------------- the logins

  // Probe n of ps started its login at `login`: not before its own recorded start, and not
  // after the next one's.
  predicate Follows(ps: seq<int>, n: nat, login: int, clock: int) {
    n < |ps| && ps[n] <= login <= clock && (n + 1 < |ps| ==> login <= ps[n + 1])
  }

  ghost predicate LoginsOf(self: SelfChecks, k: Key, clock: int) {
    forall n :: n in Logins(self, k) ==> Follows(Probes(self, k), n, Logins(self, k)[n], clock)
  }

  // A probe that has recorded its start and not begun its login.
  predicate OnItsWay(pc: Pc) {
    pc.InLogin? && pc.mode.SelfProbe? && (pc.login.GetLock? || pc.login.AwaitLock? || pc.login.Connect?)
  }

  // Such a probe has no login in the history yet.
  predicate Pending(self: SelfChecks, pc: Pc) {
    OnItsWay(pc) ==>
      Probes(self, pc.key) != [] && |Probes(self, pc.key)| - 1 !in Logins(self, pc.key)
  }

  ghost predicate LoginHistory(s: State) {
    && (forall k :: LoginsOf(s.sh.self, k, s.sh.clock))
    && (forall t :: 0 <= t < |s.calls| ==> Pending(s.sh.self, s.calls[t].pc))
  }

  lemma LoginsKept(self: SelfChecks, self': SelfChecks, clock: int, pc: Pc, pc': Pc, k: Key)
    requires SelfEffect(self, self', clock, pc, pc') && LoginsOf(self, k, clock)
    requires pc.InLogin? && pc.mode.SelfProbe? ==>
               ProbeInv(self, pc.key, pc.mode.at) && pc.mode.at <= clock && Pending(self, pc)
    ensures LoginsOf(self', k, clock)
  {
    forall n | n in Logins(self', k) ensures Follows(Probes(self', k), n, Logins(self', k)[n], clock) {
      if n in Logins(self, k) {
        assert Follows(Probes(self, k), n, Logins(self, k)[n], clock);
      }
    }
  }

  lemma LoginsLater(self: SelfChecks, k: Key, clock: int, later: int)
    requires LoginsOf(self, k, clock) && clock <= later
    ensures LoginsOf(self, k, later)
  {
  }

  lemma NumbersBelow(self: SelfChecks, k: Key, clock: int)
    requires LoginsOf(self, k, clock)
    ensures |Probes(self, k)| !in Logins(self, k)
  {
  }

  lemma OwnPending(c: Config, t: Tid, sh: Shared, call: Call, choice: Choice, sh': Shared, pc': Pc)
    requires Steps(c, t, sh, call, choice, sh', pc') && Pending(sh.self, call.pc)
    requires call.pc.InCheck? ==> LoginsOf(sh.self, call.pc.key, sh.clock)
    ensures Pending(sh'.self, pc')
  {
    if call.pc.InCheck? && call.pc.check.Decide? && pc'.InLogin? {
      var k := call.pc.key;
      assert Logins(sh'.self, k) == Logins(sh.self, k) && |Probes(sh'.self, k)| == |Probes(sh.self, k)| + 1;
      NumbersBelow(sh.self, k, sh.clock);
    }
  }

  // The step touches only the account its call is checking, which no other call is.
  lemma OthersPending(self: SelfChecks, self': SelfChecks, clock: int, leading: map<Key, Tid>,
                      t: Tid, pc: Pc, pc': Pc, u: Tid, other: Pc)
    requires SelfEffect(self, self', clock, pc, pc') && Pending(self, other) && u != t
    requires CheckLed(pc).Some? ==> CheckLed(pc).value in leading && leading[CheckLed(pc).value] == t
    requires CheckLed(other).Some? ==> CheckLed(other).value in leading && leading[CheckLed(other).value] == u
    ensures Pending(self', other)
  {
  }

  lemma ProbeClock(c: Config, sh: Shared, t: Tid, call: Call)
    requires SelfChecksInv(sh.self, sh.byCheck.leader, sh.clock) && LoginInv(c, sh.table, sh.self, t, call)
    ensures call.pc.InLogin? && call.pc.mode.SelfProbe? ==>
              ProbeInv(sh.self, call.pc.key, call.pc.mode.at) && call.pc.mode.at <= sh.clock
  {
  }

  lemma StepLogins(c: Config, s: State, s': State, t: Tid, choice: Choice)
    requires Inv(c, s) && LoginHistory(s) && CallStep(c, s, s', t, choice)
    ensures LoginHistory(s')
  {
    var sh, call, pc' := s.sh, s.calls[t], s'.calls[t].pc;
    assert CallInv(c, sh, t, call);
    StepEffects(c, t, sh, call, choice, s'.sh, pc');
    ProbeClock(c, sh, t, call);
    forall k ensures LoginsOf(s'.sh.self, k, s'.sh.clock) {
      LoginsKept(sh.self, s'.sh.self, sh.clock, call.pc, pc', k);
    }
    forall u | 0 <= u < |s'.calls| ensures Pending(s'.sh.self, s'.calls[u].pc) {
      if u == t {
        OwnPending(c, t, sh, call, choice, s'.sh, pc');
      } else {
        assert CallInv(c, sh, u, s.calls[u]);
        OthersPending(sh.self, s'.sh.self, sh.clock, sh.byCheck.leader, t, call.pc, pc', u, s.calls[u].pc);
      }
    }
  }

  lemma NextLogins(c: Config, s: State, s': State)
    requires Inv(c, s) && LoginHistory(s) && Next(c, s, s')
    ensures LoginHistory(s')
  {
    if t: Tid, choice :| CallStep(c, s, s', t, choice) {
      StepLogins(c, s, s', t, choice);
    } else {
      assert s'.sh == s.sh.(clock := s'.sh.clock);
      forall k ensures LoginsOf(s'.sh.self, k, s'.sh.clock) {
        LoginsLater(s.sh.self, k, s.sh.clock, s'.sh.clock);
      }
    }
  }

  lemma {:induction false} RunLogins(c: Config, run: seq<State>, i: nat)
    requires IsRun(c, run) && i < |run|
    ensures Inv(c, run[i]) && LoginHistory(run[i])
  {
    RunInv(c, run, i);
    if i > 0 {
      RunLogins(c, run, i - 1);
      assert Next(c, run[i - 1], run[i - 1 + 1]);
      NextLogins(c, run[i - 1], run[i]);
    }
  }

  // The history is the logins: where a probe's login starts, its time is added, for the first
  // time, under the number of the probe that is in flight.
  lemma LoginIsRecorded(c: Config, run: seq<State>, i: nat, t: Tid, choice: Choice)
    requires IsRun(c, run) && i + 1 < |run| && t < |run[i].calls| && CallStep(c, run[i], run[i + 1], t, choice)
    requires run[i].calls[t].pc.InLogin? && run[i].calls[t].pc.mode.SelfProbe?
    requires LoginInFlight(run[i].calls[t].pc).None? && LoginInFlight(run[i + 1].calls[t].pc).Some?
    ensures
      var self, k, at := run[i].sh.self, run[i].calls[t].pc.key, run[i].calls[t].pc.mode.at;
      var n := |Probes(self, k)| - 1;
      && n >= 0 && Probes(self, k)[n] == at && n !in Logins(self, k)
      && Logins(run[i + 1].sh.self, k) == Logins(self, k)[n := run[i].sh.clock]
  {
    RunLogins(c, run, i);
    var s := run[i];
    assert CallInv(c, s.sh, t, s.calls[t]) && Pending(s.sh.self, s.calls[t].pc);
    LoginStarts(c, t, s.sh, s.calls[t], choice, run[i + 1].sh, run[i + 1].calls[t].pc);
  }

  lemma LoginStarts(c: Config, t: Tid, sh: Shared, call: Call, choice: Choice, sh': Shared, pc': Pc)
    requires Steps(c, t, sh, call, choice, sh', pc') && call.pc.InLogin? && call.pc.mode.SelfProbe?
    requires LoginInFlight(call.pc).None? && LoginInFlight(pc').Some?
    ensures call.pc.login.Connect? && sh'.self == StartLogin(sh.self, call.pc.key, sh.clock)
  {
  }

  // The login of a probe starts between its own recorded start and the next one.
  lemma LoginsFollowTheirProbes(c: Config, run: seq<State>, i: nat, k: Key, n: nat)
    requires IsRun(c, run) && i < |run| && n in Logins(run[i].sh.self, k)
    ensures Follows(Probes(run[i].sh.self, k), n, Logins(run[i].sh.self, k)[n], run[i].sh.clock)
  {
    RunLogins(c, run, i);
    assert LoginsOf(run[i].sh.self, k, run[i].sh.clock);
  }

  // The gap between two successive logins is the interval at least if the second probe's recorded
  // start is that long after the first login; if the first probe did not wait for its login; and
  // otherwise it falls short by no more than that wait.
  lemma SuccessiveLogins(c: Config, run: seq<State>, i: nat, k: Key, n: nat)
    requires IsRun(c, run) && i < |run|
    requires n in Logins(run[i].sh.self, k) && n + 1 in Logins(run[i].sh.self, k)
    ensures n + 1 < |Probes(run[i].sh.self, k)|
    ensures
      var ps, login := Probes(run[i].sh.self, k), Logins(run[i].sh.self, k);
      && 0 <= ps[n + 1] - login[n] <= login[n + 1] - login[n]
      && login[n + 1] - login[n] >= SELF_CHECK_MIN_INTERVAL - (login[n] - ps[n])
  {
    LoginsFollowTheirProbes(c, run, i, k, n);
    LoginsFollowTheirProbes(c, run, i, k, n + 1);
    ProbesSpaced(c, run, i, k);
  }

  // Probes that are not successive keep the interval between their logins, whatever they waited.
  lemma LoginsTwoApart(c: Config, run: seq<State>, i: nat, k: Key, m: nat, n: nat)
    requires IsRun(c, run) && i < |run| && m + 1 < n
    requires m in Logins(run[i].sh.self, k) && n in Logins(run[i].sh.self, k)
    ensures Logins(run[i].sh.self, k)[n] - Logins(run[i].sh.self, k)[m] >= (n - m - 1) * SELF_CHECK_MIN_INTERVAL
  {
    LoginsFollowTheirProbes(c, run, i, k, m);
    LoginsFollowTheirProbes(c, run, i, k, n);
    ProbesSpaced(c, run, i, k);
    SpacedFar(Probes(run[i].sh.self, k), m + 1, n);
  }

  // The probes of an account whose logins start in [from, to].
  function LoginsIn(self: SelfChecks, k: Key, from: int, to: int): set<nat> {
    set n | n in Logins(self, k) && from <= Logins(self, k)[n] <= to
  }

  // A window of length `width` holds at most width / interval + 2 real logins of self_check for
  // one account, under any concurrency.
  lemma LoginsPerWindow(c: Config, run: seq<State>, i: nat, k: Key, from: int, width: nat)
    requires IsRun(c, run) && i < |run|
    ensures |LoginsIn(run[i].sh.self, k, from, from + width)| <= width / SELF_CHECK_MIN_INTERVAL + 2
  {
    var xs := LoginsIn(run[i].sh.self, k, from, from + width);
    if xs != {} {
      var m := Least(xs);
      var q := width / SELF_CHECK_MIN_INTERVAL;
      forall n | n in xs ensures m <= n < m + q + 2 {
        if m + 1 < n {
          LoginsTwoApart(c, run, i, k, m, n);
        }
      }
      IntervalSize(xs, m, m + q + 2);
    }
  }

  // ---------------------------------------------------------------- the age of an answer

  // An answer marked cached was younger than the interval when it was decided on, and a probe
  // in flight is the latest recorded start.
  lemma CachedAnswersWereYoung(c: Config, run: seq<State>, i: nat, t: Tid)
    requires IsRun(c, run) && i < |run| && t < |run[i].calls|
    ensures
      var pc := run[i].calls[t].pc;
      && (pc.Returned? && pc.answer.Checked? && pc.answer.cached ==>
            0 <= pc.answer.decidedAt - pc.answer.at < SELF_CHECK_MIN_INTERVAL && pc.answer.decidedAt <= run[i].sh.clock)
      && (pc.InLogin? && pc.mode.SelfProbe? ==>
          ProbeInv(run[i].sh.self, pc.key, pc.mode.at) && pc.mode.at <= run[i].sh.clock)
  {
    RunInv(c, run, i);
    assert CallInv(c, run[i].sh, t, run[i].calls[t]);
    ProbeClock(c, run[i].sh, t, run[i].calls[t]);
  }
}
