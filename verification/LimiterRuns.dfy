// Tool calls interleaved at the limiter's gates, and what every such run keeps.
module LimiterRuns {
  import opened Identity
  import opened Sets
  import opened Wrappers
  import opened TokenBucket
  import opened ToolLimiter

  type CallId = nat

  datatype Call =
    | Bypassed
    | PastGlobal(subject: string, globalAt: real)
    | PastSubject(subject: string, globalAt: real, subjectAt: real)
    | Running(subject: string, globalAt: real, subjectAt: real)
    | Ended(subject: string, globalAt: real, subjectAt: real)
    | Refused(subject: string, kind: ErrKind)

  datatype Pass = Pass(call: CallId, at: real)

  // The gates, every call so far, the latest clock reading, and who passed each rate gate when.
  datatype State = State(gates: Gates, calls: map<CallId, Call>, clock: real,
                         globalPasses: seq<Pass>, subjectPasses: map<string, seq<Pass>>)

  datatype Event =
    | Arrive(id: CallId, name: string, identity: Option<string>, now: real)
    | TrySubject(id: CallId, now: real)
    | TrySlot(id: CallId)
    | Finish(id: CallId)

  function Start(c: Config): State {
    State(NewGates(c), map[], 0.0, [], map[])
  }

  function PassesOf(s: State, subject: string): seq<Pass> {
    if subject in s.subjectPasses then s.subjectPasses[subject] else []
  }

  predicate Enabled(s: State, e: Event) {
    match e
    case Arrive(id, _, _, now) => id !in s.calls && s.clock <= now
    case TrySubject(id, now) => id in s.calls && s.calls[id].PastGlobal? && s.clock <= now
    case TrySlot(id) => id in s.calls && s.calls[id].PastSubject?
    case Finish(id) => id in s.calls && s.calls[id].Running?
  }

  function Apply(c: Config, s: State, e: Event): State
    requires Enabled(s, e)
  {
    match e
    case Arrive(id, name, identity, now) =>
      var subject := SubjectOf(identity);
      if name != CALL_TOOL then s.(calls := s.calls[id := Bypassed], clock := now)
      else if !Allows(c.global, s.gates.global, now) then
        s.(gates := AskGlobal(c, s.gates, now), calls := s.calls[id := Refused(subject, ErrGlobalRate)], clock := now)
      else
        s.(gates := AskGlobal(c, s.gates, now), calls := s.calls[id := PastGlobal(subject, now)], clock := now,
           globalPasses := s.globalPasses + [Pass(id, now)])
    case TrySubject(id, now) =>
      var call := s.calls[id];
      if !Allows(c.subject, BucketFor(c, s.gates, call.subject), now) then
        s.(gates := AskSubject(c, s.gates, call.subject, now),
           calls := s.calls[id := Refused(call.subject, ErrSubjectRate)], clock := now)
      else
        s.(gates := AskSubject(c, s.gates, call.subject, now),
           calls := s.calls[id := PastSubject(call.subject, call.globalAt, now)], clock := now,
           subjectPasses := s.subjectPasses[call.subject := PassesOf(s, call.subject) + [Pass(id, now)]])
    case TrySlot(id) =>
      var call := s.calls[id];
      if !HasSlot(c, s.gates) then s.(calls := s.calls[id := Refused(call.subject, ErrInflight)])
      else
        s.(gates := s.gates.(inflight := s.gates.inflight + 1),
           calls := s.calls[id := Running(call.subject, call.globalAt, call.subjectAt)])
    case Finish(id) =>
      var call := s.calls[id];
      s.(gates := s.gates.(inflight := s.gates.inflight - 1),
         calls := s.calls[id := Ended(call.subject, call.globalAt, call.subjectAt)])
  }

  // The state these events lead to, if each could happen when it did.
  function Run(c: Config, events: seq<Event>): Option<State> {
    if events == [] then Some(Start(c))
    else
      var before := Run(c, events[..|events| - 1]);
      var e := events[|events| - 1];
      if before.Some? && Enabled(before.value, e) then Some(Apply(c, before.value, e)) else None
  }

  // ---------------------------------------------------------------- one rate gate

  function Times(passes: seq<Pass>): seq<real> {
    seq(|passes|, i requires 0 <= i < |passes| => passes[i].at)
  }

  predicate Passed(passes: seq<Pass>, id: CallId, at: real) {
    Pass(id, at) in passes
  }

  ghost predicate GateInv(l: Limit, b: Bucket, passes: seq<Pass>, clock: real) {
    && b == Spent(l, Times(passes))
    && Ordered(Times(passes), clock)
    && Admissible(l, Times(passes))
  }

  lemma TimesOfMore(passes: seq<Pass>, p: Pass)
    ensures Times(passes + [p]) == Times(passes) + [p.at]
  {
  }

  lemma AdmissibleMore(l: Limit, g: seq<real>, now: real)
    requires Admissible(l, g) && Fits(l, g, now)
    ensures Admissible(l, g + [now])
  {
    var more := g + [now];
    forall n | 0 <= n < |more| ensures Fits(l, more[..n], more[n]) {
      assert more[..n] == if n < |g| then g[..n] else g;
    }
  }

  lemma GateKeeps(l: Limit, b: Bucket, passes: seq<Pass>, clock: real, id: CallId, now: real)
    requires GateInv(l, b, passes, clock) && clock <= now
    ensures GateInv(l, b, passes, now)
    ensures Allows(l, b, now) ==> GateInv(l, Take(l, b, now), passes + [Pass(id, now)], now)
  {
    var g := Times(passes);
    TimesOfMore(passes, Pass(id, now));
    if Allows(l, b, now) {
      GrantedExactlyWhenItFits(l, g, now);
      AdmissibleMore(l, g, now);
      SpentOfMore(l, g, now);
    }
  }

  function CallsOf(passes: seq<Pass>): set<CallId> {
    set p | p in passes :: p.call
  }

  lemma {:induction false} CallsAtMost(passes: seq<Pass>)
    ensures |CallsOf(passes)| <= |passes|
  {
    if passes != [] {
      var n := |passes| - 1;
      CallsAtMost(passes[..n]);
      assert passes == passes[..n] + [passes[n]];
      assert CallsOf(passes) == CallsOf(passes[..n]) + {passes[n].call};
    }
  }

  // The part of an ordered list that lies in a window is one stretch of it.
  lemma {:induction false} Stretch(g: seq<real>, now: real, a: real, b: real) returns (i: nat, j: nat)
    requires Ordered(g, now)
    ensures i <= j <= |g|
    ensures forall k :: 0 <= k < |g| && a <= g[k] <= b ==> i <= k < j
    ensures i < j ==> a <= g[i] && g[j - 1] <= b
  {
    i, j := 0, |g|;
    while i < |g| && g[i] < a
      invariant i <= |g|
      invariant forall k :: 0 <= k < i ==> g[k] < a
    {
      i := i + 1;
    }
    while i < j && b < g[j - 1]
      invariant i <= j <= |g|
      invariant forall k :: j <= k < |g| ==> b < g[k]
    {
      j := j - 1;
    }
  }

  // Calls that passed the gate within a window of length w.
  lemma GateWindow(l: Limit, b: Bucket, passes: seq<Pass>, clock: real, ids: set<CallId>,
                   at: CallId -> real, a: real, w: real)
    requires GateInv(l, b, passes, clock) && w >= 0.0
    requires forall id :: id in ids ==> Passed(passes, id, at(id)) && a <= at(id) <= a + w
    ensures |ids| as real <= l.burst as real + l.rate * w
  {
    var g := Times(passes);
    var i, j := Stretch(g, clock, a, a + w);
    var part := passes[i..j];
    forall id | id in ids ensures id in CallsOf(part) {
      var k :| 0 <= k < |passes| && passes[k] == Pass(id, at(id));
      assert g[k] == at(id);
      assert part[k - i] == passes[k];
    }
    CallsAtMost(part);
    SubsetSize(ids, CallsOf(part));
    if i < j {
      WindowHolds(l, g, i, j - 1, w);
    } else {
      EarnedIsNonNegative(l.rate, w);
    }
  }

  // ---------------------------------------------------------------- the invariant

  predicate Admitted(call: Call) {
    call.Running? || call.Ended?
  }

  // Every call that got past the global gate, whatever became of it.
  predicate SpentGlobal(call: Call) {
    match call
    case Bypassed => false
    case Refused(_, kind) => kind != ErrGlobalRate
    case _ => true
  }

  predicate SpentSubject(call: Call, subject: string) {
    match call
    case PastSubject(s, _, _) => s == subject
    case Running(s, _, _) => s == subject
    case Ended(s, _, _) => s == subject
    case Refused(s, kind) => s == subject && kind == ErrInflight
    case _ => false
  }

  function RunningSet(calls: map<CallId, Call>): set<CallId> {
    set id | id in calls && calls[id].Running?
  }

  predicate CallLogged(s: State, id: CallId, call: Call) {
    match call
    case PastGlobal(subject, at) => Passed(s.globalPasses, id, at)
    case PastSubject(subject, at, sat) => Passed(s.globalPasses, id, at) && Passed(PassesOf(s, subject), id, sat)
    case Running(subject, at, sat) => Passed(s.globalPasses, id, at) && Passed(PassesOf(s, subject), id, sat)
    case Ended(subject, at, sat) => Passed(s.globalPasses, id, at) && Passed(PassesOf(s, subject), id, sat)
    case _ => true
  }

  predicate GlobalExact(s: State, id: CallId) {
    id in CallsOf(s.globalPasses) <==> id in s.calls && SpentGlobal(s.calls[id])
  }

  predicate SubjectExact(s: State, id: CallId, subject: string) {
    id in CallsOf(PassesOf(s, subject)) <==> id in s.calls && SpentSubject(s.calls[id], subject)
  }

  ghost predicate Logged(s: State) {
    && (forall id :: id in s.calls ==> CallLogged(s, id, s.calls[id]))
    && (forall id :: GlobalExact(s, id))
    && (forall id, subject :: SubjectExact(s, id, subject))
  }

  ghost predicate Inv(c: Config, s: State) {
    && GateInv(c.global, s.gates.global, s.globalPasses, s.clock)
    && (forall subject :: GateInv(c.subject, BucketFor(c, s.gates, subject), PassesOf(s, subject), s.clock))
    && SlotsCounted(c, s)
    && Logged(s)
  }

  lemma CallsOfMore(passes: seq<Pass>, p: Pass)
    ensures CallsOf(passes + [p]) == CallsOf(passes) + {p.call}
  {
    assert forall q :: q in passes + [p] <==> q in passes || q == p;
  }

  lemma RunningAfter(calls: map<CallId, Call>, id: CallId, call: Call)
    ensures |RunningSet(calls[id := call])| == |RunningSet(calls) - {id}| + if call.Running? then 1 else 0
    ensures |RunningSet(calls)| == |RunningSet(calls) - {id}| + if id in calls && calls[id].Running? then 1 else 0
  {
    var rest := RunningSet(calls) - {id};
    assert RunningSet(calls[id := call]) == if call.Running? then rest + {id} else rest;
    assert RunningSet(calls) == if id in calls && calls[id].Running? then rest + {id} else rest;
  }

  // One subject's calls leave every other subject's bucket and history as they are.
  lemma SubjectsDoNotInterfere(c: Config, s: State, e: Event, subject: string)
    requires Enabled(s, e)
    requires e.TrySubject? ==> s.calls[e.id].subject != subject
    ensures BucketFor(c, Apply(c, s, e).gates, subject) == BucketFor(c, s.gates, subject)
    ensures PassesOf(Apply(c, s, e), subject) == PassesOf(s, subject)
  {
  }

  lemma PassesGrow(c: Config, s: State, e: Event, subject: string)
    requires Enabled(s, e)
    ensures var p := Apply(c, s, e).globalPasses;
      p == s.globalPasses || (e.Arrive? && p == s.globalPasses + [Pass(e.id, e.now)])
    ensures var p := PassesOf(Apply(c, s, e), subject);
      p == PassesOf(s, subject) || (e.TrySubject? && p == PassesOf(s, subject) + [Pass(e.id, e.now)])
  {
  }

  lemma CallStaysLogged(c: Config, s: State, e: Event, id: CallId)
    requires Enabled(s, e) && id in s.calls && CallLogged(s, id, s.calls[id])
    ensures CallLogged(Apply(c, s, e), id, s.calls[id])
  {
    if s.calls[id].PastGlobal? || s.calls[id].PastSubject? || s.calls[id].Running? || s.calls[id].Ended? {
      PassesGrow(c, s, e, s.calls[id].subject);
    }
  }

  lemma NewStateLogged(c: Config, s: State, e: Event)
    requires Enabled(s, e) && (e.id in s.calls ==> CallLogged(s, e.id, s.calls[e.id]))
    ensures CallLogged(Apply(c, s, e), e.id, Apply(c, s, e).calls[e.id])
  {
  }

  lemma GlobalStaysExact(c: Config, s: State, e: Event, id: CallId)
    requires Enabled(s, e) && GlobalExact(s, id)
    ensures GlobalExact(Apply(c, s, e), id)
  {
    if e.Arrive? {
      CallsOfMore(s.globalPasses, Pass(e.id, e.now));
    }
  }

  lemma SubjectStaysExact(c: Config, s: State, e: Event, id: CallId, subject: string)
    requires Enabled(s, e) && SubjectExact(s, id, subject)
    ensures SubjectExact(Apply(c, s, e), id, subject)
  {
    if e.TrySubject? && s.calls[e.id].subject == subject {
      CallsOfMore(PassesOf(s, subject), Pass(e.id, e.now));
    } else {
      SubjectsDoNotInterfere(c, s, e, subject);
    }
  }

  lemma ApplyLogs(c: Config, s: State, e: Event)
    requires Logged(s) && Enabled(s, e)
    ensures Logged(Apply(c, s, e))
  {
    var s' := Apply(c, s, e);
    forall id | id in s'.calls ensures CallLogged(s', id, s'.calls[id]) {
      if id == e.id {
        NewStateLogged(c, s, e);
      } else {
        CallStaysLogged(c, s, e, id);
      }
    }
    forall id ensures GlobalExact(s', id) {
      GlobalStaysExact(c, s, e, id);
    }
    forall id, subject ensures SubjectExact(s', id, subject) {
      SubjectStaysExact(c, s, e, id, subject);
    }
  }

  lemma {:induction false} GlobalGateKeeps(c: Config, s: State, e: Event)
    requires Enabled(s, e) && GateInv(c.global, s.gates.global, s.globalPasses, s.clock)
    ensures var s' := Apply(c, s, e); GateInv(c.global, s'.gates.global, s'.globalPasses, s'.clock)
  {
    GateKeeps(c.global, s.gates.global, s.globalPasses, s.clock, e.id, Apply(c, s, e).clock);
  }

  lemma {:induction false} SubjectGateKeeps(c: Config, s: State, e: Event, subject: string)
    requires Enabled(s, e) && GateInv(c.subject, BucketFor(c, s.gates, subject), PassesOf(s, subject), s.clock)
    ensures
      var s' := Apply(c, s, e);
      GateInv(c.subject, BucketFor(c, s'.gates, subject), PassesOf(s', subject), s'.clock)
  {
    GateKeeps(c.subject, BucketFor(c, s.gates, subject), PassesOf(s, subject), s.clock, e.id, Apply(c, s, e).clock);
    if !(e.TrySubject? && s.calls[e.id].subject == subject) {
      SubjectsDoNotInterfere(c, s, e, subject);
    }
  }

  predicate SlotsCounted(c: Config, s: State) {
    s.gates.inflight == |RunningSet(s.calls)| <= c.maxInflight
  }

  lemma SlotsStayCounted(c: Config, s: State, e: Event)
    requires Enabled(s, e) && SlotsCounted(c, s)
    ensures SlotsCounted(c, Apply(c, s, e))
  {
    RunningAfter(s.calls, e.id, Apply(c, s, e).calls[e.id]);
  }

  lemma ApplyKeeps(c: Config, s: State, e: Event)
    requires Inv(c, s) && Enabled(s, e)
    ensures Inv(c, Apply(c, s, e))
  {
    var s' := Apply(c, s, e);
    ApplyLogs(c, s, e);
    SlotsStayCounted(c, s, e);
    GlobalGateKeeps(c, s, e);
    forall subject ensures GateInv(c.subject, BucketFor(c, s'.gates, subject), PassesOf(s', subject), s'.clock) {
      SubjectGateKeeps(c, s, e, subject);
    }
  }

  lemma {:induction false} RunInv(c: Config, events: seq<Event>)
    requires Run(c, events).Some?
    ensures Inv(c, Run(c, events).value)
  {
    if events == [] {
      assert RunningSet(map[]) == {};
    } else {
      RunInv(c, events[..|events| - 1]);
      ApplyKeeps(c, Run(c, events[..|events| - 1]).value, events[|events| - 1]);
    }
  }

  // ---------------------------------------------------------------- the promises

  function AdmittedGlobally(calls: map<CallId, Call>, from: real, to: real): set<CallId> {
    set id | id in calls && Admitted(calls[id]) && from <= calls[id].globalAt <= to
  }

  function AdmittedFor(calls: map<CallId, Call>, subject: string, from: real, to: real): set<CallId> {
    set id | id in calls && Admitted(calls[id]) && calls[id].subject == subject && from <= calls[id].subjectAt <= to
  }

  // In any window of length w the server admits at most burst + rate * w calls.
  lemma GlobalWindow(c: Config, events: seq<Event>, from: real, w: real)
    requires Run(c, events).Some? && w >= 0.0
    ensures |AdmittedGlobally(Run(c, events).value.calls, from, from + w)| as real
            <= c.global.burst as real + c.global.rate * w
  {
    RunInv(c, events);
    GlobalWindowOf(c, Run(c, events).value, from, w);
  }

  lemma GlobalWindowOf(c: Config, s: State, from: real, w: real)
    requires GateInv(c.global, s.gates.global, s.globalPasses, s.clock) && w >= 0.0
    requires forall id :: id in s.calls ==> CallLogged(s, id, s.calls[id])
    ensures |AdmittedGlobally(s.calls, from, from + w)| as real <= c.global.burst as real + c.global.rate * w
  {
    var calls := s.calls;
    var at := (id: CallId) => if id in calls && Admitted(calls[id]) then calls[id].globalAt else 0.0;
    GateWindow(c.global, s.gates.global, s.globalPasses, s.clock, AdmittedGlobally(calls, from, from + w), at, from, w);
  }

  // And so for the calls of each subject, by the subject's own limit.
  lemma SubjectWindow(c: Config, events: seq<Event>, subject: string, from: real, w: real)
    requires Run(c, events).Some? && w >= 0.0
    ensures |AdmittedFor(Run(c, events).value.calls, subject, from, from + w)| as real
            <= c.subject.burst as real + c.subject.rate * w
  {
    RunInv(c, events);
    SubjectWindowOf(c, Run(c, events).value, subject, from, w);
  }

  lemma SubjectWindowOf(c: Config, s: State, subject: string, from: real, w: real)
    requires GateInv(c.subject, BucketFor(c, s.gates, subject), PassesOf(s, subject), s.clock) && w >= 0.0
    requires forall id :: id in s.calls ==> CallLogged(s, id, s.calls[id])
    ensures |AdmittedFor(s.calls, subject, from, from + w)| as real <= c.subject.burst as real + c.subject.rate * w
  {
    var calls := s.calls;
    var at := (id: CallId) => if id in calls && Admitted(calls[id]) then calls[id].subjectAt else 0.0;
    GateWindow(c.subject, BucketFor(c, s.gates, subject), PassesOf(s, subject), s.clock,
               AdmittedFor(calls, subject, from, from + w), at, from, w);
  }

  // The slots taken are exactly the running calls, never more than there are; a call that waits
  // for a slot gets one exactly when one is free.
  lemma SlotsAreRunningCalls(c: Config, events: seq<Event>, id: CallId)
    requires Run(c, events).Some?
    ensures var s := Run(c, events).value;
      && 0 <= s.gates.inflight == |RunningSet(s.calls)| <= c.maxInflight
      && (Enabled(s, TrySlot(id)) ==>
            (Apply(c, s, TrySlot(id)).calls[id].Running? <==> |RunningSet(s.calls)| < c.maxInflight))
  {
    RunInv(c, events);
  }

  // acquire, uninterrupted, is the run of its three gates.
  lemma AcquireIsARun(c: Config, s: State, id: CallId, identity: Option<string>, atGlobal: real, atSubject: real)
    requires id !in s.calls && s.clock <= atGlobal <= atSubject
    ensures
      var arrived := Apply(c, s, Arrive(id, CALL_TOOL, identity, atGlobal));
      var asked := if arrived.calls[id].PastGlobal? then Apply(c, arrived, TrySubject(id, atSubject)) else arrived;
      var ended := if asked.calls[id].PastSubject? then Apply(c, asked, TrySlot(id)) else asked;
      var (gates, kind) := Acquired(c, s.gates, SubjectOf(identity), atGlobal, atSubject);
      && ended.gates == gates
      && (kind.None? <==> ended.calls[id].Running?)
      && (kind.Some? ==> ended.calls[id] == Refused(SubjectOf(identity), kind.value))
  {
  }

  // A call gives its slot back once, by ending, and no other call ever does.
  lemma {:induction false} ReleasedOnce(c: Config, events: seq<Event>, id: CallId)
    requires Run(c, events).Some?
    ensures var calls := Run(c, events).value.calls;
      multiset(events)[Finish(id)] == if id in calls && calls[id].Ended? then 1 else 0
  {
    if events != [] {
      var n := |events| - 1;
      ReleasedOnce(c, events[..n], id);
      assert events == events[..n] + [events[n]];
      assert multiset(events) == multiset(events[..n]) + multiset{events[n]};
    }
  }

  // A call passes a rate gate exactly when its pass leaves every window of that gate's passes
  // within bounds: of all passes at the global gate, and of its own subject's alone at the other.
  lemma GatesAreExact(c: Config, events: seq<Event>, e: Event)
    requires Run(c, events).Some? && Enabled(Run(c, events).value, e)
    ensures var s := Run(c, events).value;
      var call := Apply(c, s, e).calls[e.id];
      && (e.Arrive? && e.name == CALL_TOOL ==> (call.PastGlobal? <==> Fits(c.global, Times(s.globalPasses), e.now)))
      && (e.TrySubject? ==>
            (call.PastSubject? <==> Fits(c.subject, Times(PassesOf(s, s.calls[e.id].subject)), e.now)))
  {
    RunInv(c, events);
    var s := Run(c, events).value;
    match e
    case Arrive(id, _, _, now) =>
      GrantedExactlyWhenItFits(c.global, Times(s.globalPasses), now);
    case TrySubject(id, now) =>
      var passes := PassesOf(s, s.calls[id].subject);
      assert Ordered(Times(passes), s.clock);
      GrantedExactlyWhenItFits(c.subject, Times(passes), now);
    case _ =>
  }

  // The global passes are those of every call that got past the gate, whatever became of it later:
  // a call refused for its subject's rate or for want of a slot has still spent a global token.
  lemma {:induction false} RefusedCallsSpentTheirToken(c: Config, events: seq<Event>, id: CallId, subject: string)
    requires Run(c, events).Some?
    ensures var s := Run(c, events).value;
      && (id in CallsOf(s.globalPasses) <==> id in s.calls && SpentGlobal(s.calls[id]))
      && (id in CallsOf(PassesOf(s, subject)) <==> id in s.calls && SpentSubject(s.calls[id], subject))
  {
    RunInv(c, events);
    assert GlobalExact(Run(c, events).value, id) && SubjectExact(Run(c, events).value, id, subject);
  }
}
