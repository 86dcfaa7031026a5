// Neither the lazy deletion in Check nor the calls of other identities can be observed, in
// whatever order Go walks its maps: for every run there is one without them, and for every run
// without them one with them, after which the subject gets the same answers.
module IssuedErasure {
  import opened IssuedSpec
  import opened Sets

  // ---------------------------------------------------------------- only young entries matter

  function Young(b: Bucket, ttl: int, now: int): Bucket {
    map id | id in b && !IsExpired(ttl, b[id], now) :: b[id]
  }

  lemma StampYoung(b: Bucket, ids: seq<Id>, ttl: int, now: int)
    ensures Young(Stamped(b, ids, now), ttl, now) ==
            if ttl <= 0 then map[] else Stamped(Young(b, ttl, now), ids, now)
  {
  }

  // Time only takes young entries away.
  lemma YoungLater(b: Bucket, ttl: int, now: int, later: int)
    requires now <= later
    ensures Young(b, ttl, later) == Young(Young(b, ttl, now), ttl, later)
  {
  }

  // What subject itself recorded: no Check calls, nobody else's operations.
  function Erased(ops: seq<Op>, subject: string): seq<Op> {
    if ops == [] then []
    else
      var before, op := Erased(ops[..|ops| - 1], subject), ops[|ops| - 1];
      if op.Record? && op.subject == subject then before + [op] else before
  }

  // ---------------------------------------------------------------- one eviction can follow another

  ghost predicate SameYoung(b: Bucket, d: Bucket, ttl: int, now: int) {
    Young(b, ttl, now) == Young(d, ttl, now)
  }

  // Eviction always has an outcome.
  lemma {:induction false} SomeTrim(b: Bucket, max: nat) returns (b': Bucket)
    ensures Trimmed(b, b', max)
    decreases |b|
  {
    if |b| <= max {
      b' := b;
    } else {
      var o := SomeOldest(b);
      var rest := b - {o};
      assert b.Keys == rest.Keys + {o};
      b' := SomeTrim(rest, max);
    }
  }

  lemma {:induction false} SomeOldest(b: Bucket) returns (o: Id)
    requires b != map[]
    ensures o in b && forall j :: j in b ==> b[o] <= b[j]
    decreases |b|
  {
    var k :| k in b;
    var rest := b - {k};
    assert b.Keys == rest.Keys + {k};
    if rest == map[] {
      o := k;
    } else {
      var p := SomeOldest(rest);
      o := if b[p] <= b[k] then p else k;
    }
  }

  // When eviction reaches an unexpired entry, only unexpired entries are left.
  lemma TrimmedToYoung(b: Bucket, b': Bucket, max: nat, ttl: int, now: int, y: Id)
    requires Trimmed(b, b', max) && y in Young(b, ttl, now) && y !in b'
    ensures |b'| == max && forall id :: id in b' ==> id in Young(b, ttl, now)
  {
    if |b'| == |b| {
      SubsetSize(b'.Keys + {y}, b.Keys);
    }
  }

  // As long as there is room for the unexpired entries, they stay.
  lemma YoungStay(b: Bucket, b': Bucket, max: nat, ttl: int, now: int)
    requires Trimmed(b, b', max) && |Young(b, ttl, now)| <= max
    ensures Young(b', ttl, now) == Young(b, ttl, now)
  {
    if y :| y in Young(b, ttl, now) && y !in b' {
      TrimmedToYoung(b, b', max, ttl, now, y);
      SubsetSize(b'.Keys + {y}, Young(b, ttl, now).Keys);
    }
  }

  // Buckets with the same unexpired entries can be trimmed to buckets with the same ones.
  lemma MatchTrim(b: Bucket, b': Bucket, d: Bucket, max: nat, ttl: int, now: int) returns (d': Bucket)
    requires Trimmed(b, b', max) && SameYoung(b, d, ttl, now)
    ensures Trimmed(d, d', max) && SameYoung(b', d', ttl, now)
  {
    var young := Young(b, ttl, now);
    if |young| <= max {
      d' := SomeTrim(d, max);
      YoungStay(b, b', max, ttl, now);
      YoungStay(d, d', max, ttl, now);
    } else {
      SubsetSize(young.Keys, d.Keys);
      if young.Keys <= b'.Keys {
        SubsetSize(young.Keys, b'.Keys);
        assert false;
      }
      var y :| y in young && y !in b';
      TrimmedToYoung(b, b', max, ttl, now, y);
      d' := b';
      TrimsAlike(b, b', d, max, ttl, now);
    }
  }

  lemma TrimsAlike(b: Bucket, b': Bucket, d: Bucket, max: nat, ttl: int, now: int)
    requires Trimmed(b, b', max) && SameYoung(b, d, ttl, now) && |b'| == max <= |d|
    requires forall id :: id in b' ==> id in Young(b, ttl, now)
    ensures Trimmed(d, b', max)
  {
    forall id | id in b' ensures id in d && b'[id] == d[id] {
      assert id in Young(d, ttl, now);
    }
    forall id, j | id in b' && j in d && j !in b' ensures d[j] <= d[id] {
      assert id in Young(d, ttl, now);
      if !IsExpired(ttl, d[j], now) {
        assert j in Young(d, ttl, now);
        assert j in Young(b, ttl, now);
      }
    }
  }

  // ---------------------------------------------------------------- one operation

  predicate Records(op: Op, subject: string) {
    op.Record? && op.subject == subject
  }

  lemma MatchRecord(cfg: Settings, st: Buckets, st': Buckets, e: Buckets, op: Op, subject: string) returns (e': Buckets)
    requires subject != "" && Records(op, subject) && OpStep(cfg, st, st', op)
    requires SameYoung(BucketOf(st, subject), BucketOf(e, subject), cfg.ttl, op.now)
    ensures OpStep(cfg, e, e', op) && SameYoung(BucketOf(st', subject), BucketOf(e', subject), cfg.ttl, op.now)
  {
    var b, d := Stamped(BucketOf(st, subject), op.ids, op.now), Stamped(BucketOf(e, subject), op.ids, op.now);
    StampYoung(BucketOf(st, subject), op.ids, cfg.ttl, op.now);
    StampYoung(BucketOf(e, subject), op.ids, cfg.ttl, op.now);
    var d' := MatchTrim(b, st'[subject], d, EffectiveMax(cfg.maxPerIdentity), cfg.ttl, op.now);
    e' := e[subject := d'];
  }

  lemma OthersUnseen(cfg: Settings, st: Buckets, st': Buckets, op: Op, subject: string)
    requires subject != "" && !Records(op, subject) && OpStep(cfg, st, st', op)
    ensures SameYoung(BucketOf(st, subject), BucketOf(st', subject), cfg.ttl, op.now)
  {
  }

  lemma SomeStep(cfg: Settings, st: Buckets, op: Op) returns (st': Buckets)
    ensures OpStep(cfg, st, st', op)
  {
    if op.Check? {
      st' := AfterCheck(cfg, st, op.subject, op.id, op.now);
    } else if op.subject == "" {
      st' := st;
    } else {
      var b := SomeTrim(Stamped(BucketOf(st, op.subject), op.ids, op.now), EffectiveMax(cfg.maxPerIdentity));
      st' := st[op.subject := b];
    }
  }

  // ---------------------------------------------------------------- whole runs

  // The operations, one after the other, can lead from the empty store to st.
  ghost predicate Leads(cfg: Settings, ops: seq<Op>, st: Buckets) {
    if ops == [] then st == map[]
    else
      var init, op := ops[..|ops| - 1], ops[|ops| - 1];
      exists before :: Leads(cfg, init, before) && OpStep(cfg, before, st, op)
  }

  lemma LeadsOn(cfg: Settings, ops: seq<Op>, before: Buckets, op: Op, st: Buckets)
    requires Leads(cfg, ops, before) && OpStep(cfg, before, st, op)
    ensures Leads(cfg, ops + [op], st)
  {
    assert (ops + [op])[..|ops|] == ops;
  }

  lemma {:induction false} RunLeads(cfg: Settings, ops: seq<Op>, states: seq<Buckets>, n: nat)
    requires IsRun(cfg, ops, states) && n <= |ops|
    ensures Leads(cfg, ops[..n], states[n])
  {
    if n > 0 {
      RunLeads(cfg, ops, states, n - 1);
      assert OpStep(cfg, states[n - 1], states[n - 1 + 1], ops[n - 1]);
      LeadsOn(cfg, ops[..n - 1], states[n - 1], ops[n - 1], states[n]);
      assert ops[..n] == ops[..n - 1] + [ops[n - 1]];
    }
  }

  lemma {:induction false} LeadsIsRun(cfg: Settings, ops: seq<Op>, st: Buckets) returns (states: seq<Buckets>)
    requires Leads(cfg, ops, st)
    ensures IsRun(cfg, ops, states) && states[|ops|] == st
  {
    if ops == [] {
      return [st];
    }
    var init, op := ops[..|ops| - 1], ops[|ops| - 1];
    var before :| Leads(cfg, init, before) && OpStep(cfg, before, st, op);
    var sofar := LeadsIsRun(cfg, init, before);
    ExtendRun(cfg, init, sofar, op, st);
    assert ops == init + [op];
    states := sofar + [st];
  }

  lemma InOrderPrefix(ops: seq<Op>, now: int)
    requires ops != [] && InOrder(ops, now)
    ensures InOrder(ops[..|ops| - 1], ops[|ops| - 1].now) && ops[|ops| - 1].now <= now
  {
  }

  lemma SameYoungLater(b: Bucket, d: Bucket, ttl: int, now: int, later: int)
    requires SameYoung(b, d, ttl, now) && now <= later
    ensures SameYoung(b, d, ttl, later)
  {
    YoungLater(b, ttl, now, later);
    YoungLater(d, ttl, now, later);
  }

  // One operation more, on both sides if it is the subject's own recording.
  lemma EraseStep(cfg: Settings, st: Buckets, st': Buckets, e: Buckets, op: Op, subject: string) returns (e': Buckets)
    requires subject != "" && OpStep(cfg, st, st', op)
    requires SameYoung(BucketOf(st, subject), BucketOf(e, subject), cfg.ttl, op.now)
    ensures if Records(op, subject) then OpStep(cfg, e, e', op) else e' == e
    ensures SameYoung(BucketOf(st', subject), BucketOf(e', subject), cfg.ttl, op.now)
  {
    if Records(op, subject) {
      e' := MatchRecord(cfg, st, st', e, op, subject);
    } else {
      OthersUnseen(cfg, st, st', op, subject);
      e' := e;
    }
  }

  lemma InsertStep(cfg: Settings, st: Buckets, e: Buckets, e': Buckets, op: Op, subject: string) returns (st': Buckets)
    requires subject != "" && SameYoung(BucketOf(st, subject), BucketOf(e, subject), cfg.ttl, op.now)
    requires if Records(op, subject) then OpStep(cfg, e, e', op) else e' == e
    ensures OpStep(cfg, st, st', op) && SameYoung(BucketOf(st', subject), BucketOf(e', subject), cfg.ttl, op.now)
  {
    if Records(op, subject) {
      st' := MatchRecord(cfg, e, e', st, op, subject);
    } else {
      st' := SomeStep(cfg, st, op);
      OthersUnseen(cfg, st, st', op, subject);
    }
  }

  // Where any run leads, a run of the subject's own recordings alone can lead as well, as far as
  // unexpired entries of the subject go.
  lemma {:induction false} EraseRun(cfg: Settings, ops: seq<Op>, st: Buckets, subject: string,
                                    now: int) returns (e: Buckets)
    requires subject != "" && Leads(cfg, ops, st) && InOrder(ops, now)
    ensures Leads(cfg, Erased(ops, subject), e) && SameYoung(BucketOf(st, subject), BucketOf(e, subject), cfg.ttl, now)
  {
    if ops == [] {
      return map[];
    }
    var init, op := ops[..|ops| - 1], ops[|ops| - 1];
    var before :| Leads(cfg, init, before) && OpStep(cfg, before, st, op);
    InOrderPrefix(ops, now);
    var mine := EraseRun(cfg, init, before, subject, op.now);
    e := EraseStep(cfg, before, st, mine, op, subject);
    if Records(op, subject) {
      LeadsOn(cfg, Erased(init, subject), mine, op, e);
    }
    SameYoungLater(BucketOf(st, subject), BucketOf(e, subject), cfg.ttl, op.now, now);
  }

  // And the other way: where a run of the subject's own recordings leads, a run with all else
  // inserted can lead.
  lemma {:induction false} InsertRun(cfg: Settings, ops: seq<Op>, e: Buckets, subject: string,
                                     now: int) returns (st: Buckets)
    requires subject != "" && Leads(cfg, Erased(ops, subject), e) && InOrder(ops, now)
    ensures Leads(cfg, ops, st) && SameYoung(BucketOf(st, subject), BucketOf(e, subject), cfg.ttl, now)
  {
    if ops == [] {
      return map[];
    }
    var init, op := ops[..|ops| - 1], ops[|ops| - 1];
    var mine := ErasedBefore(cfg, ops, e, subject);
    InOrderPrefix(ops, now);
    var before := InsertRun(cfg, init, mine, subject, op.now);
    st := InsertStep(cfg, before, mine, e, op, subject);
    LeadsOn(cfg, init, before, op, st);
    assert ops == init + [op];
    SameYoungLater(BucketOf(st, subject), BucketOf(e, subject), cfg.ttl, op.now, now);
  }

  lemma ErasedBefore(cfg: Settings, ops: seq<Op>, e: Buckets, subject: string) returns (mine: Buckets)
    requires ops != [] && Leads(cfg, Erased(ops, subject), e)
    ensures Leads(cfg, Erased(ops[..|ops| - 1], subject), mine)
    ensures if Records(ops[|ops| - 1], subject) then OpStep(cfg, mine, e, ops[|ops| - 1]) else e == mine
  {
    var erased, op := Erased(ops[..|ops| - 1], subject), ops[|ops| - 1];
    if Records(op, subject) {
      assert Erased(ops, subject)[..|erased|] == erased;
      mine :| Leads(cfg, erased, mine) && OpStep(cfg, mine, e, op);
    } else {
      mine := e;
    }
  }

  lemma {:induction false} SomeRun(cfg: Settings, ops: seq<Op>) returns (st: Buckets)
    ensures Leads(cfg, ops, st)
  {
    if ops == [] {
      return map[];
    }
    var init, op := ops[..|ops| - 1], ops[|ops| - 1];
    var before := SomeRun(cfg, init);
    st := SomeStep(cfg, before, op);
    LeadsOn(cfg, init, before, op, st);
    assert ops == init + [op];
  }

  lemma YoungAnswers(cfg: Settings, st: Buckets, e: Buckets, subject: string, now: int)
    requires SameYoung(BucketOf(st, subject), BucketOf(e, subject), cfg.ttl, now)
    ensures forall id :: CheckAnswer(cfg, st, subject, id, now) <==> CheckAnswer(cfg, e, subject, id, now)
  {
    forall id ensures CheckAnswer(cfg, st, subject, id, now) <==> CheckAnswer(cfg, e, subject, id, now) {
      assert id in Young(BucketOf(st, subject), cfg.ttl, now) <==> id in Young(BucketOf(e, subject), cfg.ttl, now);
    }
  }

  // Two histories in which the subject made the same recordings can lead to the same answers.
  lemma SameAnswersPossible(cfg: Settings, ops: seq<Op>, st: Buckets, ops': seq<Op>, subject: string, now: int)
    returns (st': Buckets)
    requires Leads(cfg, ops, st) && InOrder(ops, now) && InOrder(ops', now)
    requires Erased(ops, subject) == Erased(ops', subject)
    ensures Leads(cfg, ops', st')
    ensures forall id :: CheckAnswer(cfg, st, subject, id, now) <==> CheckAnswer(cfg, st', subject, id, now)
  {
    if subject == "" {
      st' := SomeRun(cfg, ops');
    } else {
      var e := EraseRun(cfg, ops, st, subject, now);
      st' := InsertRun(cfg, ops', e, subject, now);
      YoungAnswers(cfg, st, st', subject, now);
    }
  }

  // If a subject made the same recordings in two histories, then whatever a run of the first
  // answers it for its IDs, a run of the second can answer: Check calls and other subjects'
  // operations, anywhere in either, make no difference. Map order is free at every eviction.
  lemma ChecksAndOthersAreInvisible(cfg: Settings, ops: seq<Op>, states: seq<Buckets>, ops': seq<Op>, subject: string,
                                    now: int)
    returns (states': seq<Buckets>)
    requires IsRun(cfg, ops, states) && InOrder(ops, now) && InOrder(ops', now)
    requires Erased(ops, subject) == Erased(ops', subject)
    ensures IsRun(cfg, ops', states')
    ensures forall id ::
      CheckAnswer(cfg, states[|ops|], subject, id, now) <==> CheckAnswer(cfg, states'[|ops'|], subject, id, now)
  {
    RunLeads(cfg, ops, states, |ops|);
    assert ops[..|ops|] == ops;
    var st' := SameAnswersPossible(cfg, ops, states[|ops|], ops', subject, now);
    states' := LeadsIsRun(cfg, ops', st');
  }
}
