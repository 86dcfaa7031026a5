// The erasure theorem for a fixed tie-break. The map order by which Go picks among equally old
// entries is fixed here to an arbitrary injective ranking of IDs, so that a run has one outcome.
module IssuedRanking {
  import opened IssuedErasure
  import opened IssuedSpec
  import opened Sets

  type Ranking = Id -> int

  ghost predicate Injective(rank: Ranking) {
    forall i, j :: rank(i) == rank(j) ==> i == j
  }

  predicate Newer(b: Bucket, rank: Ranking, j: Id, id: Id)
    requires j in b && id in b
  {
    b[j] > b[id] || (b[j] == b[id] && rank(j) > rank(id))
  }

  function NewerThan(b: Bucket, rank: Ranking, id: Id): set<Id>
    requires id in b
  {
    set j | j in b && Newer(b, rank, j, id)
  }

  // The max newest entries of b.
  function Keep(b: Bucket, max: nat, rank: Ranking): Bucket {
    map id | id in b && |NewerThan(b, rank, id)| < max :: b[id]
  }

  // ---------------------------------------------------------------- Keep is an eviction

  lemma {:induction false} Oldest(b: Bucket, rank: Ranking) returns (o: Id)
    requires b != map[] && Injective(rank)
    ensures o in b && forall j :: j in b && j != o ==> Newer(b, rank, j, o)
    decreases |b|
  {
    var k :| k in b;
    var rest := b - {k};
    assert b.Keys == rest.Keys + {k};
    if rest == map[] {
      o := k;
    } else {
      var p := Oldest(rest, rank);
      o := if Newer(b, rank, k, p) then p else k;
    }
  }

  lemma KeepAll(b: Bucket, max: nat, rank: Ranking)
    requires |b| <= max
    ensures Keep(b, max, rank) == b
  {
    forall id | id in b ensures |NewerThan(b, rank, id)| < max {
      SubsetSize(NewerThan(b, rank, id) + {id}, b.Keys);
    }
  }

  lemma {:induction false} KeepSize(b: Bucket, max: nat, rank: Ranking)
    requires Injective(rank)
    ensures |Keep(b, max, rank)| == if |b| <= max then |b| else max
    decreases |b|
  {
    if |b| <= max {
      KeepAll(b, max, rank);
    } else {
      var o := Oldest(b, rank);
      DropOldest(b, max, rank, o);
      DropSize(b, o);
      KeepSize(b - {o}, max, rank);
    }
  }

  lemma DropSize(b: Bucket, o: Id)
    requires o in b
    ensures |b - {o}| == |b| - 1
  {
    assert b.Keys == (b - {o}).Keys + {o};
  }

  // One turn of the eviction loop does not change what is kept.
  lemma DropOldest(b: Bucket, max: nat, rank: Ranking, o: Id)
    requires o in b && (forall j :: j in b && j != o ==> Newer(b, rank, j, o)) && |b| > max
    ensures Keep(b, max, rank) == Keep(b - {o}, max, rank)
  {
    var rest := b - {o};
    assert b.Keys == rest.Keys + {o};
    assert NewerThan(b, rank, o) == rest.Keys;
    forall id | id in rest ensures NewerThan(b, rank, id) == NewerThan(rest, rank, id) {
    }
  }

  // Keeping the newest entries is one of the outcomes eviction allows.
  lemma {:induction false} KeepTrims(b: Bucket, max: nat, rank: Ranking)
    requires Injective(rank)
    ensures Trimmed(b, Keep(b, max, rank), max)
  {
    KeepSize(b, max, rank);
    var b' := Keep(b, max, rank);
    forall id, j | id in b' && j in b && j !in b' ensures b[j] <= b[id] {
      if b[j] > b[id] {
        SubsetSize(NewerThan(b, rank, j), NewerThan(b, rank, id));
      }
    }
  }

  // ---------------------------------------------------------------- only young entries matter

  lemma KeepYoung(b: Bucket, max: nat, rank: Ranking, ttl: int, now: int)
    ensures Young(Keep(b, max, rank), ttl, now) == Keep(Young(b, ttl, now), max, rank)
  {
    var y := Young(b, ttl, now);
    forall id | id in y ensures NewerThan(b, rank, id) == NewerThan(y, rank, id) {
    }
  }

  // ---------------------------------------------------------------- deterministic runs

  function Apply(cfg: Settings, st: Buckets, op: Op, rank: Ranking): Buckets {
    match op
    case Record(subject, ids, now) =>
      if subject == "" then st
      else st[subject := Keep(Stamped(BucketOf(st, subject), ids, now), EffectiveMax(cfg.maxPerIdentity), rank)]
    case Check(subject, id, now) => AfterCheck(cfg, st, subject, id, now)
  }

  function Run(cfg: Settings, ops: seq<Op>, rank: Ranking): Buckets {
    if ops == [] then map[]
    else Apply(cfg, Run(cfg, ops[..|ops| - 1], rank), ops[|ops| - 1], rank)
  }

  lemma {:induction false} ApplyIsAStep(cfg: Settings, st: Buckets, op: Op, rank: Ranking)
    requires Injective(rank)
    ensures OpStep(cfg, st, Apply(cfg, st, op, rank), op)
  {
    if op.Record? {
      KeepTrims(Stamped(BucketOf(st, op.subject), op.ids, op.now), EffectiveMax(cfg.maxPerIdentity), rank);
    }
  }

  // What Run computes is a run of the store.
  lemma {:induction false} RunIsARun(cfg: Settings, ops: seq<Op>, rank: Ranking) returns (states: seq<Buckets>)
    requires Injective(rank)
    ensures IsRun(cfg, ops, states) && states[|ops|] == Run(cfg, ops, rank)
  {
    if ops == [] {
      return [map[]];
    }
    var n := |ops| - 1;
    states := RunIsARun(cfg, ops[..n], rank);
    ApplyIsAStep(cfg, states[n], ops[n], rank);
    ExtendRun(cfg, ops[..n], states, ops[n], Apply(cfg, states[n], ops[n], rank));
    assert ops == ops[..n] + [ops[n]];
    states := states + [Apply(cfg, states[n], ops[n], rank)];
  }

  lemma {:induction false} RecordYoung(b: Bucket, d: Bucket, ids: seq<Id>, cfg: Settings, rank: Ranking, now: int)
    requires Young(b, cfg.ttl, now) == Young(d, cfg.ttl, now)
    ensures
      var max := EffectiveMax(cfg.maxPerIdentity);
      Young(Keep(Stamped(b, ids, now), max, rank), cfg.ttl, now) ==
          Young(Keep(Stamped(d, ids, now), max, rank), cfg.ttl, now)
  {
    var max := EffectiveMax(cfg.maxPerIdentity);
    KeepYoung(Stamped(b, ids, now), max, rank, cfg.ttl, now);
    KeepYoung(Stamped(d, ids, now), max, rank, cfg.ttl, now);
    StampYoung(b, ids, cfg.ttl, now);
    StampYoung(d, ids, cfg.ttl, now);
  }

  // Whatever is not the subject's own recording leaves its unexpired entries alone.
  lemma OthersYoung(cfg: Settings, st: Buckets, op: Op, subject: string, rank: Ranking)
    requires subject != "" && !Records(op, subject)
    ensures SameYoung(BucketOf(st, subject), BucketOf(Apply(cfg, st, op, rank), subject), cfg.ttl, op.now)
  {
  }

  lemma OwnYoung(cfg: Settings, st: Buckets, e: Buckets, op: Op, subject: string, rank: Ranking)
    requires subject != "" && Records(op, subject)
    requires SameYoung(BucketOf(st, subject), BucketOf(e, subject), cfg.ttl, op.now)
    ensures SameYoung(BucketOf(Apply(cfg, st, op, rank), subject), BucketOf(Apply(cfg, e, op, rank), subject),
                      cfg.ttl, op.now)
  {
    RecordYoung(BucketOf(st, subject), BucketOf(e, subject), op.ids, cfg, rank, op.now);
  }

  lemma RunNext(cfg: Settings, ops: seq<Op>, op: Op, rank: Ranking)
    ensures Run(cfg, ops + [op], rank) == Apply(cfg, Run(cfg, ops, rank), op, rank)
  {
    assert (ops + [op])[..|ops|] == ops;
  }

  lemma {:induction false} ErasureKeepsYoung(cfg: Settings, ops: seq<Op>, subject: string, rank: Ranking, now: int)
    requires InOrder(ops, now) && subject != ""
    ensures SameYoung(BucketOf(Run(cfg, ops, rank), subject),
                      BucketOf(Run(cfg, Erased(ops, subject), rank), subject), cfg.ttl, now)
  {
    if ops != [] {
      var n := |ops| - 1;
      var op, mine := ops[n], Erased(ops[..n], subject);
      var st, e := Run(cfg, ops[..n], rank), Run(cfg, mine, rank);
      ErasureKeepsYoung(cfg, ops[..n], subject, rank, op.now);
      if Records(op, subject) {
        OwnYoung(cfg, st, e, op, subject, rank);
        RunNext(cfg, mine, op, rank);
      } else {
        OthersYoung(cfg, st, op, subject, rank);
      }
      YoungLater(BucketOf(Run(cfg, ops, rank), subject), cfg.ttl, op.now, now);
      YoungLater(BucketOf(Run(cfg, Erased(ops, subject), rank), subject), cfg.ttl, op.now, now);
    }
  }

  // Under a fixed ranking, two runs in which a subject made the same Record calls answer it alike, whatever Check
  // calls and whatever operations of other subjects they interleave.
  lemma {:induction false} FixedOrderErasure(cfg: Settings, ops: seq<Op>, ops': seq<Op>, subject: string,
                                             rank: Ranking, id: Id, now: int)
    requires InOrder(ops, now) && InOrder(ops', now) && Erased(ops, subject) == Erased(ops', subject)
    ensures CheckAnswer(cfg, Run(cfg, ops, rank), subject, id, now) <==>
        CheckAnswer(cfg, Run(cfg, ops', rank), subject, id, now)
  {
    if subject != "" {
      ErasureKeepsYoung(cfg, ops, subject, rank, now);
      ErasureKeepsYoung(cfg, ops', subject, rank, now);
      YoungAnswers(cfg, Run(cfg, ops, rank), Run(cfg, ops', rank), subject, now);
    }
  }
}
