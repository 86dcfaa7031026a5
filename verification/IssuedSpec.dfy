// The issued-ID store of internal/issued/issued.go as relations on its buckets, and the
// unbounded history it has to agree with: for each ID, when it was last recorded.
module IssuedSpec {
  import opened Sets

  type Id = string
  type Bucket = map<Id, int>
  type Buckets = map<string, Bucket>

  datatype Settings = Settings(ttl: int, maxPerIdentity: int)

  function EffectiveMax(maxPerIdentity: int): nat {
    if maxPerIdentity < 0 then 0 else maxPerIdentity
  }

  predicate IsExpired(ttl: int, recorded: int, now: int) {
    ttl <= 0 || now - recorded > ttl
  }

  function BucketOf(st: Buckets, subject: string): Bucket {
    if subject in st then st[subject] else map[]
  }

  // The IDs a Record call takes in: all but the empty one.
  function Named(ids: seq<Id>): set<Id> {
    set id | id in ids && id != ""
  }

  // b with ids recorded at now.
  function Stamped(b: Bucket, ids: seq<Id>, now: int): Bucket {
    map id | id in b.Keys + Named(ids) :: if id in Named(ids) then now else b[id]
  }

  // b' is b after evicting oldest entries until at most max are left; which of several
  // equally old entries go is open.
  ghost predicate Trimmed(b: Bucket, b': Bucket, max: nat) {
    && (forall id :: id in b' ==> id in b && b'[id] == b[id])
    && |b'| == (if |b| <= max then |b| else max)
    && (forall id, j :: id in b' && j in b && j !in b' ==> b[j] <= b[id])
  }

  ghost predicate RecordStep(cfg: Settings, st: Buckets, st': Buckets, subject: string, ids: seq<Id>, now: int) {
    if subject == "" then st' == st
    else
      && subject in st'
      && Trimmed(Stamped(BucketOf(st, subject), ids, now), st'[subject], EffectiveMax(cfg.maxPerIdentity))
      && st' == st[subject := st'[subject]]
  }

  // What Check answers.
  predicate CheckAnswer(cfg: Settings, st: Buckets, subject: string, id: Id, now: int) {
    && subject != "" && id != ""
    && id in BucketOf(st, subject) && !IsExpired(cfg.ttl, BucketOf(st, subject)[id], now)
  }

  // Check removes an entry it finds expired.
  function AfterCheck(cfg: Settings, st: Buckets, subject: string, id: Id, now: int): Buckets {
    if subject != "" && id != "" && id in BucketOf(st, subject) && IsExpired(cfg.ttl, st[subject][id], now)
    then st[subject := st[subject] - {id}] else st
  }

  // ---------------------------------------------------------------- runs

  datatype Op =
    | Record(subject: string, ids: seq<Id>, now: int)
    | Check(subject: string, id: Id, now: int)

  ghost predicate OpStep(cfg: Settings, st: Buckets, st': Buckets, op: Op) {
    match op
    case Record(subject, ids, now) => RecordStep(cfg, st, st', subject, ids, now)
    case Check(subject, id, now) => st' == AfterCheck(cfg, st, subject, id, now)
  }

  // The clock does not go backwards and has not passed `now`.
  ghost predicate InOrder(ops: seq<Op>, now: int) {
    && (forall i, j :: 0 <= i < j < |ops| ==> ops[i].now <= ops[j].now)
    && (forall i :: 0 <= i < |ops| ==> ops[i].now <= now)
  }

  ghost predicate IsRun(cfg: Settings, ops: seq<Op>, states: seq<Buckets>) {
    && |states| == |ops| + 1
    && states[0] == map[]
    && forall i :: 0 <= i < |ops| ==> OpStep(cfg, states[i], states[i + 1], ops[i])
  }

  lemma ExtendRun(cfg: Settings, ops: seq<Op>, states: seq<Buckets>, op: Op, st: Buckets)
    requires IsRun(cfg, ops, states) && OpStep(cfg, states[|ops|], st, op)
    ensures IsRun(cfg, ops + [op], states + [st])
  {
    var more, after := ops + [op], states + [st];
    forall i | 0 <= i < |more| ensures OpStep(cfg, after[i], after[i + 1], more[i]) {
      if i < |ops| {
        assert OpStep(cfg, states[i], states[i + 1], ops[i]);
      }
    }
  }

  // When each ID was last recorded for subject, with no bound and no expiry.
  function LastRecorded(ops: seq<Op>, subject: string): Bucket {
    if ops == [] then map[]
    else
      var before, op := LastRecorded(ops[..|ops| - 1], subject), ops[|ops| - 1];
      if op.Record? && op.subject == subject && subject != "" then Stamped(before, op.ids, op.now) else before
  }

  // The other IDs recorded at the same time as id or later; and strictly later.
  function AtOrAfter(h: Bucket, id: Id): set<Id>
    requires id in h
  {
    set j | j in h && j != id && h[j] >= h[id]
  }

  function Later(h: Bucket, id: Id): set<Id>
    requires id in h
  {
    set j | j in h && h[j] > h[id]
  }

  // ---------------------------------------------------------------- agreement with history

  // The bucket b is what the cap and the TTL leave of the history h.
  ghost predicate Agrees(cfg: Settings, b: Bucket, h: Bucket, now: int) {
    && |b| <= EffectiveMax(cfg.maxPerIdentity)
    && AgreesUncapped(cfg, b, h, now)
  }

  ghost predicate AgreesUncapped(cfg: Settings, b: Bucket, h: Bucket, now: int) {
    && (forall id :: id in b ==> id in h && h[id] == b[id])
    && (forall j :: j in h ==> h[j] <= now)
    && (forall id, j :: id in b && j in h && h[j] > h[id] ==> j in b || IsExpired(cfg.ttl, h[j], now))
    && (forall id :: id in h && id !in b ==>
          IsExpired(cfg.ttl, h[id], now) || |AtOrAfter(h, id)| >= EffectiveMax(cfg.maxPerIdentity))
  }

  lemma {:induction false} StampAgrees(cfg: Settings, b: Bucket, h: Bucket, ids: seq<Id>, now: int)
    requires AgreesUncapped(cfg, b, h, now)
    ensures AgreesUncapped(cfg, Stamped(b, ids, now), Stamped(h, ids, now), now)
  {
    var b', h' := Stamped(b, ids, now), Stamped(h, ids, now);
    forall id | id in h' && id !in b'
      ensures IsExpired(cfg.ttl, h'[id], now) || |AtOrAfter(h', id)| >= EffectiveMax(cfg.maxPerIdentity)
    {
      SubsetSize(AtOrAfter(h, id), AtOrAfter(h', id));
    }
  }

  lemma TrimAgrees(cfg: Settings, b: Bucket, b': Bucket, h: Bucket, now: int)
    requires AgreesUncapped(cfg, b, h, now) && Trimmed(b, b', EffectiveMax(cfg.maxPerIdentity))
    ensures Agrees(cfg, b', h, now)
  {
    forall id | id in h && id !in b'
      ensures IsExpired(cfg.ttl, h[id], now) || |AtOrAfter(h, id)| >= EffectiveMax(cfg.maxPerIdentity)
    {
      if id in b {
        if |b| <= EffectiveMax(cfg.maxPerIdentity) {
          SubsetSize(b'.Keys + {id}, b.Keys);
        } else {
          SubsetSize(b'.Keys, AtOrAfter(h, id));
        }
      }
    }
  }

  lemma {:induction false} OpAgrees(cfg: Settings, st: Buckets, st': Buckets, op: Op, h: Bucket, subject: string)
    requires subject != "" && OpStep(cfg, st, st', op) && Agrees(cfg, BucketOf(st, subject), h, op.now)
    ensures Agrees(cfg, BucketOf(st', subject),
                   if op.Record? && op.subject == subject then Stamped(h, op.ids, op.now) else h, op.now)
  {
    match op {
      case Record(s, ids, now) =>
        if s == subject {
          var b := BucketOf(st, subject);
          StampAgrees(cfg, b, h, ids, now);
          TrimAgrees(cfg, Stamped(b, ids, now), st'[subject], Stamped(h, ids, now), now);
        }
      case Check(s, id, now) =>
        if s == subject {
          SubsetSize(BucketOf(st', subject).Keys, BucketOf(st, subject).Keys);
        }
    }
  }

  lemma AgreesLater(cfg: Settings, b: Bucket, h: Bucket, now: int, later: int)
    requires Agrees(cfg, b, h, now) && now <= later
    ensures Agrees(cfg, b, h, later)
  {
  }

  lemma RecordedNext(ops: seq<Op>, subject: string, n: nat)
    requires subject != "" && n < |ops|
    ensures
      var h, op := LastRecorded(ops[..n], subject), ops[n];
      LastRecorded(ops[..n + 1], subject) ==
        if op.Record? && op.subject == subject then Stamped(h, op.ids, op.now) else h
  {
    assert ops[..n + 1][..n] == ops[..n];
  }

  lemma {:induction false} PrefixAgrees(cfg: Settings, ops: seq<Op>, states: seq<Buckets>, subject: string, n: nat,
                                        now: int)
    requires IsRun(cfg, ops, states) && subject != "" && n <= |ops|
    requires forall i, j :: 0 <= i < j < n ==> ops[i].now <= ops[j].now
    requires n > 0 ==> ops[n - 1].now <= now
    ensures Agrees(cfg, BucketOf(states[n], subject), LastRecorded(ops[..n], subject), now)
  {
    if n > 0 {
      var op := ops[n - 1];
      PrefixAgrees(cfg, ops, states, subject, n - 1, op.now);
      OpAgrees(cfg, states[n - 1], states[n - 1 + 1], op, LastRecorded(ops[..n - 1], subject), subject);
      RecordedNext(ops, subject, n - 1);
      AgreesLater(cfg, BucketOf(states[n], subject), LastRecorded(ops[..n], subject), op.now, now);
    }
  }

  lemma RunAgrees(cfg: Settings, ops: seq<Op>, states: seq<Buckets>, subject: string, now: int)
    requires IsRun(cfg, ops, states) && InOrder(ops, now) && subject != ""
    ensures Agrees(cfg, BucketOf(states[|ops|], subject), LastRecorded(ops, subject), now)
  {
    PrefixAgrees(cfg, ops, states, subject, |ops|, now);
    assert ops[..|ops|] == ops;
  }

  // In terms of the two settings: a bucket that holds anything is no larger than the cap, every
  // entry carries the time of its last recording, and an ID that is missing is expired or has been
  // followed by at least as many others as the cap.
  lemma BucketIsBounded(cfg: Settings, ops: seq<Op>, states: seq<Buckets>, subject: string, now: int)
    requires IsRun(cfg, ops, states) && InOrder(ops, now) && subject != ""
    ensures
      var h, b := LastRecorded(ops, subject), BucketOf(states[|ops|], subject);
      && (b != map[] ==> |b| <= cfg.maxPerIdentity)
      && (forall id :: id in b ==> id in h && b[id] == h[id])
      && (forall id :: id in h && id !in b ==>
            cfg.ttl <= 0 || now - h[id] > cfg.ttl || |AtOrAfter(h, id)| >= cfg.maxPerIdentity)
  {
    RunAgrees(cfg, ops, states, subject, now);
    var b := BucketOf(states[|ops|], subject);
    assert b != map[] ==> |b| > 0;
  }

  // ---------------------------------------------------------------- the two sides of Check

  // After every run: an ID that passes was last recorded at most ttl ago with fewer than
  // maxPerIdentity others recorded strictly later; and an ID that young with fewer than
  // maxPerIdentity others recorded at the same time or later passes.
  lemma CheckRefinesHistory(cfg: Settings, ops: seq<Op>, states: seq<Buckets>, subject: string, id: Id, now: int)
    requires IsRun(cfg, ops, states) && InOrder(ops, now) && subject != "" && id != ""
    ensures
      var h := LastRecorded(ops, subject);
      && (CheckAnswer(cfg, states[|ops|], subject, id, now) ==>
            && cfg.ttl > 0 && id in h && now - h[id] <= cfg.ttl
            && |Later(h, id)| < cfg.maxPerIdentity)
      && (cfg.ttl > 0 && id in h && now - h[id] <= cfg.ttl && |AtOrAfter(h, id)| < cfg.maxPerIdentity ==>
            CheckAnswer(cfg, states[|ops|], subject, id, now))
  {
    RunAgrees(cfg, ops, states, subject, now);
    var h, b := LastRecorded(ops, subject), BucketOf(states[|ops|], subject);
    if CheckAnswer(cfg, states[|ops|], subject, id, now) {
      SubsetSize(Later(h, id) + {id}, b.Keys);
    }
  }

  // With distinct recording times the two sides meet: Check answers exactly "young, and among
  // the maxPerIdentity most recent".
  lemma CheckIsExact(cfg: Settings, ops: seq<Op>, states: seq<Buckets>, subject: string, id: Id, now: int)
    requires IsRun(cfg, ops, states) && InOrder(ops, now) && subject != "" && id != ""
    requires forall j, k :: j in LastRecorded(ops, subject) && k in LastRecorded(ops, subject) && j != k ==>
               LastRecorded(ops, subject)[j] != LastRecorded(ops, subject)[k]
    ensures
      var h := LastRecorded(ops, subject);
      CheckAnswer(cfg, states[|ops|], subject, id, now) <==>
        cfg.ttl > 0 && id in h && now - h[id] <= cfg.ttl && |Later(h, id)| < cfg.maxPerIdentity
  {
    CheckRefinesHistory(cfg, ops, states, subject, id, now);
    var h := LastRecorded(ops, subject);
    if id in h {
      assert AtOrAfter(h, id) == Later(h, id);
    }
  }

  // The gap between the two sides is real: with a cap of one and two IDs recorded by one
  // call, either may be the one that survives.
  lemma TiesAreOpen(a: Id, b: Id, now: int)
    requires a != "" && b != "" && a != b
    ensures
      var full := Stamped(map[], [a, b], now);
      Trimmed(full, map[a := now], 1) && Trimmed(full, map[b := now], 1)
  {
    var full := Stamped(map[], [a, b], now);
    assert a in Named([a, b]) && b in Named([a, b]) by {
      assert [a, b][0] == a && [a, b][1] == b;
    }
    assert full == map[a := now, b := now];
    assert |full| == 2 by {
      assert full.Keys == {a, b};
    }
  }

  // Operation op records id for subject.
  predicate Takes(op: Op, subject: string, id: Id) {
    op.Record? && op.subject == subject && id in op.ids && id != "" && subject != ""
  }

  // The history knows exactly the IDs that some Record call for that subject named, the empty one
  // excepted, each with the time of the last such call.
  lemma {:induction false} HistoryIsExact(ops: seq<Op>, subject: string, id: Id)
    ensures id in LastRecorded(ops, subject) <==> exists i :: 0 <= i < |ops| && Takes(ops[i], subject, id)
    ensures forall i :: 0 <= i < |ops| && Takes(ops[i], subject, id) &&
                        (forall j :: i < j < |ops| ==> !Takes(ops[j], subject, id)) ==>
                          id in LastRecorded(ops, subject) && LastRecorded(ops, subject)[id] == ops[i].now
  {
    if ops != [] {
      var n := |ops| - 1;
      HistoryIsExact(ops[..n], subject, id);
      assert Takes(ops[n], subject, id) || id !in LastRecorded(ops[..n], subject) ==>
          (id in LastRecorded(ops, subject) <==> Takes(ops[n], subject, id));
    }
  }

  // An ID that was recorded was named by some Record call for that subject.
  lemma {:induction false} RecordedByCall(ops: seq<Op>, subject: string, id: Id) returns (i: nat)
    requires id in LastRecorded(ops, subject)
    ensures i < |ops| && ops[i].Record? && ops[i].subject == subject && id in ops[i].ids
    ensures ops[i].now == LastRecorded(ops, subject)[id]
  {
    var n := |ops| - 1;
    if ops[n].Record? && ops[n].subject == subject && id in Named(ops[n].ids) && subject != "" {
      i := n;
    } else {
      i := RecordedByCall(ops[..n], subject, id);
    }
  }
}
