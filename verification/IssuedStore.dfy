// issued.Store: the buckets as fields that Record and Check change in place.
module IssuedStore {
  import opened Identity
  import opened Wrappers
  import opened IssuedSpec

  // evictionCandidate: some entry with the smallest recording time, "" for no entry.
  method EvictionCandidate(bucket: Bucket) returns (oldestID: Id)
    ensures bucket == map[] ==> oldestID == ""
    ensures bucket != map[] ==> oldestID in bucket && forall id :: id in bucket ==> bucket[oldestID] <= bucket[id]
  {
    oldestID := "";
    var oldestTime := 0;
    var first := true;
    var todo := bucket.Keys;
    while todo != {}
      invariant todo <= bucket.Keys
      invariant first <==> todo == bucket.Keys
      invariant first ==> oldestID == ""
      invariant !first ==> oldestID in bucket && bucket[oldestID] == oldestTime
      invariant forall id :: id in bucket && id !in todo ==> oldestTime <= bucket[id]
      decreases |todo|
    {
      var id :| id in todo;
      if first || bucket[id] < oldestTime {
        oldestID, oldestTime := id, bucket[id];
        first := false;
      }
      todo := todo - {id};
    }
  }

  lemma StampNext(b: Bucket, ids: seq<Id>, i: nat, now: int)
    requires i < |ids|
    ensures Stamped(b, ids[..i + 1], now) ==
            if ids[i] == "" then Stamped(b, ids[..i], now) else Stamped(b, ids[..i], now)[ids[i] := now]
  {
    assert ids[..i + 1] == ids[..i] + [ids[i]];
    assert Named(ids[..i + 1]) == Named(ids[..i]) + (if ids[i] == "" then {} else {ids[i]});
  }

  // recordLocked's eviction loop.
  method Evict(full: Bucket, max: nat) returns (bucket: Bucket, evicted: nat)
    ensures Trimmed(full, bucket, max) && |bucket| + evicted == |full|
  {
    bucket := full;
    evicted := 0;
    while |bucket| > max
      invariant forall id :: id in bucket ==> id in full && bucket[id] == full[id]
      invariant forall id, j :: id in bucket && j in full && j !in bucket ==> full[j] <= full[id]
      invariant |bucket| + evicted == |full|
      invariant evicted > 0 ==> |bucket| >= max
      decreases |bucket|
    {
      var oldestID := EvictionCandidate(bucket);
      assert bucket.Keys == (bucket - {oldestID}).Keys + {oldestID};
      bucket := bucket - {oldestID};
      evicted := evicted + 1;
    }
  }

  class Store {
    const cfg: Settings
    var byIdent: Buckets

    constructor (ttl: int, maxPerIdentity: int)
      ensures cfg == Settings(ttl, maxPerIdentity) && byIdent == map[]
    {
      cfg := Settings(ttl, maxPerIdentity);
      byIdent := map[];
    }

    method RecordLocked(subject: string, ids: seq<Id>, now: int) returns (evicted: nat)
      requires subject != ""
      modifies this`byIdent
      ensures RecordStep(cfg, old(byIdent), byIdent, subject, ids, now)
      ensures |byIdent[subject]| + evicted == |Stamped(BucketOf(old(byIdent), subject), ids, now)|
      ensures evicted == 0 || |byIdent[subject]| == if cfg.maxPerIdentity > 0 then cfg.maxPerIdentity else 0
      ensures byIdent[subject] != map[] ==> |byIdent[subject]| <= cfg.maxPerIdentity
    {
      var bucket := if subject in byIdent then byIdent[subject] else map[];
      ghost var before := bucket;
      for i := 0 to |ids|
        invariant byIdent == old(byIdent)
        invariant bucket == Stamped(before, ids[..i], now)
      {
        StampNext(before, ids, i, now);
        if ids[i] != "" {
          bucket := bucket[ids[i] := now];
        }
      }
      assert ids[..|ids|] == ids;

      bucket, evicted := Evict(bucket, EffectiveMax(cfg.maxPerIdentity));
      byIdent := byIdent[subject := bucket];
    }

    // Record; rec may be the nil store. Returns how many entries the cap evicted.
    static method Record(rec: Store?, identity: Option<string>, ids: seq<Id>, now: int) returns (evicted: nat)
      modifies rec
      ensures rec != null ==> RecordStep(rec.cfg, old(rec.byIdent), rec.byIdent, SubjectOf(identity), ids, now)
      ensures rec == null || SubjectOf(identity) == "" ==> evicted == 0
    {
      evicted := 0;
      if rec == null {
        return;
      }
      var subject := SubjectOf(identity);
      if subject == "" {
        return;
      }
      evicted := rec.RecordLocked(subject, ids, now);
    }

    // Check; the nil store refuses everything.
    static method Check(rec: Store?, identity: Option<string>, id: Id, now: int) returns (ok: bool)
      modifies rec
      ensures rec == null ==> !ok
      ensures rec != null ==> (ok <==> CheckAnswer(rec.cfg, old(rec.byIdent), SubjectOf(identity), id, now))
      ensures rec != null ==> rec.byIdent == AfterCheck(rec.cfg, old(rec.byIdent), SubjectOf(identity), id, now)
      ensures rec != null && ok ==> rec.byIdent == old(rec.byIdent)
      ensures rec != null && !ok && SubjectOf(identity) != "" && id != "" ==>
                id !in BucketOf(rec.byIdent, SubjectOf(identity))
    {
      if rec == null {
        return false;
      }
      var subject := SubjectOf(identity);
      if subject == "" || id == "" {
        return false;
      }
      var bucket := if subject in rec.byIdent then rec.byIdent[subject] else map[];
      if id !in bucket {
        return false;
      }
      if IsExpired(rec.cfg.ttl, bucket[id], now) {
        rec.byIdent := rec.byIdent[subject := bucket - {id}];
        return false;
      }
      return true;
    }
  }
}
