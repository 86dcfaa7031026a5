// The rule of the rate limiter the server uses: refill up to the burst, then take one token.
module TokenBucket {
  type Rate = r: real | r >= 0.0

  datatype Limit = Limit(rate: Rate, burst: nat)

  datatype Bucket = Bucket(tokens: real, last: real)

  // A new limiter is full; its clock starts at the origin.
  function Full(l: Limit): Bucket {
    Bucket(l.burst as real, 0.0)
  }

  function Min(x: real, y: real): real {
    if x <= y then x else y
  }

  function Level(l: Limit, b: Bucket, now: real): real {
    Min(l.burst as real, b.tokens + (now - b.last) * l.rate)
  }

  predicate Allows(l: Limit, b: Bucket, now: real) {
    Level(l, b, now) >= 1.0
  }

  // Allow: a granted request takes one token, a refused one changes nothing.
  function Take(l: Limit, b: Bucket, now: real): Bucket {
    if Allows(l, b, now) then Bucket(Level(l, b, now) - 1.0, now) else b
  }

  // ---------------------------------------------------------------- what a bucket remembers

  // Times of granted requests, oldest first, none after now.
  predicate Ordered(grants: seq<real>, now: real) {
    && 0.0 <= now
    && (forall i :: 0 <= i < |grants| ==> 0.0 <= grants[i] <= now)
    && (forall i, j :: 0 <= i < j < |grants| ==> grants[i] <= grants[j])
  }

  // The bucket these grants leave behind.
  function Spent(l: Limit, grants: seq<real>): Bucket
  {
    if grants == [] then Full(l)
    else
      var t := grants[|grants| - 1];
      Bucket(Level(l, Spent(l, grants[..|grants| - 1]), t) - 1.0, t)
  }

  // What the window from grant k to now still has room for; k == |grants| is the window of length 0 at now.
  function Room(l: Limit, grants: seq<real>, k: nat, now: real): real
    requires k <= |grants|
  {
    var start := if k < |grants| then grants[k] else now;
    l.burst as real + l.rate * (now - start) - (|grants| - k) as real
  }

  // One more grant at now keeps every window within the burst plus what its length earns.
  ghost predicate Fits(l: Limit, grants: seq<real>, now: real) {
    forall k :: 0 <= k <= |grants| ==> Room(l, grants, k, now) >= 1.0
  }

  lemma RoomGrows(l: Limit, grants: seq<real>, k: nat, t: real, now: real)
    requires k <= |grants|
    ensures Room(l, grants + [t], k, now) == Room(l, grants, k, t) + l.rate * (now - t) - 1.0
  {
    var start := if k < |grants| then grants[k] else t;
    assert l.rate * (now - start) == l.rate * (now - t) + l.rate * (t - start);
  }

  // Later, and after one more grant at t, the level has gained the time and lost the token.
  function Later(l: Limit, level: real, t: real, now: real): real {
    Min(l.burst as real, level - 1.0 + (now - t) * l.rate)
  }

  lemma SpentOfMore(l: Limit, before: seq<real>, t: real)
    ensures Spent(l, before + [t]) == Bucket(Level(l, Spent(l, before), t) - 1.0, t)
  {
    var more := before + [t];
    assert more[..|more| - 1] == before && more[|more| - 1] == t;
  }

  lemma LevelAfter(l: Limit, level: real, t: real, now: real)
    ensures Level(l, Bucket(level - 1.0, t), now) == Later(l, level, t, now)
  {
  }

  lemma LevelGrows(l: Limit, before: seq<real>, t: real, now: real)
    ensures Level(l, Spent(l, before + [t]), now) == Later(l, Level(l, Spent(l, before), t), t, now)
  {
    var level := Level(l, Spent(l, before), t);
    SpentOfMore(l, before, t);
    LevelAfter(l, level, t, now);
  }

  lemma RoomLater(l: Limit, before: seq<real>, k: nat, level: real, t: real, now: real)
    requires k <= |before|
    ensures level <= Room(l, before, k, t) ==> Later(l, level, t, now) <= Room(l, before + [t], k, now)
    ensures level == Room(l, before, k, t) ==>
              Later(l, level, t, now) == Min(l.burst as real, Room(l, before + [t], k, now))
  {
    RoomGrows(l, before, k, t, now);
  }

  lemma OrderedPrefix(grants: seq<real>, now: real)
    requires Ordered(grants, now) && grants != []
    ensures Ordered(grants[..|grants| - 1], grants[|grants| - 1])
  {
  }

  lemma EarnedIsNonNegative(rate: Rate, w: real)
    requires w >= 0.0
    ensures w * rate >= 0.0 && rate * w >= 0.0
  {
  }

  // No window has less room than there are tokens left.
  lemma {:induction false} LevelIsWithinRoom(l: Limit, grants: seq<real>, now: real, k: nat)
    requires Ordered(grants, now) && k <= |grants|
    ensures Level(l, Spent(l, grants), now) <= Room(l, grants, k, now)
  {
    if k < |grants| {
      var n := |grants| - 1;
      var before, t := grants[..n], grants[n];
      assert grants == before + [t];
      OrderedPrefix(grants, now);
      LevelIsWithinRoom(l, before, t, k);
      LevelGrows(l, before, t, now);
      RoomLater(l, before, k, Level(l, Spent(l, before), t), t, now);
    }
  }

  // The window of length 0 has room for the burst.
  lemma Tighter(l: Limit, grants: seq<real>, k: nat, level: real, now: real) returns (tightest: nat)
    requires k <= |grants| && level == Min(l.burst as real, Room(l, grants, k, now))
    ensures tightest <= |grants| && level == Room(l, grants, tightest, now)
  {
    tightest := if level == l.burst as real then |grants| else k;
  }

  // Some window has no more room than that: the tokens left are the room of the tightest one.
  lemma {:induction false} TightestRoom(l: Limit, grants: seq<real>, now: real) returns (k: nat)
    requires Ordered(grants, now)
    ensures k <= |grants| && Level(l, Spent(l, grants), now) == Room(l, grants, k, now)
  {
    if grants == [] {
      EarnedIsNonNegative(l.rate, now);
      return 0;
    }
    var n := |grants| - 1;
    var before, t := grants[..n], grants[n];
    assert grants == before + [t];
    OrderedPrefix(grants, now);
    k := TightestRoom(l, before, t);
    var level := Level(l, Spent(l, before), t);
    LevelGrows(l, before, t, now);
    RoomLater(l, before, k, level, t, now);
    k := Tighter(l, grants, k, Later(l, level, t, now), now);
  }

  // The gate decides by the windows alone: it grants a request exactly when it fits.
  lemma GrantedExactlyWhenItFits(l: Limit, grants: seq<real>, now: real)
    requires Ordered(grants, now)
    ensures Allows(l, Spent(l, grants), now) <==> Fits(l, grants, now)
  {
    var tightest := TightestRoom(l, grants, now);
    assert Fits(l, grants, now) ==> Room(l, grants, tightest, now) >= 1.0;
    forall k | 0 <= k <= |grants| ensures Level(l, Spent(l, grants), now) <= Room(l, grants, k, now) {
      LevelIsWithinRoom(l, grants, now, k);
    }
  }

  // Every grant fitted when it was given.
  ghost predicate Admissible(l: Limit, grants: seq<real>) {
    forall n :: 0 <= n < |grants| ==> Fits(l, grants[..n], grants[n])
  }

  // Grants i to j lie in a window of length w.
  lemma WindowHolds(l: Limit, grants: seq<real>, i: nat, j: nat, w: real)
    requires Admissible(l, grants) && i <= j < |grants|
    requires grants[j] - grants[i] <= w
    ensures (j - i + 1) as real <= l.burst as real + l.rate * w
  {
    assert Fits(l, grants[..j], grants[j]);
    assert Room(l, grants[..j], i, grants[j]) >= 1.0;
    assert l.rate * (grants[j] - grants[i]) <= l.rate * w;
  }
}
