// Sizes of finite sets.
module Sets {
  lemma SubsetSize<T>(a: set<T>, b: set<T>)
    requires a <= b
    ensures |a| <= |b|
  {
    assert b == a + (b - a);
  }

  lemma {:induction false} IntervalSize(xs: set<nat>, lo: nat, hi: nat)
    requires lo <= hi && forall x :: x in xs ==> lo <= x < hi
    ensures |xs| <= hi - lo
    decreases hi
  {
    if lo < hi {
      IntervalSize(xs - {hi - 1}, lo, hi - 1);
    } else {
      assert xs == {};
    }
  }

  lemma {:induction false} Least(xs: set<nat>) returns (m: nat)
    requires xs != {}
    ensures m in xs && forall x :: x in xs ==> m <= x
    decreases xs
  {
    var k :| k in xs;
    var rest := xs - {k};
    assert xs == rest + {k};
    if rest == {} {
      m := k;
    } else {
      var r := Least(rest);
      m := if r < k then r else k;
    }
  }
}
