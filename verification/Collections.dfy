/** Facts about sets and sequences that several modules need. */
module Collections {

  predicate Distinct<T(==)>(xs: seq<T>) {
    forall i, j :: 0 <= i < j < |xs| ==> xs[i] != xs[j]
  }

  lemma SubsetSize<T>(a: set<T>, b: set<T>)
    requires a <= b
    ensures |a| <= |b|
  {
    assert b == a + (b - a);
  }

  lemma SmallerSet<T>(a: set<T>, b: set<T>, x: T)
    requires a <= b - {x} && x in b
    ensures |a| < |b|
  {
    assert b == a + (b - a);
    assert x in b - a;
  }

  predicate IsMin(xs: set<int>, m: int) {
    m in xs && forall x :: x in xs ==> m <= x
  }

  lemma HasElement(xs: set<int>)
    ensures xs == {} || exists x :: x in xs
  {
    if forall x :: x !in xs {
      assert xs == {};
    }
  }

  lemma MinOf(xs: set<int>) returns (m: int)
    requires xs != {}
    ensures IsMin(xs, m)
  {
    HasElement(xs);
    m :| m in xs;
    if y :| y in xs && y != m {
      assert y in xs - {m};
      var n := MinOf(xs - {m});
      assert forall x :: x in xs ==> x == m || x in xs - {m};
      if n < m { m := n; }
    }
  }

  function Min(xs: set<int>): (m: int)
    requires xs != {}
    ensures IsMin(xs, m)
  {
    assert exists m :: IsMin(xs, m) by {
      var m := MinOf(xs);
    }
    var m :| IsMin(xs, m);
    m
  }
}
