/** The visible part of a company's org units as a forest of bounded depth. */
module OrgForest {
  import opened Wrappers
  import opened Collections

  const MAX_DEPTH: nat := 64

  datatype OrgUnit = OrgUnit(id: nat, parent: Option<nat>)

  datatype OrgNode = OrgNode(id: nat, children: seq<OrgNode>)

  /** Ids are a primary key. */
  predicate Keyed(units: seq<OrgUnit>) {
    forall i, j :: 0 <= i < j < |units| ==> units[i].id != units[j].id
  }

  /** The units the caller may see, in order; None is the full chart. */
  function Visible(rows: seq<OrgUnit>, accessible: Option<set<nat>>): seq<OrgUnit> {
    if rows == [] then []
    else
      var before, last := Visible(rows[..|rows| - 1], accessible), rows[|rows| - 1];
      if accessible.Some? && last.id !in accessible.value then before else before + [last]
  }

  predicate Has(units: seq<OrgUnit>, id: nat) {
    exists i :: 0 <= i < |units| && units[i].id == id
  }

  predicate IsRoot(units: seq<OrgUnit>, u: OrgUnit) {
    u.parent.None? || !Has(units, u.parent.value)
  }

  /** The visible children of `p` among the first `n` units, in order. */
  function KidsTo(units: seq<OrgUnit>, p: nat, n: nat): seq<nat>
    requires n <= |units|
  {
    if n == 0 then []
    else
      KidsTo(units, p, n - 1) + if !IsRoot(units, units[n - 1]) && units[n - 1].parent == Some(p) then [units[n - 1].id] else []
  }

  function Kids(units: seq<OrgUnit>, p: nat): seq<nat> {
    KidsTo(units, p, |units|)
  }

  function RootsTo(units: seq<OrgUnit>, n: nat): seq<nat>
    requires n <= |units|
  {
    if n == 0 then []
    else RootsTo(units, n - 1) + if IsRoot(units, units[n - 1]) then [units[n - 1].id] else []
  }

  function Roots(units: seq<OrgUnit>): seq<nat> {
    RootsTo(units, |units|)
  }

  // ---- The bounded build ----

  function Build(units: seq<OrgUnit>, id: nat, depth: nat): OrgNode
    requires depth <= MAX_DEPTH
    decreases MAX_DEPTH - depth, 0, 0
  {
    OrgNode(id, if depth + 1 > MAX_DEPTH then [] else BuildAll(units, Kids(units, id), depth + 1))
  }

  function BuildAll(units: seq<OrgUnit>, ids: seq<nat>, depth: nat): seq<OrgNode>
    requires depth <= MAX_DEPTH
    decreases MAX_DEPTH - depth, 1, |ids|
  {
    if ids == [] then [] else [Build(units, ids[0], depth)] + BuildAll(units, ids[1..], depth)
  }

  predicate TooDeep(units: seq<OrgUnit>, id: nat, depth: nat)
    requires depth <= MAX_DEPTH
    decreases MAX_DEPTH - depth, 0, 0
  {
    if depth + 1 > MAX_DEPTH then Kids(units, id) != [] else AnyTooDeep(units, Kids(units, id), depth + 1)
  }

  predicate AnyTooDeep(units: seq<OrgUnit>, ids: seq<nat>, depth: nat)
    requires depth <= MAX_DEPTH
    decreases MAX_DEPTH - depth, 1, |ids|
  {
    ids != [] && (TooDeep(units, ids[0], depth) || AnyTooDeep(units, ids[1..], depth))
  }

  /** The ids of a forest, parents before their children. */
  function Ids(forest: seq<OrgNode>): seq<nat> {
    if forest == [] then [] else [forest[0].id] + Ids(forest[0].children) + Ids(forest[1..])
  }

  // ---- Ancestors ----

  /** The visible parent of a visible unit. */
  function Parent(units: seq<OrgUnit>, id: nat): Option<nat> {
    ParentTo(units, id, |units|)
  }

  function ParentTo(units: seq<OrgUnit>, id: nat, n: nat): Option<nat>
    requires n <= |units|
  {
    if n == 0 then None
    else if units[n - 1].id == id then (if IsRoot(units, units[n - 1]) then None else units[n - 1].parent)
    else ParentTo(units, id, n - 1)
  }

  /** The ancestor `k` steps up. */
  function Up(units: seq<OrgUnit>, id: nat, k: nat): Option<nat> {
    if k == 0 then Some(id)
    else
      match Up(units, id, k - 1)
      case None => None
      case Some(a) => Parent(units, a)
  }

  /** `d` steps up from `id` stands a root. */
  predicate Rooted(units: seq<OrgUnit>, id: nat, d: nat) {
    Up(units, id, d).Some? && Parent(units, Up(units, id, d).value) == None
  }

  lemma {:induction false} UpAdds(units: seq<OrgUnit>, id: nat, j: nat, k: nat)
    requires Up(units, id, j).Some?
    ensures Up(units, id, j + k) == Up(units, Up(units, id, j).value, k)
    decreases k
  {
    if k > 0 {
      UpAdds(units, id, j, k - 1);
      assert j + k - 1 == j + (k - 1);
    }
  }

  lemma {:induction false} UpShorter(units: seq<OrgUnit>, id: nat, j: nat, k: nat)
    requires Up(units, id, k).Some? && j <= k
    ensures Up(units, id, j).Some?
    decreases k
  {
    if j < k {
      UpShorter(units, id, j, k - 1);
    }
  }

  /** A unit hangs at one depth only. */
  lemma OneDepth(units: seq<OrgUnit>, id: nat, d: nat, e: nat)
    requires Rooted(units, id, d) && Rooted(units, id, e)
    ensures d == e
  {
    if d < e {
      UpShorter(units, id, d + 1, e);
    } else if e < d {
      UpShorter(units, id, e + 1, d);
    }
  }

  lemma RootedBelow(units: seq<OrgUnit>, id: nat, k: nat, d: nat)
    requires Up(units, id, k).Some? && Rooted(units, Up(units, id, k).value, d)
    ensures Rooted(units, id, k + d)
  {
    UpAdds(units, id, k, d);
  }

  // ---- Kids and parents ----

  lemma {:induction false} ParentToFound(units: seq<OrgUnit>, n: nat, i: nat)
    requires Keyed(units) && i < n <= |units|
    ensures ParentTo(units, units[i].id, n) == if IsRoot(units, units[i]) then None else units[i].parent
  {
    if i < n - 1 {
      ParentToFound(units, n - 1, i);
    }
  }

  lemma {:induction false} ParentToMissing(units: seq<OrgUnit>, id: nat, n: nat)
    requires n <= |units| && ParentTo(units, id, n).Some?
    ensures exists i :: 0 <= i < n && units[i].id == id
  {
    if units[n - 1].id != id {
      ParentToMissing(units, id, n - 1);
    }
  }

  lemma {:induction false} KidsToMembers(units: seq<OrgUnit>, p: nat, n: nat, c: nat)
    requires n <= |units|
    ensures c in KidsTo(units, p, n)
            <==> exists i :: 0 <= i < n && units[i].id == c && !IsRoot(units, units[i]) && units[i].parent == Some(p)
  {
    if n > 0 {
      KidsToMembers(units, p, n - 1, c);
    }
  }

  /** The kids of `p` are the units whose visible parent is `p`. */
  lemma KidsAreThoseUnder(units: seq<OrgUnit>, p: nat, c: nat)
    requires Keyed(units)
    ensures c in Kids(units, p) <==> Parent(units, c) == Some(p)
  {
    KidsToMembers(units, p, |units|, c);
    if Parent(units, c).Some? {
      ParentToMissing(units, c, |units|);
    }
    if i :| 0 <= i < |units| && units[i].id == c {
      ParentToFound(units, |units|, i);
    }
  }

  lemma {:induction false} KidsToDistinct(units: seq<OrgUnit>, p: nat, n: nat)
    requires Keyed(units) && n <= |units|
    ensures Distinct(KidsTo(units, p, n))
  {
    if n > 0 {
      KidsToDistinct(units, p, n - 1);
      KidsToMembers(units, p, n - 1, units[n - 1].id);
    }
  }

  lemma {:induction false} RootsToMembers(units: seq<OrgUnit>, n: nat, r: nat)
    requires n <= |units|
    ensures r in RootsTo(units, n) <==> exists i :: 0 <= i < n && units[i].id == r && IsRoot(units, units[i])
  {
    if n > 0 {
      RootsToMembers(units, n - 1, r);
    }
  }

  lemma {:induction false} RootsToDistinct(units: seq<OrgUnit>, n: nat)
    requires Keyed(units) && n <= |units|
    ensures Distinct(RootsTo(units, n))
  {
    if n > 0 {
      RootsToDistinct(units, n - 1);
      RootsToMembers(units, n - 1, units[n - 1].id);
    }
  }

  lemma RootsHaveNoParent(units: seq<OrgUnit>, r: nat)
    requires Keyed(units)
    ensures r in Roots(units) <==> Has(units, r) && Parent(units, r) == None
  {
    RootsToMembers(units, |units|, r);
    if i :| 0 <= i < |units| && units[i].id == r {
      ParentToFound(units, |units|, i);
    }
  }

  // ---- What the build lists ----

  /** `id` is `a` or hangs below it, at most `n` steps down. */
  ghost predicate Below(units: seq<OrgUnit>, id: nat, a: nat, n: nat) {
    exists k: nat :: k <= n && Up(units, id, k) == Some(a)
  }

  ghost predicate BelowAny(units: seq<OrgUnit>, id: nat, ids: seq<nat>, n: nat) {
    exists a :: a in ids && Below(units, id, a, n)
  }

  lemma BelowSplits(units: seq<OrgUnit>, id: nat, a: nat, n: nat)
    requires Keyed(units) && n > 0
    ensures Below(units, id, a, n) <==> id == a || BelowAny(units, id, Kids(units, a), n - 1)
  {
    if Below(units, id, a, n) {
      var k: nat :| k <= n && Up(units, id, k) == Some(a);
      if k > 0 {
        var c := Up(units, id, k - 1).value;
        KidsAreThoseUnder(units, a, c);
        assert Below(units, id, c, n - 1);
      }
    }
    if id == a {
      assert Up(units, id, 0) == Some(a);
    } else if BelowAny(units, id, Kids(units, a), n - 1) {
      var c :| c in Kids(units, a) && Below(units, id, c, n - 1);
      var k: nat :| k <= n - 1 && Up(units, id, k) == Some(c);
      KidsAreThoseUnder(units, a, c);
      assert Up(units, id, k + 1) == Some(a);
    }
  }

  lemma BelowZero(units: seq<OrgUnit>, id: nat, a: nat)
    ensures Below(units, id, a, 0) <==> id == a
  {
    if id == a {
      assert Up(units, id, 0) == Some(a);
    }
  }

  lemma BelowAnySplits(units: seq<OrgUnit>, id: nat, ids: seq<nat>, n: nat)
    requires ids != []
    ensures BelowAny(units, id, ids, n) <==> Below(units, id, ids[0], n) || BelowAny(units, id, ids[1..], n)
  {
    if BelowAny(units, id, ids, n) {
      var a :| a in ids && Below(units, id, a, n);
      assert a == ids[0] || a in ids[1..];
    }
  }

  /** The build lists a unit and everything that hangs below it, down to the depth limit. */
  lemma {:induction false} BuildLists(units: seq<OrgUnit>, a: nat, depth: nat, id: nat)
    requires Keyed(units) && depth <= MAX_DEPTH
    ensures id in Ids([Build(units, a, depth)]) <==> Below(units, id, a, MAX_DEPTH - depth)
    decreases MAX_DEPTH - depth, 0, 0
  {
    var node := Build(units, a, depth);
    IdsOfOne(node);
    if depth == MAX_DEPTH {
      BelowZero(units, id, a);
    } else {
      BuildAllLists(units, Kids(units, a), depth + 1, id);
      BelowSplits(units, id, a, MAX_DEPTH - depth);
    }
  }

  lemma {:induction false} BuildAllLists(units: seq<OrgUnit>, ids: seq<nat>, depth: nat, id: nat)
    requires Keyed(units) && depth <= MAX_DEPTH
    ensures id in Ids(BuildAll(units, ids, depth)) <==> BelowAny(units, id, ids, MAX_DEPTH - depth)
    decreases MAX_DEPTH - depth, 1, |ids|
  {
    if ids != [] {
      BuildLists(units, ids[0], depth, id);
      BuildAllLists(units, ids[1..], depth, id);
      BelowAnySplits(units, id, ids, MAX_DEPTH - depth);
      IdsOfMore(Build(units, ids[0], depth), BuildAll(units, ids[1..], depth));
    }
  }

  lemma IdsOfOne(node: OrgNode)
    ensures Ids([node]) == [node.id] + Ids(node.children)
  {
    assert [node][1..] == [];
    assert Ids([]) == [];
  }

  lemma IdsOfMore(node: OrgNode, rest: seq<OrgNode>)
    ensures Ids([node] + rest) == Ids([node]) + Ids(rest)
  {
    IdsOfOne(node);
    assert ([node] + rest)[1..] == rest;
  }

  // ---- Each unit at most once ----

  ghost predicate AllRooted(units: seq<OrgUnit>, ids: seq<nat>, d: nat) {
    forall a :: a in ids ==> Rooted(units, a, d)
  }

  lemma KidsRooted(units: seq<OrgUnit>, a: nat, d: nat)
    requires Keyed(units) && Rooted(units, a, d)
    ensures AllRooted(units, Kids(units, a), d + 1)
  {
    forall c | c in Kids(units, a)
      ensures Rooted(units, c, d + 1)
    {
      KidsAreThoseUnder(units, a, c);
      assert Up(units, c, 0) == Some(c);
      assert Up(units, c, 1) == Some(a);
      RootedBelow(units, c, 1, d);
    }
  }

  /** A unit hangs below one unit of each depth only. */
  lemma BelowOne(units: seq<OrgUnit>, id: nat, a: nat, b: nat, d: nat, n: nat)
    requires Rooted(units, a, d) && Rooted(units, b, d) && Below(units, id, a, n) && Below(units, id, b, n)
    ensures a == b
  {
    var j: nat :| j <= n && Up(units, id, j) == Some(a);
    var k: nat :| k <= n && Up(units, id, k) == Some(b);
    RootedBelow(units, id, j, d);
    RootedBelow(units, id, k, d);
    OneDepth(units, id, j + d, k + d);
  }

  lemma NotBelowKid(units: seq<OrgUnit>, a: nat, d: nat, n: nat)
    requires Keyed(units) && Rooted(units, a, d)
    ensures !BelowAny(units, a, Kids(units, a), n)
  {
    if BelowAny(units, a, Kids(units, a), n) {
      var c :| c in Kids(units, a) && Below(units, a, c, n);
      var k: nat :| k <= n && Up(units, a, k) == Some(c);
      KidsRooted(units, a, d);
      RootedBelow(units, a, k, d + 1);
      OneDepth(units, a, d, k + (d + 1));
    }
  }

  lemma DistinctJoin(xs: seq<nat>, ys: seq<nat>)
    requires Distinct(xs) && Distinct(ys) && forall x :: x in xs ==> x !in ys
    ensures Distinct(xs + ys)
  {
    var all := xs + ys;
    forall i, j | 0 <= i < j < |all|
      ensures all[i] != all[j]
    {
      if i < |xs| <= j {
        assert all[i] in xs && all[j] == ys[j - |xs|];
      }
    }
  }

  lemma {:induction false} BuildOnce(units: seq<OrgUnit>, a: nat, depth: nat)
    requires Keyed(units) && depth <= MAX_DEPTH && Rooted(units, a, depth)
    ensures Distinct(Ids([Build(units, a, depth)]))
    decreases MAX_DEPTH - depth, 0, 0
  {
    IdsOfOne(Build(units, a, depth));
    if depth < MAX_DEPTH {
      KidsRooted(units, a, depth);
      KidsToDistinct(units, a, |units|);
      BuildAllOnce(units, Kids(units, a), depth + 1);
      NotBelowKid(units, a, depth, MAX_DEPTH - (depth + 1));
      BuildAllLists(units, Kids(units, a), depth + 1, a);
      DistinctJoin([a], Ids(BuildAll(units, Kids(units, a), depth + 1)));
    }
  }

  lemma {:induction false} BuildAllOnce(units: seq<OrgUnit>, ids: seq<nat>, depth: nat)
    requires Keyed(units) && depth <= MAX_DEPTH && AllRooted(units, ids, depth) && Distinct(ids)
    ensures Distinct(Ids(BuildAll(units, ids, depth)))
    decreases MAX_DEPTH - depth, 1, |ids|
  {
    if ids != [] {
      BuildOnce(units, ids[0], depth);
      BuildAllOnce(units, ids[1..], depth);
      IdsOfMore(Build(units, ids[0], depth), BuildAll(units, ids[1..], depth));
      forall x | x in Ids([Build(units, ids[0], depth)])
        ensures x !in Ids(BuildAll(units, ids[1..], depth))
      {
        ApartFromRest(units, ids, depth, x);
      }
      DistinctJoin(Ids([Build(units, ids[0], depth)]), Ids(BuildAll(units, ids[1..], depth)));
    }
  }

  lemma ApartFromRest(units: seq<OrgUnit>, ids: seq<nat>, depth: nat, x: nat)
    requires Keyed(units) && depth <= MAX_DEPTH && ids != [] && AllRooted(units, ids, depth) && Distinct(ids)
    requires x in Ids([Build(units, ids[0], depth)])
    ensures x !in Ids(BuildAll(units, ids[1..], depth))
  {
    BuildLists(units, ids[0], depth, x);
    BuildAllLists(units, ids[1..], depth, x);
    if BelowAny(units, x, ids[1..], MAX_DEPTH - depth) {
      var b :| b in ids[1..] && Below(units, x, b, MAX_DEPTH - depth);
      BelowOne(units, x, ids[0], b, depth, MAX_DEPTH - depth);
    }
  }

  // ---- The forest ----

  function Forest(units: seq<OrgUnit>): seq<OrgNode> {
    BuildAll(units, Roots(units), 0)
  }

  lemma RootsRooted(units: seq<OrgUnit>)
    requires Keyed(units)
    ensures AllRooted(units, Roots(units), 0)
  {
    forall r | r in Roots(units)
      ensures Rooted(units, r, 0)
    {
      RootsHaveNoParent(units, r);
    }
  }

  /** No unit is listed twice. */
  lemma ForestListsOnce(units: seq<OrgUnit>)
    requires Keyed(units)
    ensures Distinct(Ids(Forest(units)))
  {
    RootsRooted(units);
    RootsToDistinct(units, |units|);
    BuildAllOnce(units, Roots(units), 0);
  }

  /** Something hangs exactly `n` steps below `a`. */
  ghost predicate Reaches(units: seq<OrgUnit>, a: nat, n: nat) {
    exists id: nat :: Up(units, id, n) == Some(a)
  }

  ghost predicate AnyReaches(units: seq<OrgUnit>, ids: seq<nat>, n: nat) {
    exists a :: a in ids && Reaches(units, a, n)
  }

  /** Some unit has `n` visible ancestors, the last of them a root. */
  ghost predicate ChainOf(units: seq<OrgUnit>, n: nat) {
    exists id: nat :: Rooted(units, id, n)
  }

  /** Some visible chain goes below the depth limit. */
  ghost predicate ChainTooLong(units: seq<OrgUnit>) {
    ChainOf(units, MAX_DEPTH + 1)
  }

  lemma ReachesByKid(units: seq<OrgUnit>, a: nat, n: nat)
    requires Keyed(units)
    ensures Reaches(units, a, n + 1) <==> AnyReaches(units, Kids(units, a), n)
  {
    if Reaches(units, a, n + 1) {
      var m := n + 1;
      var id: nat :| Up(units, id, m) == Some(a);
      var c := Up(units, id, n).value;
      KidsAreThoseUnder(units, a, c);
      assert Reaches(units, c, n);
    }
    if AnyReaches(units, Kids(units, a), n) {
      var c :| c in Kids(units, a) && Reaches(units, c, n);
      var id: nat :| Up(units, id, n) == Some(c);
      KidsAreThoseUnder(units, a, c);
      assert Up(units, id, n + 1) == Some(a);
    }
  }

  lemma ReachesZero(units: seq<OrgUnit>, a: nat)
    ensures Reaches(units, a, 0)
  {
    assert Up(units, a, 0) == Some(a);
  }

  lemma {:induction false} TooDeepIff(units: seq<OrgUnit>, a: nat, depth: nat)
    requires Keyed(units) && depth <= MAX_DEPTH
    ensures TooDeep(units, a, depth) <==> Reaches(units, a, MAX_DEPTH - depth + 1)
    decreases MAX_DEPTH - depth, 0, 0
  {
    ReachesByKid(units, a, MAX_DEPTH - depth);
    if depth == MAX_DEPTH {
      if Kids(units, a) != [] {
        ReachesZero(units, Kids(units, a)[0]);
      }
    } else {
      AnyTooDeepIff(units, Kids(units, a), depth + 1);
    }
  }

  lemma {:induction false} AnyTooDeepIff(units: seq<OrgUnit>, ids: seq<nat>, depth: nat)
    requires Keyed(units) && depth <= MAX_DEPTH
    ensures AnyTooDeep(units, ids, depth) <==> AnyReaches(units, ids, MAX_DEPTH - depth + 1)
    decreases MAX_DEPTH - depth, 1, |ids|
  {
    if ids != [] {
      TooDeepIff(units, ids[0], depth);
      AnyTooDeepIff(units, ids[1..], depth);
      if a :| a in ids && Reaches(units, a, MAX_DEPTH - depth + 1) {
        assert a == ids[0] || a in ids[1..];
      }
    }
  }

  lemma {:induction false} UpIsVisible(units: seq<OrgUnit>, id: nat, k: nat)
    requires Keyed(units) && k > 0 && Up(units, id, k).Some?
    ensures Has(units, id) && Has(units, Up(units, id, k).value)
    decreases k
  {
    var a := Up(units, id, k - 1).value;
    ParentToMissing(units, a, |units|);
    if i :| 0 <= i < |units| && units[i].id == a {
      ParentToFound(units, |units|, i);
    }
    if k > 1 {
      UpIsVisible(units, id, k - 1);
    }
  }

  /** The error is returned exactly when some visible chain goes below the depth limit. */
  lemma ErrorIffChainTooLong(units: seq<OrgUnit>)
    requires Keyed(units)
    ensures AnyTooDeep(units, Roots(units), 0) <==> ChainTooLong(units)
  {
    var n := MAX_DEPTH + 1;
    AnyTooDeepIff(units, Roots(units), 0);
    if AnyReaches(units, Roots(units), n) {
      var r :| r in Roots(units) && Reaches(units, r, n);
      var id: nat :| Up(units, id, n) == Some(r);
      RootsHaveNoParent(units, r);
      assert Rooted(units, id, n);
    }
    if ChainOf(units, n) {
      var id: nat :| Rooted(units, id, n);
      var r := Up(units, id, n).value;
      UpIsVisible(units, id, n);
      RootsHaveNoParent(units, r);
      assert Reaches(units, r, n);
    }
  }

  /** Going up from any visible unit ends at a root. */
  ghost predicate Acyclic(units: seq<OrgUnit>) {
    forall id :: Has(units, id) ==> exists d: nat :: Rooted(units, id, d)
  }

  lemma ListedIff(units: seq<OrgUnit>, id: nat)
    requires Keyed(units) && Has(units, id) && !ChainTooLong(units)
    ensures id in Ids(Forest(units)) <==> exists d: nat :: Rooted(units, id, d)
  {
    BuildAllLists(units, Roots(units), 0, id);
    if BelowAny(units, id, Roots(units), MAX_DEPTH) {
      var r :| r in Roots(units) && Below(units, id, r, MAX_DEPTH);
      var k: nat :| k <= MAX_DEPTH && Up(units, id, k) == Some(r);
      RootsHaveNoParent(units, r);
      assert Rooted(units, id, k);
    }
    if d: nat :| Rooted(units, id, d) {
      if d > MAX_DEPTH {
        LongerChain(units, id, d);
      }
      var r := Up(units, id, d).value;
      if d > 0 {
        UpIsVisible(units, id, d);
      }
      RootsHaveNoParent(units, r);
      assert Below(units, id, r, MAX_DEPTH);
    }
  }

  /** A longer chain has a stretch of exactly the forbidden length at its top. */
  lemma LongerChain(units: seq<OrgUnit>, id: nat, d: nat)
    requires Rooted(units, id, d) && d > MAX_DEPTH
    ensures ChainTooLong(units)
  {
    var k := d - (MAX_DEPTH + 1);
    UpShorter(units, id, k, d);
    UpAdds(units, id, k, MAX_DEPTH + 1);
    assert Rooted(units, Up(units, id, k).value, MAX_DEPTH + 1);
  }

  /** Without the error, the forest lists every visible unit exactly when no visible units form a cycle. */
  lemma CompleteIffAcyclic(units: seq<OrgUnit>)
    requires Keyed(units) && !AnyTooDeep(units, Roots(units), 0)
    ensures (forall id :: Has(units, id) ==> id in Ids(Forest(units))) <==> Acyclic(units)
  {
    ErrorIffChainTooLong(units);
    forall id | Has(units, id)
      ensures id in Ids(Forest(units)) <==> exists d: nat :: Rooted(units, id, d)
    {
      ListedIff(units, id);
    }
  }

  /** Nothing but visible units is listed. */
  lemma ListsOnlyVisible(units: seq<OrgUnit>, id: nat)
    requires Keyed(units) && id in Ids(Forest(units))
    ensures Has(units, id)
  {
    BuildAllLists(units, Roots(units), 0, id);
    var r :| r in Roots(units) && Below(units, id, r, MAX_DEPTH);
    var k: nat :| k <= MAX_DEPTH && Up(units, id, k) == Some(r);
    RootsHaveNoParent(units, r);
    if k > 0 {
      UpIsVisible(units, id, k);
    }
  }

  /** Every node has all the visible children of its unit, in order, and the roots are the roots. */
  predicate Shaped(units: seq<OrgUnit>, ids: seq<nat>, forest: seq<OrgNode>)
    decreases forest
  {
    if forest == [] then ids == []
    else
      && ids != []
      && forest[0].id == ids[0]
      && Shaped(units, Kids(units, ids[0]), forest[0].children)
      && Shaped(units, ids[1..], forest[1..])
  }

  lemma {:induction false} BuildIsShaped(units: seq<OrgUnit>, a: nat, depth: nat)
    requires depth <= MAX_DEPTH && !TooDeep(units, a, depth)
    ensures Shaped(units, Kids(units, a), Build(units, a, depth).children)
    decreases MAX_DEPTH - depth, 0, 0
  {
    if depth < MAX_DEPTH {
      BuildAllIsShaped(units, Kids(units, a), depth + 1);
    }
  }

  lemma {:induction false} BuildAllIsShaped(units: seq<OrgUnit>, ids: seq<nat>, depth: nat)
    requires depth <= MAX_DEPTH && !AnyTooDeep(units, ids, depth)
    ensures Shaped(units, ids, BuildAll(units, ids, depth))
    decreases MAX_DEPTH - depth, 1, |ids|
  {
    if ids != [] {
      BuildIsShaped(units, ids[0], depth);
      BuildAllIsShaped(units, ids[1..], depth);
      assert BuildAll(units, ids, depth)[1..] == BuildAll(units, ids[1..], depth);
    }
  }

  // ---- The handler ----

  datatype Error = OrgTreeTooDeep

  lemma {:induction false} VisibleIsKeyed(rows: seq<OrgUnit>, accessible: Option<set<nat>>)
    requires Keyed(rows)
    ensures Keyed(Visible(rows, accessible))
    ensures forall u :: u in Visible(rows, accessible) <==> u in rows && (accessible.Some? ==> u.id in accessible.value)
  {
    if rows != [] {
      var init := rows[..|rows| - 1];
      VisibleIsKeyed(init, accessible);
      assert forall u :: u in rows <==> u in init || u == rows[|rows| - 1];
      assert rows[|rows| - 1] !in init;
      LastIsNew(rows, Visible(init, accessible));
    }
  }

  lemma LastIsNew(rows: seq<OrgUnit>, some: seq<OrgUnit>)
    requires rows != [] && Keyed(rows) && forall u :: u in some ==> u in rows[..|rows| - 1]
    ensures forall i :: 0 <= i < |some| ==> some[i].id != rows[|rows| - 1].id
  {
    forall i | 0 <= i < |some|
      ensures some[i].id != rows[|rows| - 1].id
    {
      assert some[i] in some;
    }
  }

  method Filter(rows: seq<OrgUnit>, accessible: Option<set<nat>>) returns (order: seq<OrgUnit>, nodes: set<nat>)
    ensures order == Visible(rows, accessible)
    ensures forall id :: id in nodes <==> Has(order, id)
  {
    order, nodes := [], {};
    for i := 0 to |rows|
      invariant order == Visible(rows[..i], accessible)
      invariant forall id :: id in nodes <==> Has(order, id)
    {
      assert rows[..i + 1][..i] == rows[..i];
      if accessible.Some? && rows[i].id !in accessible.value {
        continue;
      }
      ghost var was := order;
      nodes := nodes + {rows[i].id};
      order := order + [rows[i]];
      assert order[|was|].id == rows[i].id;
      assert forall k :: 0 <= k < |was| ==> order[k] == was[k];
    }
    assert rows[..|rows|] == rows;
  }

  /** The map of kids holds the kids of every unit that has any. */
  ghost predicate KidsMap(units: seq<OrgUnit>, kids: map<nat, seq<nat>>, n: nat)
    requires n <= |units|
  {
    forall p :: KidsTo(units, p, n) == if p in kids then kids[p] else []
  }

  method Split(order: seq<OrgUnit>, nodes: set<nat>) returns (kids: map<nat, seq<nat>>, roots: seq<nat>)
    requires forall id :: id in nodes <==> Has(order, id)
    ensures roots == Roots(order)
    ensures GoodKids(order, kids)
  {
    kids, roots := map[], [];
    for i := 0 to |order|
      invariant roots == RootsTo(order, i) && KidsMap(order, kids, i)
      invariant forall p :: p in kids ==> kids[p] != []
    {
      var u := order[i];
      if u.parent.None? || u.parent.value !in nodes {
        roots := roots + [u.id];
      } else {
        var p := u.parent.value;
        kids := kids[p := (if p in kids then kids[p] else []) + [u.id]];
      }
    }
  }

  ghost predicate GoodKids(units: seq<OrgUnit>, kids: map<nat, seq<nat>>) {
    KidsMap(units, kids, |units|) && forall p :: p in kids ==> kids[p] != []
  }

  lemma GoodKidsAt(units: seq<OrgUnit>, kids: map<nat, seq<nat>>, id: nat)
    requires GoodKids(units, kids)
    ensures Kids(units, id) == if id in kids then kids[id] else []
    ensures id in kids <==> Kids(units, id) != []
  {
    assert KidsTo(units, id, |units|) == Kids(units, id);
  }

  lemma BuildHere(units: seq<OrgUnit>, ids: seq<nat>, id: nat, depth: nat)
    requires ids == Kids(units, id) && depth <= MAX_DEPTH
    ensures Build(units, id, depth)
            == OrgNode(id, if ids == [] || depth + 1 > MAX_DEPTH then [] else BuildAll(units, ids, depth + 1))
    ensures TooDeep(units, id, depth) == (ids != [] && (depth + 1 > MAX_DEPTH || AnyTooDeep(units, ids, depth + 1)))
  {
  }

  method BuildNode(units: seq<OrgUnit>, kids: map<nat, seq<nat>>, id: nat, depth: nat) returns (n: OrgNode, tooDeep: bool)
    requires GoodKids(units, kids) && depth <= MAX_DEPTH
    ensures n == Build(units, id, depth) && tooDeep == TooDeep(units, id, depth)
    decreases MAX_DEPTH - depth, 0
  {
    var children: seq<OrgNode> := [];
    tooDeep := false;
    GoodKidsAt(units, kids, id);
    BuildHere(units, if id in kids then kids[id] else [], id, depth);
    if id in kids {
      if depth + 1 > MAX_DEPTH {
        tooDeep := true;
      } else {
        children, tooDeep := BuildNodes(units, kids, kids[id], depth + 1);
      }
    }
    n := OrgNode(id, children);
  }

  method BuildNodes(units: seq<OrgUnit>, kids: map<nat, seq<nat>>, ids: seq<nat>, depth: nat)
    returns (forest: seq<OrgNode>, tooDeep: bool)
    requires GoodKids(units, kids) && depth <= MAX_DEPTH
    ensures forest == BuildAll(units, ids, depth) && tooDeep == AnyTooDeep(units, ids, depth)
    decreases MAX_DEPTH - depth, 1
  {
    forest, tooDeep := [], false;
    for i := 0 to |ids|
      invariant forest == BuildAll(units, ids[..i], depth) && tooDeep == AnyTooDeep(units, ids[..i], depth)
    {
      var child, deep := BuildNode(units, kids, ids[i], depth);
      assert ids[..i + 1] == ids[..i] + [ids[i]];
      BuildMore(units, ids[..i], ids[i], depth);
      forest := forest + [child];
      tooDeep := tooDeep || deep;
    }
    assert ids[..|ids|] == ids;
  }

  lemma {:induction false} BuildMore(units: seq<OrgUnit>, ids: seq<nat>, id: nat, depth: nat)
    requires depth <= MAX_DEPTH
    ensures BuildAll(units, ids + [id], depth) == BuildAll(units, ids, depth) + [Build(units, id, depth)]
    ensures AnyTooDeep(units, ids + [id], depth) == (AnyTooDeep(units, ids, depth) || TooDeep(units, id, depth))
  {
    if ids == [] {
      assert ids + [id] == [id];
      assert [id][1..] == [];
    } else {
      assert (ids + [id])[1..] == ids[1..] + [id];
      BuildMore(units, ids[1..], id, depth);
    }
  }

  /** The whole answer: every visible unit once, under its parent, or an error. */
  method OrgsTree(rows: seq<OrgUnit>, accessible: Option<set<nat>>) returns (r: Result<seq<OrgNode>, Error>)
    requires Keyed(rows)
    ensures r.Err? <==> ChainTooLong(Visible(rows, accessible))
    ensures r.Ok? ==>
              var units := Visible(rows, accessible);
              && Shaped(units, Roots(units), r.value)
              && Distinct(Ids(r.value))
              && (forall id :: id in Ids(r.value) ==> Has(units, id))
              && ((forall id :: Has(units, id) ==> id in Ids(r.value)) <==> Acyclic(units))
  {
    var order, nodes := Filter(rows, accessible);
    var kids, roots := Split(order, nodes);
    VisibleIsKeyed(rows, accessible);
    var orgs, tooDeep := BuildNodes(order, kids, roots, 0);
    ForestIsRight(order);
    if tooDeep {
      return Err(OrgTreeTooDeep);
    }
    return Ok(orgs);
  }

  lemma ForestIsRight(units: seq<OrgUnit>)
    requires Keyed(units)
    ensures AnyTooDeep(units, Roots(units), 0) <==> ChainTooLong(units)
    ensures Distinct(Ids(Forest(units)))
    ensures forall id :: id in Ids(Forest(units)) ==> Has(units, id)
    ensures !AnyTooDeep(units, Roots(units), 0) ==> Shaped(units, Roots(units), Forest(units))
    ensures !AnyTooDeep(units, Roots(units), 0) ==>
              ((forall id :: Has(units, id) ==> id in Ids(Forest(units))) <==> Acyclic(units))
  {
    ErrorIffChainTooLong(units);
    ForestListsOnce(units);
    forall id | id in Ids(Forest(units))
      ensures Has(units, id)
    {
      ListsOnlyVisible(units, id);
    }
    if !AnyTooDeep(units, Roots(units), 0) {
      BuildAllIsShaped(units, Roots(units), 0);
      CompleteIffAcyclic(units);
    }
  }
}
