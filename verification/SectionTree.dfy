/**
  The section builder the document parsers share: headings arrive in document
  order, a stack of open sections decides where each one hangs.
*/
module SectionTree {
  import opened Wrappers

  /** A section without its children. */
  datatype Entry = Entry(heading: string, depth: nat, text: string, dbId: Option<nat>)

  datatype Section = Section(entry: Entry, children: seq<Section>)

  /** Document order: a section, its children, then what follows it. */
  function Flatten(forest: seq<Section>): seq<Entry> {
    if forest == [] then []
    else [forest[0].entry] + Flatten(forest[0].children) + Flatten(forest[1..])
  }

  // ---- The tree a list of headings stands for ----

  /** How many leading entries are deeper than `d`. */
  function Deeper(entries: seq<Entry>, d: nat): (k: nat)
    ensures k <= |entries|
  {
    if entries == [] || entries[0].depth <= d then 0 else 1 + Deeper(entries[1..], d)
  }

  /** A heading owns the deeper headings that follow it directly. */
  function Tree(entries: seq<Entry>): (forest: seq<Section>)
    decreases |entries|
  {
    if entries == [] then []
    else
      var rest := entries[1..];
      var k := Deeper(rest, entries[0].depth);
      [Section(entries[0], Tree(rest[..k]))] + Tree(rest[k..])
  }

  predicate RootsDeeper(forest: seq<Section>, d: nat) {
    forall i :: 0 <= i < |forest| ==> forest[i].entry.depth > d
  }

  predicate AllDeeper(entries: seq<Entry>, d: nat) {
    forall i :: 0 <= i < |entries| ==> entries[i].depth > d
  }

  /** Children are deeper than their parent, and siblings never get deeper. */
  predicate WellNested(forest: seq<Section>) {
    forest == []
    || (&& WellNested(forest[0].children)
        && WellNested(forest[1..])
        && RootsDeeper(forest[0].children, forest[0].entry.depth)
        && (|forest| > 1 ==> forest[1].entry.depth <= forest[0].entry.depth))
  }

  lemma FlattenCons(node: Section, rest: seq<Section>)
    ensures Flatten([node] + rest) == [node.entry] + Flatten(node.children) + Flatten(rest)
  {
    assert ([node] + rest)[1..] == rest;
  }

  lemma {:induction false} FlattenConcat(xs: seq<Section>, ys: seq<Section>)
    ensures Flatten(xs + ys) == Flatten(xs) + Flatten(ys)
  {
    if xs == [] {
      assert xs + ys == ys;
    } else {
      assert (xs + ys)[1..] == xs[1..] + ys;
      FlattenConcat(xs[1..], ys);
    }
  }

  /** Reading the tree in document order gives the headings back. */
  lemma {:induction false} FlattenTree(entries: seq<Entry>)
    ensures Flatten(Tree(entries)) == entries
    decreases |entries|
  {
    if entries != [] {
      var e, rest := entries[0], entries[1..];
      var k := Deeper(rest, e.depth);
      FlattenTree(rest[..k]);
      FlattenTree(rest[k..]);
      FlattenCons(Section(e, Tree(rest[..k])), Tree(rest[k..]));
      Recombine(entries, k);
    }
  }

  lemma Recombine(entries: seq<Entry>, k: nat)
    requires entries != [] && k < |entries|
    ensures [entries[0]] + entries[1..][..k] + entries[1..][k..] == entries
  {
  }

  lemma {:induction false} DeeperSplits(xs: seq<Entry>, ys: seq<Entry>, d: nat)
    requires forall i :: 0 <= i < |xs| ==> xs[i].depth > d
    requires ys == [] || ys[0].depth <= d
    ensures Deeper(xs + ys, d) == |xs|
  {
    if xs == [] {
      assert xs + ys == ys;
    } else {
      assert (xs + ys)[1..] == xs[1..] + ys;
      DeeperSplits(xs[1..], ys, d);
    }
  }

  lemma {:induction false} DeeperAreDeeper(entries: seq<Entry>, d: nat)
    ensures var k := Deeper(entries, d);
            && (forall i :: 0 <= i < k ==> entries[i].depth > d)
            && (k < |entries| ==> entries[k].depth <= d)
  {
    if entries != [] && entries[0].depth > d {
      DeeperAreDeeper(entries[1..], d);
      var k := Deeper(entries, d);
      forall i | 0 <= i < k
        ensures entries[i].depth > d
      {
        if i > 0 {
          assert entries[1..][i - 1] == entries[i];
        }
      }
    }
  }

  lemma {:induction false} TreeRootsDeeper(entries: seq<Entry>, d: nat)
    requires AllDeeper(entries, d)
    ensures RootsDeeper(Tree(entries), d)
    decreases |entries|
  {
    if entries != [] {
      var rest := entries[1..];
      TreeRootsDeeper(rest[Deeper(rest, entries[0].depth)..], d);
    }
  }

  lemma NestedCons(node: Section, rest: seq<Section>)
    requires WellNested(node.children) && WellNested(rest) && RootsDeeper(node.children, node.entry.depth)
    requires rest != [] ==> rest[0].entry.depth <= node.entry.depth
    ensures WellNested([node] + rest)
  {
    assert ([node] + rest)[1..] == rest;
  }

  /** The tree is always well nested. */
  lemma {:induction false} TreeIsWellNested(entries: seq<Entry>)
    ensures WellNested(Tree(entries))
    decreases |entries|
  {
    if entries != [] {
      var e, rest := entries[0], entries[1..];
      var k := Deeper(rest, e.depth);
      DeeperAreDeeper(rest, e.depth);
      TreeIsWellNested(rest[..k]);
      TreeIsWellNested(rest[k..]);
      TreeRootsDeeper(rest[..k], e.depth);
      NestedCons(Section(e, Tree(rest[..k])), Tree(rest[k..]));
      if k < |rest| {
        assert Tree(rest[k..])[0].entry == rest[k];
      }
    }
  }

  lemma {:induction false} FlattenDeeper(forest: seq<Section>, d: nat)
    requires WellNested(forest) && RootsDeeper(forest, d)
    ensures AllDeeper(Flatten(forest), d)
  {
    if forest != [] {
      FlattenDeeper(forest[1..], d);
      FlattenDeeper(forest[0].children, d);
    }
  }

  /** Rebuilding from the headings of a well nested forest gives that forest. */
  lemma {:induction false} RebuildFlattened(forest: seq<Section>)
    requires WellNested(forest)
    ensures Tree(Flatten(forest)) == forest
  {
    if forest != [] {
      var node, rest := forest[0], forest[1..];
      var inner, outer := Flatten(node.children), Flatten(rest);
      FlattenDeeper(node.children, node.entry.depth);
      DeeperSplits(inner, outer, node.entry.depth);
      var entries := Flatten(forest);
      assert entries == [node.entry] + inner + outer;
      TreeOfParts(node.entry, inner, outer);
      RebuildFlattened(node.children);
      RebuildFlattened(rest);
      assert [Section(node.entry, node.children)] + rest == forest;
    }
  }

  lemma TreeOfParts(e: Entry, inner: seq<Entry>, outer: seq<Entry>)
    requires Deeper(inner + outer, e.depth) == |inner|
    ensures Tree([e] + inner + outer) == [Section(e, Tree(inner))] + Tree(outer)
  {
    var all, rest := [e] + inner + outer, inner + outer;
    assert all[1..] == rest;
    assert rest[..|inner|] == inner && rest[|inner|..] == outer;
  }

  /** So well nested forests and lists of headings correspond one to one. */
  lemma FlattenIsInjective(a: seq<Section>, b: seq<Section>)
    requires WellNested(a) && WellNested(b) && Flatten(a) == Flatten(b)
    ensures a == b
  {
    RebuildFlattened(a);
    RebuildFlattened(b);
  }

  // ---- Parents ----

  /** For each section in document order, where its parent stands; `base` is where the forest starts. */
  function Parents(forest: seq<Section>, parent: Option<nat>, base: nat): seq<Option<nat>> {
    if forest == [] then []
    else
      var n := |Flatten(forest[0].children)|;
      [parent] + Parents(forest[0].children, Some(base), base + 1) + Parents(forest[1..], parent, base + 1 + n)
  }

  /** The last heading before `i` that is less deep than `d`. */
  function Nearest(entries: seq<Entry>, i: nat, d: nat): Option<nat>
    requires i <= |entries|
  {
    if i == 0 then None
    else if entries[i - 1].depth < d then Some(i - 1)
    else Nearest(entries, i - 1, d)
  }

  lemma {:induction false} ParentsLength(forest: seq<Section>, parent: Option<nat>, base: nat)
    ensures |Parents(forest, parent, base)| == |Flatten(forest)|
  {
    if forest != [] {
      ParentsLength(forest[0].children, Some(base), base + 1);
      ParentsLength(forest[1..], parent, base + 1 + |Flatten(forest[0].children)|);
    }
  }

  /** Entries from `from` to `i` that are no shallower than `d` can be skipped. */
  lemma {:induction false} NearestSkips(all: seq<Entry>, from: nat, i: nat, d: nat)
    requires from <= i <= |all| && forall j :: from <= j < i ==> all[j].depth >= d
    ensures Nearest(all, i, d) == Nearest(all, from, d)
  {
    if from < i {
      NearestSkips(all, from, i - 1, d);
    }
  }

  /** A well nested forest that sits in `all` from `base` on, under the parent that is right for its roots. */
  predicate Sits(all: seq<Entry>, forest: seq<Section>, parent: Option<nat>, base: nat) {
    && base + |Flatten(forest)| <= |all|
    && (forall j :: 0 <= j < |Flatten(forest)| ==> all[base + j] == Flatten(forest)[j])
    && WellNested(forest)
    && (forest != [] ==> Nearest(all, base, forest[0].entry.depth) == parent)
    && match parent
       case None => true
       case Some(p) => p < base && RootsDeeper(forest, all[p].depth)
  }

  lemma SitsInside(all: seq<Entry>, forest: seq<Section>, parent: Option<nat>, base: nat)
    requires forest != [] && Sits(all, forest, parent, base)
    ensures Sits(all, forest[0].children, Some(base), base + 1)
  {
    var inner, whole := Flatten(forest[0].children), Flatten(forest);
    assert whole[0] == forest[0].entry;
    assert all[base + 0] == whole[0];
    forall j | 0 <= j < |inner|
      ensures all[base + 1 + j] == inner[j]
    {
      assert all[base + (1 + j)] == whole[1 + j] == inner[j];
    }
  }

  /** A root that is no deeper than all of its earlier siblings has the same parent as they have. */
  lemma SitsAfter(all: seq<Entry>, forest: seq<Section>, parent: Option<nat>, base: nat)
    requires forest != [] && Sits(all, forest, parent, base)
    ensures Sits(all, forest[1..], parent, base + 1 + |Flatten(forest[0].children)|)
  {
    var inner, rest := Flatten(forest[0].children), Flatten(forest[1..]);
    var whole := Flatten(forest);
    var next := base + 1 + |inner|;
    forall j | 0 <= j < |rest|
      ensures all[next + j] == rest[j]
    {
      assert all[base + (1 + |inner| + j)] == whole[1 + |inner| + j] == rest[j];
    }
    if |forest| > 1 {
      var d := forest[1].entry.depth;
      FlattenDeeper(forest[0].children, forest[0].entry.depth);
      forall j | base <= j < next
        ensures all[j].depth >= d
      {
        assert all[base + (j - base)] == whole[j - base];
      }
      NearestSkips(all, base, next, d);
      NearestAgrees(all, base, forest[0].entry.depth, d, parent);
    }
  }

  lemma {:induction false} NearestAgrees(all: seq<Entry>, i: nat, d: nat, d': nat, parent: Option<nat>)
    requires i <= |all| && d' <= d && Nearest(all, i, d) == parent
    requires parent.Some? ==> parent.value < i && all[parent.value].depth < d'
    ensures Nearest(all, i, d') == parent
  {
    if i > 0 && all[i - 1].depth >= d {
      NearestAgrees(all, i - 1, d, d', parent);
    }
  }

  predicate Right(all: seq<Entry>, parents: seq<Option<nat>>, base: nat) {
    && base + |parents| <= |all|
    && forall k :: 0 <= k < |parents| ==> parents[k] == Nearest(all, base + k, all[base + k].depth)
  }

  lemma RightJoin(
    all: seq<Entry>, parents: seq<Option<nat>>, parent: Option<nat>, xs: seq<Option<nat>>, ys: seq<Option<nat>>, base: nat)
    requires parents == [parent] + xs + ys
    requires Right(all, [parent], base) && Right(all, xs, base + 1) && Right(all, ys, base + 1 + |xs|)
    ensures Right(all, parents, base)
  {
    forall k | 0 <= k < |parents|
      ensures parents[k] == Nearest(all, base + k, all[base + k].depth)
    {
      if k == 0 {
        assert parents[k] == [parent][k];
      } else if k <= |xs| {
        assert parents[k] == xs[k - 1] && base + k == base + 1 + (k - 1);
      } else {
        assert parents[k] == ys[k - 1 - |xs|] && base + k == base + 1 + |xs| + (k - 1 - |xs|);
      }
    }
  }

  lemma RootIsRight(all: seq<Entry>, forest: seq<Section>, parent: Option<nat>, base: nat)
    requires forest != [] && Sits(all, forest, parent, base)
    ensures Right(all, [parent], base)
  {
    assert all[base + 0] == Flatten(forest)[0];
  }

  lemma {:induction false} ParentsAreNearest(all: seq<Entry>, forest: seq<Section>, parent: Option<nat>, base: nat)
    requires Sits(all, forest, parent, base)
    ensures Right(all, Parents(forest, parent, base), base)
    decreases forest
  {
    if forest != [] {
      var inner, n := forest[0].children, |Flatten(forest[0].children)|;
      RootIsRight(all, forest, parent, base);
      SitsInside(all, forest, parent, base);
      SitsAfter(all, forest, parent, base);
      ParentsAreNearest(all, inner, Some(base), base + 1);
      ParentsAreNearest(all, forest[1..], parent, base + 1 + n);
      ForestIsRight(all, forest, parent, base);
    }
  }

  lemma ForestIsRight(all: seq<Entry>, forest: seq<Section>, parent: Option<nat>, base: nat)
    requires forest != [] && Right(all, [parent], base)
    requires Right(all, Parents(forest[0].children, Some(base), base + 1), base + 1)
    requires var next := base + 1 + |Flatten(forest[0].children)|;
             Right(all, Parents(forest[1..], parent, next), next)
    ensures Right(all, Parents(forest, parent, base), base)
  {
    var inner, next := forest[0].children, base + 1 + |Flatten(forest[0].children)|;
    ParentsLength(inner, Some(base), base + 1);
    RightJoin(all, Parents(forest, parent, base), parent, Parents(inner, Some(base), base + 1), Parents(forest[1..], parent, next), base);
  }

  /** In the tree, the parent of a heading is the nearest earlier heading of strictly smaller depth. */
  lemma ParentIsNearestShallower(entries: seq<Entry>, k: nat)
    requires k < |entries|
    ensures var parents := Parents(Tree(entries), None, 0);
            |parents| == |entries| && parents[k] == Nearest(entries, k, entries[k].depth)
  {
    FlattenTree(entries);
    TreeIsWellNested(entries);
    assert Nearest(entries, 0, Tree(entries)[0].entry.depth) == None;
    ParentsLength(Tree(entries), None, 0);
    ParentsAreNearest(entries, Tree(entries), None, 0);
    assert Parents(Tree(entries), None, 0)[k] == Nearest(entries, 0 + k, entries[0 + k].depth);
  }
}
