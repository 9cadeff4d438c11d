/**
  Writing the sections and chunks of one document version over whatever an
  earlier attempt left: rows are keyed by ordinal and by chunk index, existing
  keys are overwritten in place, and what lies beyond is deleted.
*/
module Reingest {
  import opened Wrappers
  import opened SectionTree
  import opened Chunker

  datatype SectionRow = SectionRow(id: nat, parent: Option<nat>, heading: Option<string>, path: seq<string>, depth: nat)

  datatype ChunkRow = ChunkRow(id: nat, content: string, hash: string, scope: seq<nat>, sectionId: Option<nat>)

  type Sections = map<nat, SectionRow>

  // ---- The layout a forest asks for ----

  /** One planned row; `parent` is the ordinal of the parent's row. */
  datatype Plan = Plan(parent: Option<nat>, heading: Option<string>, path: seq<string>, depth: nat)

  function Extend(path: seq<string>, heading: Option<string>): seq<string> {
    if heading.None? then path else path + [heading.value]
  }

  function PathOf(path: seq<string>, e: Entry): seq<string> {
    Extend(path, HeadingOf(e))
  }

  function PlanOf(e: Entry, parent: Option<nat>, path: seq<string>): Plan {
    Plan(parent, HeadingOf(e), PathOf(path, e), e.depth)
  }

  /** The rows of a forest in document order, numbered from `base`. */
  function Layout(forest: seq<Section>, parent: Option<nat>, path: seq<string>, base: nat): seq<Plan> {
    if forest == [] then []
    else
      var e, inner := forest[0].entry, forest[0].children;
      [PlanOf(e, parent, path)]
      + Layout(inner, Some(base), PathOf(path, e), base + 1)
      + Layout(forest[1..], parent, path, base + 1 + |Flatten(inner)|)
  }

  lemma {:induction false} LayoutLength(forest: seq<Section>, parent: Option<nat>, path: seq<string>, base: nat)
    ensures |Layout(forest, parent, path, base)| == |Flatten(forest)|
  {
    if forest != [] {
      var inner := forest[0].children;
      LayoutLength(inner, Some(base), PathOf(path, forest[0].entry), base + 1);
      LayoutLength(forest[1..], parent, path, base + 1 + |Flatten(inner)|);
    }
  }

  lemma {:induction false} LayoutConcat(xs: seq<Section>, ys: seq<Section>, parent: Option<nat>, path: seq<string>, base: nat)
    ensures Layout(xs + ys, parent, path, base)
            == Layout(xs, parent, path, base) + Layout(ys, parent, path, base + |Flatten(xs)|)
  {
    if xs == [] {
      assert xs + ys == ys;
    } else {
      assert (xs + ys)[1..] == xs[1..] + ys;
      LayoutConcat(xs[1..], ys, parent, path, base + 1 + |Flatten(xs[0].children)|);
    }
  }

  /** One row extends its parent's path, and the parent is either the outer one or an earlier row. */
  predicate Links(plans: seq<Plan>, k: nat, base: nat, parent: Option<nat>, path: seq<string>)
    requires k < |plans|
  {
    var p := plans[k];
    || (p.parent == parent && p.path == Extend(path, p.heading))
    || (&& p.parent.Some?
        && base <= p.parent.value < base + k
        && p.path == Extend(plans[p.parent.value - base].path, p.heading))
  }

  predicate Linked(plans: seq<Plan>, base: nat, parent: Option<nat>, path: seq<string>) {
    forall k :: 0 <= k < |plans| ==> Links(plans, k, base, parent, path)
  }

  lemma LinkedJoin(p: Plan, xs: seq<Plan>, ys: seq<Plan>, base: nat, parent: Option<nat>, path: seq<string>)
    requires p.parent == parent && p.path == Extend(path, p.heading)
    requires Linked(xs, base + 1, Some(base), p.path) && Linked(ys, base + 1 + |xs|, parent, path)
    ensures Linked([p] + xs + ys, base, parent, path)
  {
    var all := [p] + xs + ys;
    forall k | 0 <= k < |all|
      ensures Links(all, k, base, parent, path)
    {
      if 0 < k <= |xs| {
        assert all[k] == xs[k - 1];
        assert Links(xs, k - 1, base + 1, Some(base), p.path);
        if xs[k - 1].parent == Some(base) && xs[k - 1].path == Extend(p.path, xs[k - 1].heading) {
          assert all[0] == p;
        } else {
          var q := xs[k - 1].parent.value;
          assert all[q - base] == xs[q - (base + 1)];
        }
      } else if k > |xs| {
        var i := k - 1 - |xs|;
        assert all[k] == ys[i];
        assert Links(ys, i, base + 1 + |xs|, parent, path);
        if !(ys[i].parent == parent && ys[i].path == Extend(path, ys[i].heading)) {
          var q := ys[i].parent.value;
          assert all[q - base] == ys[q - (base + 1 + |xs|)];
        }
      }
    }
  }

  lemma {:induction false} LayoutIsLinked(forest: seq<Section>, parent: Option<nat>, path: seq<string>, base: nat)
    ensures Linked(Layout(forest, parent, path, base), base, parent, path)
  {
    if forest != [] {
      var e, inner := forest[0].entry, forest[0].children;
      var next := base + 1 + |Flatten(inner)|;
      var p, xs, ys := PlanOf(e, parent, path), Layout(inner, Some(base), PathOf(path, e), base + 1), Layout(forest[1..], parent, path, next);
      assert Layout(forest, parent, path, base) == [p] + xs + ys;
      LayoutIsLinked(inner, Some(base), PathOf(path, e), base + 1);
      LayoutIsLinked(forest[1..], parent, path, next);
      LayoutLength(inner, Some(base), PathOf(path, e), base + 1);
      LinkedJoin(p, xs, ys, base, parent, path);
    }
  }

  /** Parents stand before their children. */
  predicate Backward(plans: seq<Plan>, base: nat) {
    forall k :: 0 <= k < |plans| && plans[k].parent.Some? ==> plans[k].parent.value < base + k
  }

  lemma LinkedIsBackward(plans: seq<Plan>, base: nat, parent: Option<nat>, path: seq<string>)
    requires Linked(plans, base, parent, path) && (parent.Some? ==> parent.value < base)
    ensures Backward(plans, base)
  {
    forall k | 0 <= k < |plans| && plans[k].parent.Some?
      ensures plans[k].parent.value < base + k
    {
      assert Links(plans, k, base, parent, path);
    }
  }

  predicate Agrees(plans: seq<Plan>, parents: seq<Option<nat>>, entries: seq<Entry>) {
    && |plans| == |parents| == |entries|
    && forall k :: 0 <= k < |plans| ==>
         plans[k].parent == parents[k] && plans[k].depth == entries[k].depth && plans[k].heading == HeadingOf(entries[k])
  }

  lemma AgreesJoin(
    a: seq<Plan>, pa: seq<Option<nat>>, ea: seq<Entry>, b: seq<Plan>, pb: seq<Option<nat>>, eb: seq<Entry>)
    requires Agrees(a, pa, ea) && Agrees(b, pb, eb)
    ensures Agrees(a + b, pa + pb, ea + eb)
  {
  }

  /** The layout has the parents, the headings and the depths of the forest. */
  lemma {:induction false} LayoutAgrees(forest: seq<Section>, parent: Option<nat>, path: seq<string>, base: nat)
    ensures Agrees(Layout(forest, parent, path, base), Parents(forest, parent, base), Flatten(forest))
  {
    if forest != [] {
      var e, inner := forest[0].entry, forest[0].children;
      var xs, px := Layout(inner, Some(base), PathOf(path, e), base + 1), Parents(inner, Some(base), base + 1);
      LayoutAgrees(inner, Some(base), PathOf(path, e), base + 1);
      LayoutAgrees(forest[1..], parent, path, base + 1 + |Flatten(inner)|);
      AgreesJoin([PlanOf(e, parent, path)], [parent], [e], xs, px, Flatten(inner));
      AgreesJoin([PlanOf(e, parent, path)] + xs, [parent] + px, [e] + Flatten(inner),
                 Layout(forest[1..], parent, path, base + 1 + |Flatten(inner)|),
                 Parents(forest[1..], parent, base + 1 + |Flatten(inner)|), Flatten(forest[1..]));
    }
  }

  /** The headings of the ancestors of row `k`, outermost first, then its own; headings that are empty are left out. */
  function Trail(plans: seq<Plan>, k: nat): seq<string>
    requires k < |plans| && Backward(plans, 0)
    decreases k
  {
    Extend(if plans[k].parent.None? then [] else Trail(plans, plans[k].parent.value), plans[k].heading)
  }

  lemma {:induction false} PathIsTrail(plans: seq<Plan>, k: nat)
    requires k < |plans| && Backward(plans, 0) && Linked(plans, 0, None, [])
    ensures plans[k].path == Trail(plans, k)
    decreases k
  {
    assert Links(plans, k, 0, None, []);
    if plans[k].parent.Some? {
      PathIsTrail(plans, plans[k].parent.value);
    }
  }

  /** In the layout of a whole document, the path of a row is the headings of its ancestors and its own. */
  lemma PathIsAncestorHeadings(forest: seq<Section>, k: nat)
    requires k < |Flatten(forest)|
    ensures var plans := Layout(forest, None, [], 0);
            Backward(plans, 0) && k < |plans| && plans[k].path == Trail(plans, k)
  {
    var plans := Layout(forest, None, [], 0);
    LayoutIsLinked(forest, None, [], 0);
    LayoutLength(forest, None, [], 0);
    LinkedIsBackward(plans, 0, None, []);
    PathIsTrail(plans, k);
  }
}
