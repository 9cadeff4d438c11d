/**
  What packing leaves out it had to leave out: neither a chunk nor a
  relationship that is missing from the prompt would fit beside what is there.
*/
module LeftOut {
  import opened Wrappers
  import opened PromptText
  import opened ContextBuilder

  /** The counter depends on the size of the user message and grows with it. */
  ghost predicate SizeMonotone(g: Settings) {
    forall u, v | |u| <= |v| && g.count(g.system, v).Ok? ::
      g.count(g.system, u).Ok? && g.count(g.system, u).value <= g.count(g.system, v).value
  }

  lemma ByteUpperBoundIsMonotone(g: Settings)
    requires g.count == ByteUpperBound
    ensures SizeMonotone(g)
  {
  }

  lemma ShorterFits(g: Settings, s: string, t: string)
    requires SizeMonotone(g) && |s| <= |t| && Fit(g, t) == Ok(true)
    ensures Fit(g, s) == Ok(true)
  {
    assert |s + g.query| <= |t + g.query|;
  }

  lemma PackGrows(g: Settings, evidence: seq<Evidence>, k: nat)
    requires Pack(g, evidence).Ok? && k <= |evidence|
    ensures Pack(g, evidence[..k]).Ok?
    ensures Pack(g, evidence[..k]).value.blocks <= Pack(g, evidence).value.blocks
    ensures Pack(g, evidence[..k]).value.included <= Pack(g, evidence).value.included
    decreases |evidence|
  {
    if k < |evidence| {
      var init := evidence[..|evidence| - 1];
      assert init[..k] == evidence[..k];
      PackGrows(g, init, k);
    } else {
      assert evidence[..k] == evidence;
    }
  }

  lemma ChunkBlockGrows(m: nat, n: nat, text: string)
    requires m <= n
    ensures |ChunkBlock(m, text)| <= |ChunkBlock(n, text)|
  {
    DecimalGrows(m, n);
  }

  lemma PrefixIsShorter(render: Block -> string, xs: seq<Block>, ys: seq<Block>)
    requires xs <= ys
    ensures |Joined(render, xs)| <= |Joined(render, ys)|
  {
    assert ys == xs + ys[|xs|..];
    JoinedConcat(render, xs, ys[|xs|..]);
  }

  /** A higher label never makes a source block shorter. */
  ghost predicate LabelMonotone(render: Block -> string) {
    forall m: nat, n: nat, id, text {:trigger render(Src(m, id, text)), render(Src(n, id, text))} ::
      m <= n ==> |render(Src(m, id, text))| <= |render(Src(n, id, text))|
  }

  lemma RenderIsLabelMonotone()
    ensures LabelMonotone(Render)
  {
    forall m: nat, n: nat, id: string, text: string | m <= n
      ensures |Render(Src(m, id, text))| <= |Render(Src(n, id, text))|
    {
      ChunkBlockGrows(m, n, text);
    }
  }

  /** A new source block never takes less room later on. */
  lemma LaterIsLonger(render: Block -> string, xs: seq<Block>, ys: seq<Block>, id: string, text: string)
    requires LabelMonotone(render) && xs <= ys && id !in Sources(ys)
    ensures id !in Sources(xs)
    ensures |Joined(render, xs + Missing(Sources(xs), id, text))| <= |Joined(render, ys + Missing(Sources(ys), id, text))|
  {
    SourcesOfPrefix(ys, |xs|);
    assert ys[..|xs|] == xs;
    PrefixIsShorter(render, xs, ys);
    JoinedWithOne(render, xs, Src(|Sources(xs)| + 1, id, text));
    JoinedWithOne(render, ys, Src(|Sources(ys)| + 1, id, text));
  }

  /** The item cap is reached, or the item does not fit beside what was packed. */
  predicate NoRoom(g: Settings, p: Packed, item: Evidence) {
    p.included >= g.cap || Fit(g, Joined(g.render, p.blocks + Additions(p.blocks, item))) != Ok(true)
  }

  lemma RefusedForAReason(g: Settings, p: Packed, item: Evidence, q: Packed)
    requires item.Chunk? && Place(g, p, Additions(p.blocks, item)) == Ok(q) && item.id !in Sources(q.blocks)
    ensures NoRoom(g, p, item)
  {
    SourcesWithMissing(p.blocks, item.id, item.text);
  }

  lemma StillRefused(g: Settings, before: Packed, item: Evidence, after: Packed, p: Packed)
    requires SizeMonotone(g) && LabelMonotone(g.render) && item.Chunk? && Place(g, before, Additions(before.blocks, item)) == Ok(after)
    requires before.blocks <= after.blocks <= p.blocks && before.included <= p.included
    requires item.id !in Sources(p.blocks)
    ensures NoRoom(g, p, item)
  {
    assert p.blocks[..|after.blocks|] == after.blocks;
    SourcesOfPrefix(p.blocks, |after.blocks|);
    LaterIsLonger(g.render, before.blocks, p.blocks, item.id, item.text);
    RefusedForAReason(g, before, item, after);
    var short, long := Joined(g.render, before.blocks + Additions(before.blocks, item)), Joined(g.render, p.blocks + Additions(p.blocks, item));
    if Fit(g, long) == Ok(true) {
      ShorterFits(g, short, long);
    }
  }

  /**
    A chunk whose text is not in the prompt is left out for a reason: the item
    cap was reached, or it does not fit beside what was packed.
  */
  lemma NothingThatFitsIsLeftOut(g: Settings, evidence: seq<Evidence>, k: nat)
    requires SizeMonotone(g) && LabelMonotone(g.render) && Standard(g) && Pack(g, evidence).Ok?
    requires k < |evidence| && evidence[k].Chunk? && evidence[k].id !in Sources(Pack(g, evidence).value.blocks)
    ensures NoRoom(g, Pack(g, evidence).value, evidence[k])
  {
    PackGrows(g, evidence, k);
    PackGrows(g, evidence, k + 1);
    assert evidence[..k + 1][..k] == evidence[..k];
    StillRefused(g, Pack(g, evidence[..k]).value, evidence[k], Pack(g, evidence[..k + 1]).value, Pack(g, evidence).value);
  }

  // ---- Relationships ----

  function Width(n: nat): nat {
    |Decimal(n)|
  }

  /** How often a relationship writes each of its two labels. */
  function Mentions(r: Relationship): nat {
    if r.direction == "symmetric" then 1 else 2
  }

  lemma SourceWidth(m: nat, n: nat, id: string, text: string)
    ensures |Render(Src(m, id, text))| + Width(n) == |Render(Src(n, id, text))| + Width(m)
  {
  }

  /** Only the widths of its numbers decide how long a relationship is, and its labels count alike. */
  lemma RelationWidth(n: nat, r: Relationship, a: nat, b: nat, n': nat, a': nat, b': nat)
    ensures |Render(Rel(n, r, a, b))| + Width(n') + Mentions(r) * (Width(a') + Width(b'))
            == |Render(Rel(n', r, a', b'))| + Width(n) + Mentions(r) * (Width(a) + Width(b))
  {
    RelationLength(n, r, a, b);
    RelationLength(n', r, a', b');
  }

  function Lines(r: Relationship, left: nat, right: nat): nat {
    var (l, m) := if LeftIsFirst(r) then (r.endpoint0, r.endpoint1) else (r.endpoint1, r.endpoint0);
    |EndpointLine("A", left, l.heading)| + |EndpointLine("B", right, m.heading)| + |Direction(r, left, right)|
  }

  lemma RelationLength(n: nat, r: Relationship, a: nat, b: nat)
    ensures |Render(Rel(n, r, a, b))| + 1 + Mentions(r) * 2
            == |Heading(0, r)| + Lines(r, 0, 0) + 1 + Width(n) + Mentions(r) * (Width(a) + Width(b))
  {
    var (left, right) := if LeftIsFirst(r) then (a, b) else (b, a);
    BlockLength(n, r, a, b, left, right);
    HeadingLength(n, r);
    LinesLength(r, left, right);
  }

  lemma BlockLength(n: nat, r: Relationship, a: nat, b: nat, left: nat, right: nat)
    requires (left, right) == if LeftIsFirst(r) then (a, b) else (b, a)
    ensures |RelationshipBlock(n, r, a, b)| == |Heading(n, r)| + Lines(r, left, right) + 1
  {
  }

  lemma HeadingLength(n: nat, r: Relationship)
    ensures |Heading(n, r)| + 1 == |Heading(0, r)| + Width(n)
  {
  }

  lemma LinesLength(r: Relationship, left: nat, right: nat)
    ensures Lines(r, left, right) + Mentions(r) * 2 == Lines(r, 0, 0) + Mentions(r) * (Width(left) + Width(right))
  {
    var (l, m) := if LeftIsFirst(r) then (r.endpoint0, r.endpoint1) else (r.endpoint1, r.endpoint0);
    LineLength("A", left, l.heading);
    LineLength("B", right, m.heading);
    DirectionLength(r, left, right);
  }

  lemma LineLength(side: string, n: nat, heading: Option<string>)
    ensures |EndpointLine(side, n, heading)| + 1 == |EndpointLine(side, 0, heading)| + Width(n)
  {
  }

  lemma DirectionLength(r: Relationship, left: nat, right: nat)
    ensures |Direction(r, left, right)| + (Mentions(r) - 1) * 2 == |Direction(r, 0, 0)| + (Mentions(r) - 1) * (Width(left) + Width(right))
  {
  }

  lemma WidthGrows(m: nat, n: nat)
    requires m <= n
    ensures Width(m) <= Width(n)
  {
    DecimalGrows(m, n);
  }

  /** A number's width changes the length of any two source blocks alike. */
  predicate SourcesAlike(render: Block -> string, m: nat, n: nat, id: string, text: string, id': string, text': string) {
    |render(Src(m, id, text))| + |render(Src(n, id', text'))| == |render(Src(n, id, text))| + |render(Src(m, id', text'))|
  }

  /** Higher numbers and labels, whichever endpoint has which. */
  predicate Higher(n: nat, a: nat, b: nat, n': nat, a': nat, b': nat) {
    n <= n' && ((a <= a' && b <= b') || (a <= b' && b <= a'))
  }

  /** What the lengths of blocks have to do with their numbers. */
  ghost predicate Orderly(render: Block -> string) {
    && LabelMonotone(render)
    && (forall m, n, id, text, id', text' {:trigger SourcesAlike(render, m, n, id, text, id', text')} ::
          SourcesAlike(render, m, n, id, text, id', text'))
    && (forall r, n: nat, a: nat, b: nat, n': nat, a': nat, b': nat {:trigger render(Rel(n, r, a, b)), render(Rel(n', r, a', b'))} ::
          Higher(n, a, b, n', a', b') ==> |render(Rel(n, r, a, b))| <= |render(Rel(n', r, a', b'))|)
  }

  lemma RenderIsOrderly()
    ensures Orderly(Render)
  {
    RenderIsLabelMonotone();
    forall m, n, id, text, id', text' ensures SourcesAlike(Render, m, n, id, text, id', text') {
      SourceWidth(m, n, id, text);
      SourceWidth(m, n, id', text');
    }
    forall r, n: nat, a: nat, b: nat, n': nat, a': nat, b': nat | Higher(n, a, b, n', a', b')
      ensures |Render(Rel(n, r, a, b))| <= |Render(Rel(n', r, a', b'))|
    {
      HigherIsLonger(n, r, a, b, n', a', b');
    }
  }

  lemma HigherIsLonger(n: nat, r: Relationship, a: nat, b: nat, n': nat, a': nat, b': nat)
    requires Higher(n, a, b, n', a', b')
    ensures |Render(Rel(n, r, a, b))| <= |Render(Rel(n', r, a', b'))|
  {
    RelationWidth(n, r, a, b, n', a', b');
    WidthGrows(n, n');
    if a <= a' && b <= b' {
      WidthGrows(a, a');
      WidthGrows(b, b');
    } else {
      WidthGrows(a, b');
      WidthGrows(b, a');
    }
  }

  /** How long the source block is that `id` still needs. */
  function SourceSize(render: Block -> string, ids: seq<string>, id: string, text: string): nat {
    if id in ids then 0 else |render(Src(|ids| + 1, id, text))|
  }

  /** How much a relationship adds behind `edges` relationships and the sources `ids`. */
  function Size(render: Block -> string, ids: seq<string>, edges: nat, r: Relationship): nat {
    var ids' := Grown(ids, r.endpoint0.chunkId);
    SourceSize(render, ids, r.endpoint0.chunkId, r.endpoint0.text)
    + SourceSize(render, ids', r.endpoint1.chunkId, r.endpoint1.text)
    + |render(Rel(edges + 1, r, Assigned(ids, r.endpoint0.chunkId), Assigned(ids', r.endpoint1.chunkId)))|
  }

  lemma JoinedOne(render: Block -> string, b: Block)
    ensures Joined(render, [b]) == render(b)
  {
    assert [b][..0] == [];
  }

  lemma SourceLength(render: Block -> string, ids: seq<string>, id: string, text: string)
    ensures |Joined(render, Missing(ids, id, text))| == SourceSize(render, ids, id, text)
  {
    if id !in ids { JoinedOne(render, Src(|ids| + 1, id, text)); }
  }

  lemma AdditionsLength(render: Block -> string, blocks: seq<Block>, company: string, r: Relationship)
    ensures |Joined(render, blocks + Additions(blocks, Edge(company, r)))|
            == |Joined(render, blocks)| + Size(render, Sources(blocks), |Edges(blocks)|, r)
  {
    var ids := Sources(blocks);
    var ids' := Grown(ids, r.endpoint0.chunkId);
    var first := Missing(ids, r.endpoint0.chunkId, r.endpoint0.text);
    var second := Missing(ids', r.endpoint1.chunkId, r.endpoint1.text);
    var last := Rel(|Edges(blocks)| + 1, r, Assigned(ids, r.endpoint0.chunkId), Assigned(ids', r.endpoint1.chunkId));
    SourceLength(render, ids, r.endpoint0.chunkId, r.endpoint0.text);
    SourceLength(render, ids', r.endpoint1.chunkId, r.endpoint1.text);
    JoinedOne(render, last);
    JoinedParts(render, blocks, first, second, [last]);
  }

  lemma JoinedParts(render: Block -> string, a: seq<Block>, b: seq<Block>, c: seq<Block>, d: seq<Block>)
    ensures |Joined(render, a + (b + c + d))|
            == |Joined(render, a)| + |Joined(render, b)| + |Joined(render, c)| + |Joined(render, d)|
  {
    JoinedConcat(render, a, b + c + d);
    JoinedConcat(render, b + c, d);
    JoinedConcat(render, b, c);
  }

  // ---- A block that comes in between does not make room ----

  lemma {:induction false} LabelStays(ids: seq<string>, more: seq<string>, id: string)
    requires id in ids
    ensures Label(ids + more, id) == Label(ids, id)
  {
    if ids[0] != id {
      assert (ids + more)[1..] == ids[1..] + more;
      LabelStays(ids[1..], more, id);
    }
  }

  /** A relationship in between only raises the number. */
  lemma RelationBetween(render: Block -> string, ids: seq<string>, edges: nat, r: Relationship)
    requires Orderly(render)
    ensures Size(render, ids, edges, r) <= Size(render, ids, edges + 1, r)
  {
  }

  /** The endpoint's own source block in between is one the relationship needs no more. */
  lemma FirstEndpointBetween(render: Block -> string, ids: seq<string>, edges: nat, r: Relationship)
    requires r.endpoint0.chunkId !in ids
    ensures Size(render, ids, edges, r)
            == |render(Src(|ids| + 1, r.endpoint0.chunkId, r.endpoint0.text))| + Size(render, ids + [r.endpoint0.chunkId], edges, r)
  {
    LabelOfLast(ids, r.endpoint0.chunkId);
  }

  lemma LabelOfLast(ids: seq<string>, id: string)
    requires id !in ids
    ensures Label(ids + [id], id) == |ids| + 1
  {
    var all, n := ids + [id], Label(ids + [id], id);
    assert all[n - 1] == id;
    assert forall i :: 0 <= i < |ids| ==> all[i] == ids[i];
  }

  lemma SecondEndpointBetween(render: Block -> string, ids: seq<string>, edges: nat, r: Relationship)
    requires Orderly(render)
    requires r.endpoint1.chunkId !in ids && r.endpoint1.chunkId != r.endpoint0.chunkId
    ensures Size(render, ids, edges, r)
            <= |render(Src(|ids| + 1, r.endpoint1.chunkId, r.endpoint1.text))| + Size(render, ids + [r.endpoint1.chunkId], edges, r)
  {
    var x, y, n := r.endpoint0, r.endpoint1, |ids|;
    LabelOfLast(ids, y.chunkId);
    if x.chunkId in ids {
      LabelStays(ids, [y.chunkId], x.chunkId);
    } else {
      BothAhead(render, ids, edges, r);
      BothBehind(render, ids, edges, r);
      LabelsSwapped(render, x, y, n + 1, n + 2);
    }
  }

  lemma LabelsSwapped(render: Block -> string, x: Endpoint, y: Endpoint, m: nat, n: nat)
    requires Orderly(render)
    ensures |render(Src(m, x.chunkId, x.text))| + |render(Src(n, y.chunkId, y.text))|
            == |render(Src(n, x.chunkId, x.text))| + |render(Src(m, y.chunkId, y.text))|
  {
    assert SourcesAlike(render, m, n, x.chunkId, x.text, y.chunkId, y.text);
  }

  lemma BothAhead(render: Block -> string, ids: seq<string>, edges: nat, r: Relationship)
    requires r.endpoint0.chunkId !in ids && r.endpoint1.chunkId !in ids && r.endpoint1.chunkId != r.endpoint0.chunkId
    ensures Size(render, ids, edges, r)
            == |render(Src(|ids| + 1, r.endpoint0.chunkId, r.endpoint0.text))|
               + |render(Src(|ids| + 2, r.endpoint1.chunkId, r.endpoint1.text))|
               + |render(Rel(edges + 1, r, |ids| + 1, |ids| + 2))|
  {
    var ids' := Grown(ids, r.endpoint0.chunkId);
    assert |ids'| == |ids| + 1 && r.endpoint1.chunkId !in ids';
    SizeIs(render, ids, ids', edges, r, |ids| + 1, |ids| + 2);
  }

  lemma SizeIs(render: Block -> string, ids: seq<string>, ids': seq<string>, edges: nat, r: Relationship, a: nat, b: nat)
    requires ids' == Grown(ids, r.endpoint0.chunkId)
    requires a == Assigned(ids, r.endpoint0.chunkId) && b == Assigned(ids', r.endpoint1.chunkId)
    ensures Size(render, ids, edges, r)
            == SourceSize(render, ids, r.endpoint0.chunkId, r.endpoint0.text) + SourceSize(render, ids', r.endpoint1.chunkId, r.endpoint1.text)
               + |render(Rel(edges + 1, r, a, b))|
  {
  }

  lemma BothBehind(render: Block -> string, ids: seq<string>, edges: nat, r: Relationship)
    requires r.endpoint0.chunkId !in ids && r.endpoint1.chunkId !in ids && r.endpoint1.chunkId != r.endpoint0.chunkId
    ensures Size(render, ids + [r.endpoint1.chunkId], edges, r)
            == |render(Src(|ids| + 2, r.endpoint0.chunkId, r.endpoint0.text))|
               + |render(Rel(edges + 1, r, |ids| + 2, |ids| + 1))|
  {
    LabelOfLast(ids, r.endpoint1.chunkId);
    LabelStays(ids + [r.endpoint1.chunkId], [r.endpoint0.chunkId], r.endpoint1.chunkId);
    var later := ids + [r.endpoint1.chunkId];
    SizeIs(render, later, Grown(later, r.endpoint0.chunkId), edges, r, |ids| + 2, |ids| + 1);
  }

  /** Any other source in between only raises the labels. */
  lemma SourceBetween(render: Block -> string, ids: seq<string>, edges: nat, r: Relationship, id: string)
    requires Orderly(render)
    requires id !in ids && id != r.endpoint0.chunkId && id != r.endpoint1.chunkId
    ensures Size(render, ids, edges, r) <= Size(render, ids + [id], edges, r)
  {
    var x, y := r.endpoint0.chunkId, r.endpoint1.chunkId;
    SourceLater(render, ids, ids + [id], x, r.endpoint0.text);
    LabelLater(ids, id, x, x);
    SourceLater(render, Grown(ids, x), Grown(ids + [id], x), y, r.endpoint1.text);
    LabelLater(ids, id, x, y);
  }

  lemma SourceLater(render: Block -> string, ids: seq<string>, ids': seq<string>, id: string, text: string)
    requires Orderly(render)
    requires (id in ids <==> id in ids') && |ids| <= |ids'|
    ensures SourceSize(render, ids, id, text) <= SourceSize(render, ids', id, text)
  {
    assert LabelMonotone(render);
  }

  lemma LabelLater(ids: seq<string>, id: string, x: string, y: string)
    requires id !in ids && id != x && id != y
    ensures Assigned(ids, x) <= Assigned(ids + [id], x)
    ensures Assigned(Grown(ids, x), y) <= Assigned(Grown(ids + [id], x), y)
  {
    if x in ids { LabelStays(ids, [id], x); }
    if y in ids {
      LabelStays(ids, [id], y);
      LabelStays(ids, [x], y);
      LabelStays(ids + [id], [x], y);
    } else if y == x {
      LabelOfLast(ids, x);
      LabelOfLast(ids + [id], x);
    }
  }

  /** The text a relationship brings along for one of its endpoints; for two endpoints with one id it is the first one's. */
  function TextOf(r: Relationship, id: string): string {
    if id == r.endpoint0.chunkId then r.endpoint0.text else r.endpoint1.text
  }

  predicate IsEndpoint(r: Relationship, id: string) {
    id == r.endpoint0.chunkId || id == r.endpoint1.chunkId
  }

  /** The text is not shorter to write than the one the relationship brings for this id, if it is an endpoint's. */
  predicate NotShorter(render: Block -> string, r: Relationship, id: string, text: string) {
    IsEndpoint(r, id) ==> |render(Src(1, id, TextOf(r, id)))| <= |render(Src(1, id, text))|
  }

  lemma NotShorterAtAll(render: Block -> string, r: Relationship, n: nat, id: string, text: string)
    requires Orderly(render) && NotShorter(render, r, id, text) && IsEndpoint(r, id)
    ensures |render(Src(n, id, TextOf(r, id)))| <= |render(Src(n, id, text))|
  {
    assert SourcesAlike(render, n, 1, id, text, id, TextOf(r, id));
  }

  lemma SourcesWithOne(blocks: seq<Block>, b: Block)
    ensures Sources(blocks + [b]) == if b.Src? then Sources(blocks) + [b.id] else Sources(blocks)
    ensures |Edges(blocks + [b])| == |Edges(blocks)| + if b.Rel? then 1 else 0
  {
    SourcesOfOne(b);
    SourcesConcat(blocks, [b]);
  }

  predicate AllNotShorter(render: Block -> string, blocks: seq<Block>, r: Relationship) {
    forall k :: 0 <= k < |blocks| && blocks[k].Src? ==> NotShorter(render, r, blocks[k].id, blocks[k].text)
  }

  lemma BlockBetween(render: Block -> string, blocks: seq<Block>, b: Block, r: Relationship)
    requires Orderly(render)
    requires Continues(blocks, b) && (b.Src? ==> NotShorter(render, r, b.id, b.text))
    ensures Size(render, Sources(blocks), |Edges(blocks)|, r)
            <= |render(b)| + Size(render, Sources(blocks + [b]), |Edges(blocks + [b])|, r)
  {
    var ids, edges := Sources(blocks), |Edges(blocks)|;
    SourcesWithOne(blocks, b);
    if b.Rel? {
      RelationBetween(render, ids, edges, r);
    } else if IsEndpoint(r, b.id) {
      NotShorterAtAll(render, r, b.n, b.id, b.text);
      if b.id == r.endpoint0.chunkId {
        FirstEndpointBetween(render, ids, edges, r);
      } else {
        SecondEndpointBetween(render, ids, edges, r);
      }
    } else {
      SourceBetween(render, ids, edges, r, b.id);
    }
  }

  /** Behind more blocks a relationship never ends earlier, if its endpoints are among them with texts that are not shorter. */
  lemma {:induction false} RelationEndsLater(render: Block -> string, xs: seq<Block>, ys: seq<Block>, r: Relationship)
    requires Orderly(render)
    requires xs <= ys && WellLabelled(ys) && AllNotShorter(render, ys, r)
    ensures |Joined(render, xs)| + Size(render, Sources(xs), |Edges(xs)|, r)
            <= |Joined(render, ys)| + Size(render, Sources(ys), |Edges(ys)|, r)
    decreases |ys|
  {
    if |xs| < |ys| {
      var init, b := ys[..|ys| - 1], ys[|ys| - 1];
      assert ys == init + [b];
      RelationEndsLater(render, xs, init, r);
      BlockBetween(render, init, b, r);
      JoinedWithOne(render, init, b);
    } else {
      assert xs == ys;
    }
  }

  // ---- Which texts the evidence gives an id ----

  predicate Mentioned(item: Evidence, id: string, text: string) {
    match item
    case Chunk(_, i, t) => i == id && t == text
    case Edge(_, r) =>
      || (r.endpoint0.chunkId == id && r.endpoint0.text == text)
      || (r.endpoint1.chunkId == id && r.endpoint1.text == text)
  }

  /** No item gives an endpoint of the relationship a text that is shorter to write. */
  ghost predicate NothingShorter(render: Block -> string, evidence: seq<Evidence>, r: Relationship) {
    forall i, id, text :: 0 <= i < |evidence| && Mentioned(evidence[i], id, text) ==> NotShorter(render, r, id, text)
  }

  /** Every source block carries an id and a text that some item mentions together. */
  ghost predicate AllMentioned(evidence: seq<Evidence>, blocks: seq<Block>) {
    forall k :: 0 <= k < |blocks| && blocks[k].Src? ==>
      exists i :: 0 <= i < |evidence| && Mentioned(evidence[i], blocks[k].id, blocks[k].text)
  }

  lemma {:induction false} PackMentions(g: Settings, evidence: seq<Evidence>)
    requires Standard(g) && Pack(g, evidence).Ok?
    ensures AllMentioned(evidence, Pack(g, evidence).value.blocks)
  {
    if evidence != [] {
      var init, last := evidence[..|evidence| - 1], evidence[|evidence| - 1];
      var blocks := Pack(g, init).value.blocks;
      PackMentions(g, init);
      StillMentioned(evidence, blocks);
      AdditionsMentioned(evidence, blocks);
      assert g.blocksOf(blocks, last) == Additions(blocks, last);
      BothMentioned(evidence, blocks, Additions(blocks, last));
    }
  }

  lemma StillMentioned(evidence: seq<Evidence>, blocks: seq<Block>)
    requires evidence != [] && AllMentioned(evidence[..|evidence| - 1], blocks)
    ensures AllMentioned(evidence, blocks)
  {
    var init := evidence[..|evidence| - 1];
    forall k | 0 <= k < |blocks| && blocks[k].Src?
      ensures exists i :: 0 <= i < |evidence| && Mentioned(evidence[i], blocks[k].id, blocks[k].text)
    {
      var i :| 0 <= i < |init| && Mentioned(init[i], blocks[k].id, blocks[k].text);
      assert Mentioned(evidence[i], blocks[k].id, blocks[k].text);
    }
  }

  lemma AdditionsMentioned(evidence: seq<Evidence>, blocks: seq<Block>)
    requires evidence != []
    ensures AllMentioned(evidence, Additions(blocks, evidence[|evidence| - 1]))
  {
    var last := |evidence| - 1;
    var more := Additions(blocks, evidence[last]);
    forall k | 0 <= k < |more| && more[k].Src?
      ensures exists i :: 0 <= i < |evidence| && Mentioned(evidence[i], more[k].id, more[k].text)
    {
      assert Mentioned(evidence[last], more[k].id, more[k].text);
    }
  }

  lemma BothMentioned(evidence: seq<Evidence>, xs: seq<Block>, ys: seq<Block>)
    requires AllMentioned(evidence, xs) && AllMentioned(evidence, ys)
    ensures AllMentioned(evidence, xs + ys)
  {
  }

  lemma BlocksNotShorter(render: Block -> string, evidence: seq<Evidence>, blocks: seq<Block>, r: Relationship)
    requires NothingShorter(render, evidence, r) && AllMentioned(evidence, blocks)
    ensures AllNotShorter(render, blocks, r)
  {
    forall k | 0 <= k < |blocks| && blocks[k].Src? ensures NotShorter(render, r, blocks[k].id, blocks[k].text) {
      var i :| 0 <= i < |evidence| && Mentioned(evidence[i], blocks[k].id, blocks[k].text);
    }
  }

  // ---- No relationship that fits is left out ----

  lemma RelationRefused(g: Settings, p: Packed, item: Evidence, q: Packed)
    requires item.Edge? && Place(g, p, Additions(p.blocks, item)) == Ok(q) && item.rel.edgeId !in Edges(q.blocks)
    ensures NoRoom(g, p, item)
  {
    EdgeIsAdded(p.blocks, item);
  }

  lemma EdgeIsAdded(blocks: seq<Block>, item: Evidence)
    requires item.Edge?
    ensures Additions(blocks, item) != [] && item.rel.edgeId in Edges(blocks + Additions(blocks, item))
  {
    var more := Additions(blocks, item);
    var last := more[|more| - 1];
    assert more == more[..|more| - 1] + [last];
    SourcesOfOne(last);
    SourcesConcat(more[..|more| - 1], [last]);
    SourcesConcat(blocks, more);
  }

  /**
    A relationship that is not in the prompt is left out for a reason too, if
    no item gives one of its endpoints a shorter text.
  */
  lemma NoRelationThatFitsIsLeftOut(g: Settings, evidence: seq<Evidence>, k: nat)
    requires SizeMonotone(g) && Orderly(g.render) && Standard(g) && Pack(g, evidence).Ok?
    requires k < |evidence| && evidence[k].Edge? && evidence[k].rel.edgeId !in Edges(Pack(g, evidence).value.blocks)
    requires NothingShorter(g.render, evidence, evidence[k].rel)
    ensures NoRoom(g, Pack(g, evidence).value, evidence[k])
  {
    PackGrows(g, evidence, k);
    PackGrows(g, evidence, k + 1);
    assert evidence[..k + 1][..k] == evidence[..k];
    var before, after, p := Pack(g, evidence[..k]).value, Pack(g, evidence[..k + 1]).value, Pack(g, evidence).value;
    PackIsWellLabelled(g, evidence);
    PackMentions(g, evidence);
    BlocksNotShorter(g.render, evidence, p.blocks, evidence[k].rel);
    EdgesOfPrefix(p.blocks, after.blocks);
    assert g.blocksOf(before.blocks, evidence[k]) == Additions(before.blocks, evidence[k]);
    RelationRefused(g, before, evidence[k], after);
    RelationStillRefused(g, before, evidence[k], p);
  }

  lemma EdgesOfPrefix(blocks: seq<Block>, prefix: seq<Block>)
    requires prefix <= blocks
    ensures Edges(prefix) <= Edges(blocks)
  {
    SourcesConcat(prefix, blocks[|prefix|..]);
    assert blocks == prefix + blocks[|prefix|..];
  }

  lemma RelationStillRefused(g: Settings, before: Packed, item: Evidence, p: Packed)
    requires SizeMonotone(g) && Orderly(g.render) && item.Edge?
    requires before.blocks <= p.blocks && before.included <= p.included && WellLabelled(p.blocks)
    requires AllNotShorter(g.render, p.blocks, item.rel)
    requires NoRoom(g, before, item)
    ensures NoRoom(g, p, item)
  {
    AdditionsLength(g.render, before.blocks, item.company, item.rel);
    AdditionsLength(g.render, p.blocks, item.company, item.rel);
    RelationEndsLater(g.render, before.blocks, p.blocks, item.rel);
    var short, long := Joined(g.render, before.blocks + Additions(before.blocks, item)), Joined(g.render, p.blocks + Additions(p.blocks, item));
    if Fit(g, long) == Ok(true) {
      ShorterFits(g, short, long);
    }
  }

  // ---- Exactly when every refusal stands ----

  /** The items mention only these ids and texts. */
  ghost predicate DrawnFrom(evidence: seq<Evidence>, pairs: iset<(string, string)>) {
    forall i, id, text :: 0 <= i < |evidence| && Mentioned(evidence[i], id, text) ==> (id, text) in pairs
  }

  /** The k-th item is this relationship, it was refused, and would be again at the end. */
  ghost predicate Stands(g: Settings, evidence: seq<Evidence>, k: nat, r: Relationship)
    requires Pack(g, evidence).Ok?
  {
    k < |evidence| && evidence[k].Edge? && evidence[k].rel == r && r.edgeId !in Edges(Pack(g, evidence).value.blocks) ==>
      NoRoom(g, Pack(g, evidence).value, evidence[k])
  }

  /** Whatever the settings and the evidence drawn from `pairs`, a refusal of the relationship stays justified. */
  ghost predicate RefusalsStand(render: Block -> string, r: Relationship, pairs: iset<(string, string)>) {
    forall g: Settings, evidence, k {:trigger Stands(g, evidence, k, r)} ::
      g.render == render && SizeMonotone(g) && Standard(g) && Pack(g, evidence).Ok? && DrawnFrom(evidence, pairs) ==>
        Stands(g, evidence, k, r)
  }

  /**
    The exact condition: refusals of a relationship stand in all settings and
    for all evidence drawn from a set of ids and texts, if and only if the set
    has no text for one of its endpoints that is shorter to write than its own.
  */
  lemma RefusalsStandIff(render: Block -> string, r: Relationship, pairs: iset<(string, string)>)
    requires Orderly(render)
    requires (r.endpoint0.chunkId, r.endpoint0.text) in pairs && (r.endpoint1.chunkId, r.endpoint1.text) in pairs
    ensures RefusalsStand(render, r, pairs) <==> forall id, text :: (id, text) in pairs ==> NotShorter(render, r, id, text)
  {
    if forall id, text :: (id, text) in pairs ==> NotShorter(render, r, id, text) {
      forall g: Settings, evidence, k: nat |
        g.render == render && SizeMonotone(g) && Standard(g) && Pack(g, evidence).Ok? && DrawnFrom(evidence, pairs)
        ensures Stands(g, evidence, k, r)
      {
        RefusalStands(g, evidence, k, r, pairs);
      }
    } else {
      var id, text :| (id, text) in pairs && !NotShorter(render, r, id, text);
      var g, evidence := ShorterMakesRoom(render, r, id, text);
      assert DrawnFrom(evidence, pairs);
      assert !Stands(g, evidence, 0, r);
    }
  }

  lemma RefusalStands(g: Settings, evidence: seq<Evidence>, k: nat, r: Relationship, pairs: iset<(string, string)>)
    requires Orderly(g.render) && SizeMonotone(g) && Standard(g) && Pack(g, evidence).Ok? && DrawnFrom(evidence, pairs)
    requires forall id, text :: (id, text) in pairs ==> NotShorter(g.render, r, id, text)
    ensures Stands(g, evidence, k, r)
  {
    if k < |evidence| && evidence[k].Edge? && evidence[k].rel == r && r.edgeId !in Edges(Pack(g, evidence).value.blocks) {
      forall i, id, text | 0 <= i < |evidence| && Mentioned(evidence[i], id, text) ensures NotShorter(g.render, r, id, text) {
        assert (id, text) in pairs;
      }
      NoRelationThatFitsIsLeftOut(g, evidence, k);
    }
  }

  /** Settings that count characters, with room for two items. */
  function CharactersOnly(render: Block -> string, budget: nat): Settings {
    Settings((a, b) => Ok(|b|), Additions, render, "", "", budget, SIZE_MAX, 2)
  }

  lemma FitsCharacters(render: Block -> string, budget: nat, s: string)
    ensures Fit(CharactersOnly(render, budget), s) == Ok(|s| <= budget)
  {
    assert s + "" == s;
  }

  /** A chunk with a shorter text for an endpoint makes room for a relationship that was refused before it. */
  lemma ShorterMakesRoom(render: Block -> string, r: Relationship, id: string, text: string) returns (g: Settings, evidence: seq<Evidence>)
    requires Orderly(render) && !NotShorter(render, r, id, text)
    ensures g.render == render && SizeMonotone(g) && Standard(g)
    ensures evidence == [Edge("", r), Chunk("", id, text)]
    ensures Pack(g, evidence) == Ok(Packed([Src(1, id, text)], 1))
    ensures !Stands(g, evidence, 0, r)
  {
    var one := Src(1, id, text);
    var budget := |render(one)| + Size(render, [id], 0, r);
    g := CharactersOnly(render, budget);
    evidence := [Edge("", r), Chunk("", id, text)];
    ShorterBetween(render, r, id, text);
    PackRefused(render, budget, r, evidence[..1]);
    PackTaken(render, budget, evidence, id, text);
    NowItFits(render, budget, r, one);
  }

  /** What a shorter source block for an endpoint takes away from the whole. */
  lemma ShorterBetween(render: Block -> string, r: Relationship, id: string, text: string)
    requires Orderly(render) && !NotShorter(render, r, id, text)
    ensures |render(Src(1, id, text))| + Size(render, [id], 0, r) < Size(render, [], 0, r)
  {
    if id == r.endpoint0.chunkId {
      FirstEndpointBetween(render, [], 0, r);
      assert [] + [id] == [id];
    } else {
      SecondEndpointAlone(render, r);
    }
  }

  /** The second endpoint's block first or last: the whole is as long. */
  lemma SecondEndpointAlone(render: Block -> string, r: Relationship)
    requires Orderly(render) && r.endpoint1.chunkId != r.endpoint0.chunkId
    ensures Size(render, [], 0, r)
            == |render(Src(1, r.endpoint1.chunkId, r.endpoint1.text))| + Size(render, [r.endpoint1.chunkId], 0, r)
  {
    var y := r.endpoint1.chunkId;
    BothAhead(render, [], 0, r);
    BothBehind(render, [], 0, r);
    assert [] + [y] == [y];
    LabelsSwapped(render, r.endpoint0, r.endpoint1, 1, 2);
    assert Higher(1, 1, 2, 1, 2, 1) && Higher(1, 2, 1, 1, 1, 2);
    assert |render(Rel(1, r, 1, 2))| == |render(Rel(1, r, 2, 1))|;
  }

  lemma PackLast(g: Settings, evidence: seq<Evidence>, p: Packed, more: seq<Block>)
    requires evidence != [] && Pack(g, evidence[..|evidence| - 1]) == Ok(p)
    requires more == g.blocksOf(p.blocks, evidence[|evidence| - 1])
    ensures Pack(g, evidence) == Place(g, p, more)
  {
  }

  lemma PlaceByFit(g: Settings, p: Packed, more: seq<Block>, fits: bool)
    requires p.included < g.cap && more != [] && Fit(g, Joined(g.render, p.blocks + more)) == Ok(fits)
    ensures Place(g, p, more) == Ok(if fits then Packed(p.blocks + more, p.included + 1) else p)
  {
  }

  lemma PackRefused(render: Block -> string, budget: nat, r: Relationship, evidence: seq<Evidence>)
    requires evidence == [Edge("", r)] && budget < Size(render, [], 0, r)
    ensures Pack(CharactersOnly(render, budget), evidence) == Ok(Packed([], 0))
  {
    var g, more := CharactersOnly(render, budget), Additions([], evidence[0]);
    assert evidence[..0] == [];
    AdditionsLength(render, [], "", r);
    EdgeIsAdded([], evidence[0]);
    FitsCharacters(render, budget, Joined(render, [] + more));
    PlaceByFit(g, Packed([], 0), more, false);
    PackLast(g, evidence, Packed([], 0), more);
  }

  lemma PackTaken(render: Block -> string, budget: nat, evidence: seq<Evidence>, id: string, text: string)
    requires |evidence| == 2 && evidence[1] == Chunk("", id, text) && |render(Src(1, id, text))| <= budget
    requires Pack(CharactersOnly(render, budget), evidence[..1]) == Ok(Packed([], 0))
    ensures Pack(CharactersOnly(render, budget), evidence) == Ok(Packed([Src(1, id, text)], 1))
  {
    var g, more := CharactersOnly(render, budget), [Src(1, id, text)];
    FirstChunk(evidence[1]);
    assert [] + more == more;
    JoinedOne(render, Src(1, id, text));
    FitsCharacters(render, budget, Joined(render, more));
    PlaceByFit(g, Packed([], 0), more, true);
    PackLast(g, evidence, Packed([], 0), more);
  }

  lemma FirstChunk(item: Evidence)
    requires item.Chunk?
    ensures Additions([], item) == [Src(1, item.id, item.text)]
  {
  }

  lemma NowItFits(render: Block -> string, budget: nat, r: Relationship, one: Block)
    requires one.Src? && budget == |render(one)| + Size(render, [one.id], 0, r)
    ensures !NoRoom(CharactersOnly(render, budget), Packed([one], 1), Edge("", r)) && Edges([one]) == []
  {
    SourcesOfOne(one);
    JoinedOne(render, one);
    AdditionsLength(render, [one], "", r);
    FitsCharacters(render, budget, Joined(render, [one] + Additions([one], Edge("", r))));
  }

  /** For the blocks the builder writes, shorter to write means a shorter escaped text. */
  lemma ShorterIffEscapeIsShorter(r: Relationship, id: string, text: string)
    ensures NotShorter(Render, r, id, text) <==> (IsEndpoint(r, id) ==> |Escape(TextOf(r, id))| <= |Escape(text)|)
  {
    ChunkLength(1, TextOf(r, id), text);
  }

  lemma ChunkLength(n: nat, s: string, t: string)
    ensures |ChunkBlock(n, s)| + |Escape(t)| == |ChunkBlock(n, t)| + |Escape(s)|
  {
  }

  /** So for the builder: refusals stand exactly when no text for one of the endpoints is shorter once escaped. */
  lemma BuilderRefusalsStandIff(r: Relationship, pairs: iset<(string, string)>)
    requires (r.endpoint0.chunkId, r.endpoint0.text) in pairs && (r.endpoint1.chunkId, r.endpoint1.text) in pairs
    ensures RefusalsStand(Render, r, pairs) <==>
              forall id, text :: (id, text) in pairs && IsEndpoint(r, id) ==> |Escape(TextOf(r, id))| <= |Escape(text)|
  {
    RenderIsOrderly();
    RefusalsStandIff(Render, r, pairs);
    forall id, text
      ensures NotShorter(Render, r, id, text) <==> (IsEndpoint(r, id) ==> |Escape(TextOf(r, id))| <= |Escape(text)|)
    {
      ShorterIffEscapeIsShorter(r, id, text);
    }
  }
}
