/** Greedy packing of evidence into a prompt under a token budget and a byte budget. */
module ContextBuilder {
  import opened Wrappers
  import opened Collections
  import opened PromptText

  datatype Evidence =
    | Chunk(company: string, id: string, text: string)
    | Edge(company: string, rel: Relationship)

  datatype Options = Options(
    maxContextTokens: nat, reservedOutputTokens: nat, maxPromptBytes: nat, maxEvidenceItems: int, systemPrompt: string)

  datatype Error =
    | BadTokens | BadReserve | BadBytes | BadItems
    | CrossTenant | MissingEndpoint
    | MandatoryTokens | MandatoryBytes
    | CounterFailed(why: string)

  datatype PromptContext = PromptContext(
    systemMessage: string, userMessage: string, sourceChunkIds: seq<string>, sourceEdgeIds: seq<string>,
    evidenceIncluded: int, promptTokens: nat, promptBytes: nat)

  const MAX_TOKENS: nat := 131072
  const MAX_BYTES: nat := 4 * 1024 * 1024
  const SIZE_MAX: nat := 0xFFFF_FFFF_FFFF_FFFF
  const TEMPLATE_ALLOWANCE: nat := 32

  /** Any deterministic counter. */
  type Counter = (string, string) -> Result<nat, Error>

  function PromptBytes(system: string, user: string): nat {
    if |system| + |user| > SIZE_MAX then SIZE_MAX else |system| + |user|
  }

  function ByteUpperBound(system: string, user: string): Result<nat, Error> {
    var bytes := PromptBytes(system, user);
    if bytes == SIZE_MAX || bytes + TEMPLATE_ALLOWANCE > SIZE_MAX then Err(CounterFailed("overflow"))
    else Ok(bytes + TEMPLATE_ALLOWANCE)
  }

  /** What packing depends on: also how an item becomes blocks, and how a block is written. */
  datatype Settings = Settings(
    count: Counter, blocksOf: (seq<Block>, Evidence) -> seq<Block>, render: Block -> string,
    system: string, query: string, tokenBudget: nat, byteBudget: nat, cap: int)

  /** The evidence text, in whatever form blocks are written. */
  function Joined(render: Block -> string, blocks: seq<Block>): string {
    if blocks == [] then [] else Joined(render, blocks[..|blocks| - 1]) + render(blocks[|blocks| - 1])
  }

  lemma JoinedWithOne(render: Block -> string, blocks: seq<Block>, b: Block)
    ensures Joined(render, blocks + [b]) == Joined(render, blocks) + render(b)
  {
    assert (blocks + [b])[..|blocks|] == blocks;
  }

  lemma {:induction false} JoinedConcat(render: Block -> string, xs: seq<Block>, ys: seq<Block>)
    ensures Joined(render, xs + ys) == Joined(render, xs) + Joined(render, ys)
  {
    if ys == [] {
      assert xs + ys == xs;
    } else {
      assert (xs + ys)[..|xs + ys| - 1] == xs + ys[..|ys| - 1];
      JoinedConcat(render, xs, ys[..|ys| - 1]);
    }
  }

  lemma JoinedFromFront(render: Block -> string, blocks: seq<Block>)
    requires blocks != []
    ensures Joined(render, blocks) == render(blocks[0]) + Joined(render, blocks[1..])
  {
    assert [blocks[0]] + blocks[1..] == blocks;
    JoinedConcat(render, [blocks[0]], blocks[1..]);
    assert [blocks[0]][..0] == [];
  }

  lemma {:induction false} JoinedIsRenderAll(blocks: seq<Block>)
    ensures Joined(Render, blocks) == RenderAll(blocks)
  {
    if blocks != [] {
      JoinedFromFront(Render, blocks);
      JoinedIsRenderAll(blocks[1..]);
    }
  }

  // ---- Blocks and their labels ----

  function Sources(blocks: seq<Block>): seq<string> {
    if blocks == [] then []
    else
      var before, last := Sources(blocks[..|blocks| - 1]), blocks[|blocks| - 1];
      if last.Src? then before + [last.id] else before
  }

  function Edges(blocks: seq<Block>): seq<string> {
    if blocks == [] then []
    else
      var before, last := Edges(blocks[..|blocks| - 1]), blocks[|blocks| - 1];
      if last.Rel? then before + [last.rel.edgeId] else before
  }

  /** Label `n` stands for `id` in the list. */
  predicate Names(ids: seq<string>, n: nat, id: string) {
    1 <= n <= |ids| && ids[n - 1] == id
  }

  /** One block continues the blocks before it. */
  predicate Continues(before: seq<Block>, b: Block) {
    match b
    case Src(n, id, _) => n == |Sources(before)| + 1 && id !in Sources(before)
    case Rel(n, r, x, y) =>
      && n == |Edges(before)| + 1
      && Names(Sources(before), x, r.endpoint0.chunkId)
      && Names(Sources(before), y, r.endpoint1.chunkId)
  }

  /**
    Every block continues those before it: sources are labelled 1, 2, ... with
    ids that do not repeat, relationships 1, 2, ..., and a relationship refers
    to the labels its endpoints were emitted under.
  */
  predicate WellLabelled(blocks: seq<Block>) {
    blocks == []
    || (WellLabelled(blocks[..|blocks| - 1]) && Continues(blocks[..|blocks| - 1], blocks[|blocks| - 1]))
  }

  lemma {:induction false} ContinuesAt(blocks: seq<Block>, k: nat)
    requires WellLabelled(blocks) && k < |blocks|
    ensures Continues(blocks[..k], blocks[k])
  {
    if k < |blocks| - 1 {
      assert blocks[..|blocks| - 1][..k] == blocks[..k];
      ContinuesAt(blocks[..|blocks| - 1], k);
    }
  }

  /** Label [SRC n] is emitted exactly once, and for the n-th source id. */
  lemma {:induction false} EachLabelOnce(blocks: seq<Block>, n: nat) returns (k: nat)
    requires WellLabelled(blocks) && 1 <= n <= |Sources(blocks)|
    ensures k < |blocks| && blocks[k].Src? && blocks[k].n == n && blocks[k].id == Sources(blocks)[n - 1]
    ensures forall j :: 0 <= j < |blocks| && blocks[j].Src? && blocks[j].n == n ==> j == k
  {
    var init := blocks[..|blocks| - 1];
    if n <= |Sources(init)| {
      k := EachLabelOnce(init, n);
    } else {
      k := |blocks| - 1;
      LabelsAreBounded(init);
    }
  }

  lemma {:induction false} LabelsAreBounded(blocks: seq<Block>)
    requires WellLabelled(blocks)
    ensures forall j :: 0 <= j < |blocks| && blocks[j].Src? ==> 1 <= blocks[j].n <= |Sources(blocks)|
    ensures Distinct(Sources(blocks))
  {
    if blocks != [] {
        LabelsAreBounded(blocks[..|blocks| - 1]);
    }
  }

  lemma {:induction false} SourcesOfPrefix(blocks: seq<Block>, k: nat)
    requires k <= |blocks|
    ensures Sources(blocks[..k]) <= Sources(blocks)
  {
    if k < |blocks| {
      var init := blocks[..|blocks| - 1];
      assert init[..k] == blocks[..k];
      SourcesOfPrefix(init, k);
    } else {
      assert blocks[..k] == blocks;
    }
  }

  /** A relationship refers only to labels that are emitted before it, and to those of its own endpoints. */
  lemma RelationsRefer(blocks: seq<Block>, k: nat)
    requires WellLabelled(blocks) && k < |blocks| && blocks[k].Rel?
    ensures Names(Sources(blocks), blocks[k].a, blocks[k].rel.endpoint0.chunkId)
    ensures Names(Sources(blocks), blocks[k].b, blocks[k].rel.endpoint1.chunkId)
    ensures blocks[k].a <= |Sources(blocks[..k])| && blocks[k].b <= |Sources(blocks[..k])|
  {
    SourcesOfPrefix(blocks, k);
    ContinuesAt(blocks, k);
  }

  // ---- Packing ----

  function Label(ids: seq<string>, id: string): (n: nat)
    requires id in ids
    ensures Names(ids, n, id)
  {
    if ids[0] == id then 1 else 1 + Label(ids[1..], id)
  }

  /** The source block a chunk still needs, if any. */
  function Missing(ids: seq<string>, id: string, text: string): seq<Block> {
    if id in ids then [] else [Src(|ids| + 1, id, text)]
  }

  /** The source ids once `id` has a label. */
  function Grown(ids: seq<string>, id: string): seq<string> {
    if id in ids then ids else ids + [id]
  }

  /** The label of `id`: the one it has, or the next free one. */
  function Assigned(ids: seq<string>, id: string): (n: nat)
    ensures Names(Grown(ids, id), n, id)
  {
    if id in ids then Label(ids, id) else |ids| + 1
  }

  /** Everything an item would add to the blocks so far. */
  function Additions(blocks: seq<Block>, item: Evidence): seq<Block> {
    var ids := Sources(blocks);
    match item
    case Chunk(_, id, text) => Missing(ids, id, text)
    case Edge(_, r) =>
      var ids' := Grown(ids, r.endpoint0.chunkId);
      Missing(ids, r.endpoint0.chunkId, r.endpoint0.text)
      + Missing(ids', r.endpoint1.chunkId, r.endpoint1.text)
      + [Rel(|Edges(blocks)| + 1, r, Assigned(ids, r.endpoint0.chunkId), Assigned(ids', r.endpoint1.chunkId))]
  }

  lemma {:induction false} SourcesConcat(xs: seq<Block>, ys: seq<Block>)
    ensures Sources(xs + ys) == Sources(xs) + Sources(ys)
    ensures Edges(xs + ys) == Edges(xs) + Edges(ys)
  {
    if ys == [] {
      assert xs + ys == xs;
    } else {
      assert (xs + ys)[..|xs + ys| - 1] == xs + ys[..|ys| - 1];
      SourcesConcat(xs, ys[..|ys| - 1]);
    }
  }

  lemma SourcesOfOne(b: Block)
    ensures Sources([b]) == if b.Src? then [b.id] else []
    ensures Edges([b]) == if b.Rel? then [b.rel.edgeId] else []
  {
    assert [b][..0] == [];
  }

  lemma SourcesWithMissing(blocks: seq<Block>, id: string, text: string)
    ensures Sources(blocks + Missing(Sources(blocks), id, text)) == Grown(Sources(blocks), id)
    ensures Edges(blocks + Missing(Sources(blocks), id, text)) == Edges(blocks)
  {
    if id in Sources(blocks) {
      assert blocks + [] == blocks;
    } else {
      var b := Src(|Sources(blocks)| + 1, id, text);
      SourcesOfOne(b);
      SourcesConcat(blocks, [b]);
    }
  }

  /** Whether the rendered evidence `text` fits both budgets; the counter may fail. */
  function Fit(g: Settings, text: string): Result<bool, Error> {
    if PromptBytes(g.system, text + g.query) > g.byteBudget then Ok(false)
    else
      var tokens :- g.count(g.system, text + g.query);
      Ok(tokens <= g.tokenBudget)
  }

  datatype Packed = Packed(blocks: seq<Block>, included: nat)

  /** What becomes of the blocks of one item: all of them are added, or none. */
  function Place(g: Settings, p: Packed, more: seq<Block>): Result<Packed, Error> {
    if p.included >= g.cap then Ok(p)
    else if more == [] then Ok(Packed(p.blocks, p.included + 1))
    else
      var ok :- Fit(g, Joined(g.render, p.blocks + more));
      Ok(if ok then Packed(p.blocks + more, p.included + 1) else p)
  }

  function Pack(g: Settings, evidence: seq<Evidence>): Result<Packed, Error> {
    if evidence == [] then Ok(Packed([], 0))
    else
      var p :- Pack(g, evidence[..|evidence| - 1]);
      Place(g, p, g.blocksOf(p.blocks, evidence[|evidence| - 1]))
  }

  // ---- What packing guarantees ----

  /** Items become blocks as the builder makes them. */
  ghost predicate Standard(g: Settings) {
    forall blocks, item {:trigger Additions(blocks, item)} :: g.blocksOf(blocks, item) == Additions(blocks, item)
  }

  lemma ContinueWith(blocks: seq<Block>, b: Block)
    requires WellLabelled(blocks) && Continues(blocks, b)
    ensures WellLabelled(blocks + [b])
  {
    assert (blocks + [b])[..|blocks|] == blocks;
  }

  lemma ContinueWithMissing(blocks: seq<Block>, id: string, text: string)
    requires WellLabelled(blocks)
    ensures WellLabelled(blocks + Missing(Sources(blocks), id, text))
  {
    if id in Sources(blocks) {
      assert blocks + [] == blocks;
    } else {
      ContinueWith(blocks, Src(|Sources(blocks)| + 1, id, text));
    }
  }

  lemma EndpointsContinue(blocks: seq<Block>, ids: seq<string>, x: Endpoint, y: Endpoint, both: seq<Block>)
    requires WellLabelled(blocks) && ids == Sources(blocks)
    requires both == blocks + Missing(ids, x.chunkId, x.text) + Missing(Grown(ids, x.chunkId), y.chunkId, y.text)
    ensures WellLabelled(both) && Edges(both) == Edges(blocks)
    ensures Sources(both) == Grown(Grown(ids, x.chunkId), y.chunkId)
  {
    SourcesWithMissing(blocks, x.chunkId, x.text);
    ContinueWithMissing(blocks, x.chunkId, x.text);
    var one := blocks + Missing(ids, x.chunkId, x.text);
    SourcesWithMissing(one, y.chunkId, y.text);
    ContinueWithMissing(one, y.chunkId, y.text);
  }

  lemma EdgeContinues(blocks: seq<Block>, r: Relationship, more: seq<Block>)
    requires WellLabelled(blocks) && more == Additions(blocks, Edge("", r))
    ensures WellLabelled(blocks + more)
  {
    var both, last := EdgeParts(blocks, r, more);
    EndpointsContinue(blocks, Sources(blocks), r.endpoint0, r.endpoint1, both);
    ContinueWith(both, last);
  }

  /** The blocks of a relationship: those its endpoints still need, then its own. */
  lemma EdgeParts(blocks: seq<Block>, r: Relationship, more: seq<Block>) returns (both: seq<Block>, last: Block)
    requires more == Additions(blocks, Edge("", r))
    ensures var ids := Sources(blocks);
            var ids' := Grown(ids, r.endpoint0.chunkId);
            && both == blocks + Missing(ids, r.endpoint0.chunkId, r.endpoint0.text) + Missing(ids', r.endpoint1.chunkId, r.endpoint1.text)
            && last == Rel(|Edges(blocks)| + 1, r, Assigned(ids, r.endpoint0.chunkId), Assigned(ids', r.endpoint1.chunkId))
    ensures blocks + more == both + [last]
  {
    var ids := Sources(blocks);
    var ids' := Grown(ids, r.endpoint0.chunkId);
    var first := Missing(ids, r.endpoint0.chunkId, r.endpoint0.text);
    var second := Missing(ids', r.endpoint1.chunkId, r.endpoint1.text);
    both := blocks + first + second;
    last := Rel(|Edges(blocks)| + 1, r, Assigned(ids, r.endpoint0.chunkId), Assigned(ids', r.endpoint1.chunkId));
    Reassociate(blocks, first, second, [last]);
  }

  lemma Reassociate<T>(a: seq<T>, b: seq<T>, c: seq<T>, d: seq<T>)
    ensures a + (b + c + d) == a + b + c + d
  {
  }

  lemma AdditionsContinue(blocks: seq<Block>, item: Evidence, more: seq<Block>)
    requires WellLabelled(blocks) && more == Additions(blocks, item)
    ensures WellLabelled(blocks + more)
  {
    match item
    case Chunk(_, id, text) =>
      ContinueWithMissing(blocks, id, text);
    case Edge(_, r) =>
      EdgeContinues(blocks, r, more);
  }

  lemma PlaceContinues(g: Settings, p: Packed, item: Evidence)
    requires Standard(g) && WellLabelled(p.blocks) && Place(g, p, g.blocksOf(p.blocks, item)).Ok?
    ensures WellLabelled(Place(g, p, g.blocksOf(p.blocks, item)).value.blocks)
  {
    var more := Additions(p.blocks, item);
    AdditionsContinue(p.blocks, item, more);
    PlacedOrNot(g, p, more);
  }

  lemma PlacedOrNot(g: Settings, p: Packed, more: seq<Block>)
    requires Place(g, p, more).Ok?
    ensures Place(g, p, more).value.blocks == p.blocks || Place(g, p, more).value.blocks == p.blocks + more
  {
  }

  /** Labels are always consistent. */
  lemma {:induction false} PackIsWellLabelled(g: Settings, evidence: seq<Evidence>)
    requires Standard(g) && Pack(g, evidence).Ok?
    ensures WellLabelled(Pack(g, evidence).value.blocks)
    ensures Pack(g, evidence).value.included <= |evidence|
    ensures Pack(g, evidence).value.included <= if g.cap < 0 then 0 else g.cap
  {
    if evidence != [] {
      var init, last := evidence[..|evidence| - 1], evidence[|evidence| - 1];
      PackIsWellLabelled(g, init);
      PlaceContinues(g, Pack(g, init).value, last);
    }
  }

  /** Blocks that come from the chunks given, with their own ids and texts. */
  ghost predicate FromChunks(evidence: seq<Evidence>, blocks: seq<Block>) {
    forall k :: 0 <= k < |blocks| ==>
      blocks[k].Src? && exists i :: 0 <= i < |evidence| && evidence[i].Chunk? && evidence[i].id == blocks[k].id && evidence[i].text == blocks[k].text
  }

  lemma {:induction false} ChunksGiveSources(g: Settings, evidence: seq<Evidence>)
    requires Standard(g) && Pack(g, evidence).Ok? && forall i :: 0 <= i < |evidence| ==> evidence[i].Chunk?
    ensures FromChunks(evidence, Pack(g, evidence).value.blocks)
  {
    if evidence != [] {
      var init := evidence[..|evidence| - 1];
      ChunksGiveSources(g, init);
      OneMoreChunk(evidence, Pack(g, init).value.blocks);
      assert FromChunks(evidence, Additions(Pack(g, init).value.blocks, evidence[|evidence| - 1]));
    }
  }

  lemma OneMoreChunk(evidence: seq<Evidence>, blocks: seq<Block>)
    requires evidence != [] && evidence[|evidence| - 1].Chunk? && FromChunks(evidence[..|evidence| - 1], blocks)
    ensures FromChunks(evidence, blocks)
    ensures FromChunks(evidence, Additions(blocks, evidence[|evidence| - 1]))
  {
    forall k | 0 <= k < |blocks|
      ensures exists i :: 0 <= i < |evidence| && evidence[i].Chunk? && evidence[i].id == blocks[k].id && evidence[i].text == blocks[k].text
    {
      var init := evidence[..|evidence| - 1];
      var i :| 0 <= i < |init| && init[i].Chunk? && init[i].id == blocks[k].id && init[i].text == blocks[k].text;
      assert evidence[i] == init[i];
    }
  }

  lemma {:induction false} SourcesInOrder(blocks: seq<Block>)
    requires WellLabelled(blocks) && forall k :: 0 <= k < |blocks| ==> blocks[k].Src?
    ensures |Sources(blocks)| == |blocks|
    ensures forall k :: 0 <= k < |blocks| ==> blocks[k].n == k + 1 && blocks[k].id == Sources(blocks)[k]
  {
    if blocks != [] {
      SourcesInOrder(blocks[..|blocks| - 1]);
    }
  }

  lemma {:induction false} LabelledAt(blocks: seq<Block>)
    requires forall b :: b in blocks ==> b.Src?
    ensures |Labelled(blocks)| == |blocks|
    ensures forall k :: 0 <= k < |blocks| ==> Labelled(blocks)[k] == (blocks[k].n, blocks[k].text)
  {
    if blocks != [] {
      LabelledAt(blocks[1..]);
    }
  }

  /** The n-th entry has label n and the text of a chunk with the n-th id. */
  ghost predicate ReadsAs(read: seq<(nat, string)>, ids: seq<string>, evidence: seq<Evidence>) {
    && |read| == |ids|
    && forall k :: 0 <= k < |read| ==>
         && read[k].0 == k + 1
         && exists i :: 0 <= i < |evidence| && evidence[i].Chunk? && evidence[i].id == ids[k] && evidence[i].text == read[k].1
  }

  lemma LabelledReads(evidence: seq<Evidence>, blocks: seq<Block>)
    requires WellLabelled(blocks) && FromChunks(evidence, blocks)
    ensures (forall b :: b in blocks ==> b.Src?) && ReadsAs(Labelled(blocks), Sources(blocks), evidence)
  {
    SourcesInOrder(blocks);
    LabelledAt(blocks);
  }

  /**
    Evidence made of chunks only can be read back out of the prompt: every
    label, with the exact text of the chunk it was given to, and the question.
  */
  lemma ChunkPromptIsReadable(g: Settings, evidence: seq<Evidence>, query: string)
    requires Standard(g) && Pack(g, evidence).Ok? && forall i :: 0 <= i < |evidence| ==> evidence[i].Chunk?
    ensures var blocks := Pack(g, evidence).value.blocks;
            var (read, rest) := DecodeChunks(RenderAll(blocks) + QueryBlock(query));
            rest == QueryBlock(query) && ReadsAs(read, Sources(blocks), evidence)
  {
    var blocks := Pack(g, evidence).value.blocks;
    PackIsWellLabelled(g, evidence);
    ChunksGiveSources(g, evidence);
    LabelledReads(evidence, blocks);
    PromptDecodes(blocks, query);
  }

  /** Both budgets are always met. */
  lemma {:induction false} PackFits(g: Settings, evidence: seq<Evidence>)
    requires Fit(g, "") == Ok(true) && Pack(g, evidence).Ok?
    ensures Fit(g, Joined(g.render, Pack(g, evidence).value.blocks)) == Ok(true)
  {
    if evidence != [] {
      PackFits(g, evidence[..|evidence| - 1]);
    }
  }

  /** The items that were let in. */
  function Accepted(g: Settings, evidence: seq<Evidence>): seq<Evidence>
    requires Pack(g, evidence).Ok?
  {
    if evidence == [] then []
    else
      var init, last := evidence[..|evidence| - 1], evidence[|evidence| - 1];
      if Pack(g, evidence).value.included > Pack(g, init).value.included then Accepted(g, init) + [last]
      else Accepted(g, init)
  }

  /** A rejected item changes nothing: without the rejected items the prompt is the same. */
  lemma {:induction false} RejectedItemsLeaveNoTrace(g: Settings, evidence: seq<Evidence>)
    requires Pack(g, evidence).Ok?
    ensures Pack(g, Accepted(g, evidence)) == Pack(g, evidence)
    ensures |Accepted(g, evidence)| == Pack(g, evidence).value.included
  {
    if evidence != [] {
      var init, last := evidence[..|evidence| - 1], evidence[|evidence| - 1];
      RejectedItemsLeaveNoTrace(g, init);
      var kept := Accepted(g, init);
      assert (kept + [last])[..|kept|] == kept;
    }
  }
}
