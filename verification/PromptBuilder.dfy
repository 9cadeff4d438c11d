/** The builder's loop, proved against the packing function. */
module PromptBuilder {
  import opened Wrappers
  import opened Collections
  import opened PromptText
  import opened ContextBuilder

  lemma NamesAreUnique(ids: seq<string>, m: nat, n: nat, id: string)
    requires Distinct(ids) && Names(ids, m, id) && Names(ids, n, id)
    ensures m == n
  {
  }

  /** The index the builder keeps beside the list of source ids. */
  ghost predicate Indexes(index: map<string, nat>, ids: seq<string>) {
    && (forall id :: id in index ==> Names(ids, index[id], id))
    && (forall id :: id in ids ==> id in index)
  }

  lemma IndexOneMore(index: map<string, nat>, ids: seq<string>, id: string)
    requires Indexes(index, ids) && id !in ids
    ensures Indexes(index[id := |ids| + 1], ids + [id])
  {
  }

  /** The rendering state describes the blocks emitted so far. */
  ghost predicate Reflects(
    render: Block -> string,
    blocks: seq<Block>, text: string, index: map<string, nat>, nextSrc: nat, nextRel: nat, ids: seq<string>, edges: seq<string>)
  {
    && WellLabelled(blocks)
    && text == Joined(render, blocks)
    && ids == Sources(blocks)
    && edges == Edges(blocks)
    && nextSrc == |ids| + 1
    && nextRel == |edges| + 1
    && Indexes(index, ids)
  }

  lemma EmitSource(
    f: Block -> string,
    blocks: seq<Block>, text: string, index: map<string, nat>, n: nat, m: nat, ids: seq<string>, edges: seq<string>,
    id: string, body: string)
    requires Reflects(f, blocks, text, index, n, m, ids, edges) && id !in index
    ensures var b := Src(n, id, body);
            Reflects(f, blocks + [b], text + f(b), index[id := n], n + 1, m, ids + [id], edges)
  {
    var b := Src(n, id, body);
    SourcesOfOne(b);
    SourcesConcat(blocks, [b]);
    ContinueWith(blocks, b);
    JoinedWithOne(f, blocks, b);
    IndexOneMore(index, ids, id);
  }

  lemma EmitRelationship(
    f: Block -> string,
    blocks: seq<Block>, text: string, index: map<string, nat>, n: nat, m: nat, ids: seq<string>, edges: seq<string>,
    r: Relationship, x: nat, y: nat)
    requires Reflects(f, blocks, text, index, n, m, ids, edges)
    requires Names(ids, x, r.endpoint0.chunkId) && Names(ids, y, r.endpoint1.chunkId)
    ensures var b := Rel(m, r, x, y);
            Reflects(f, blocks + [b], text + f(b), index, n, m + 1, ids, edges + [r.edgeId])
  {
    var b := Rel(m, r, x, y);
    SourcesOfOne(b);
    SourcesConcat(blocks, [b]);
    ContinueWith(blocks, b);
    JoinedWithOne(f, blocks, b);
  }

  lemma JoinedBatch(f: Block -> string, blocks: seq<Block>, pending: seq<Block>, b: Block)
    ensures Joined(f, blocks + (pending + [b])) == Joined(f, blocks) + (Joined(f, pending) + f(b))
  {
    JoinedConcat(f, blocks, pending + [b]);
    JoinedWithOne(f, pending, b);
  }

  method RenderPending(f: Block -> string, pending: seq<Block>) returns (text: string)
    ensures text == Joined(f, pending)
  {
    text := "";
    for k := 0 to |pending|
      invariant text == Joined(f, pending[..k])
    {
      assert pending[..k + 1] == pending[..k] + [pending[k]];
      JoinedWithOne(f, pending[..k], pending[k]);
      text := text + f(pending[k]);
    }
    assert pending[..|pending|] == pending;
  }

  /** The label an id has among the pending blocks, if any. */
  method FindPending(pending: seq<Block>, id: string) returns (n: Option<nat>)
    requires forall k :: 0 <= k < |pending| ==> pending[k].Src?
    ensures n.None? <==> forall j :: 0 <= j < |pending| ==> pending[j].id != id
    ensures n.Some? ==> exists j :: 0 <= j < |pending| && pending[j].id == id && pending[j].n == n.value
  {
    for k := 0 to |pending|
      invariant forall j :: 0 <= j < k ==> pending[j].id != id
    {
      if pending[k].id == id {
        return Some(pending[k].n);
      }
    }
    n := None;
  }

  /** The rendering state of one build. */
  class Packer {
    const g: Settings
    var evidenceBlocks: string
    var chunkSrcIndex: map<string, nat>
    var nextSrc: nat
    var nextRel: nat
    var included: nat
    var excluded: nat
    var sourceChunkIds: seq<string>
    var sourceEdgeIds: seq<string>
    ghost var blocks: seq<Block>

    ghost predicate Valid()
      reads this
    {
      Reflects(g.render, blocks, evidenceBlocks, chunkSrcIndex, nextSrc, nextRel, sourceChunkIds, sourceEdgeIds)
    }

    constructor (g: Settings)
      ensures Valid() && this.g == g && blocks == [] && included == 0 && excluded == 0
    {
      this.g := g;
      evidenceBlocks, chunkSrcIndex := "", map[];
      nextSrc, nextRel, included, excluded := 1, 1, 0, 0;
      sourceChunkIds, sourceEdgeIds := [], [];
      blocks := [];
    }

    /** Would the prompt still fit with `additions` appended? */
    method Fits(additions: string) returns (r: Result<bool, Error>)
      ensures r == Fit(g, evidenceBlocks + additions)
    {
      var user := evidenceBlocks + additions + g.query;
      if PromptBytes(g.system, user) > g.byteBudget {
        return Ok(false);
      }
      var tokens := g.count(g.system, user);
      if tokens.Err? {
        return Err(tokens.error);
      }
      r := Ok(tokens.value <= g.tokenBudget);
    }

    /** One more source block goes in. */
    method Emit(n: nat, id: string, text: string)
      requires Valid() && n == nextSrc && id !in chunkSrcIndex
      modifies this
      ensures Valid() && blocks == old(blocks) + [Src(n, id, text)]
      ensures included == old(included) && excluded == old(excluded) && nextRel == old(nextRel)
    {
      EmitSource(g.render, blocks, evidenceBlocks, chunkSrcIndex, nextSrc, nextRel, sourceChunkIds, sourceEdgeIds, id, text);
      evidenceBlocks := evidenceBlocks + g.render(Src(n, id, text));
      chunkSrcIndex := chunkSrcIndex[id := n];
      nextSrc := n + 1;
      sourceChunkIds := sourceChunkIds + [id];
      blocks := blocks + [Src(n, id, text)];
    }

    method AddChunk(item: Evidence) returns (accepted: Result<bool, Error>)
      requires Valid() && item.Chunk?
      modifies this
      ensures Valid() && included == old(included) && excluded == old(excluded)
      ensures accepted == Offered(g, old(blocks), Additions(old(blocks), item))
      ensures blocks == Taken(g, old(blocks), Additions(old(blocks), item))
    {
      if item.id in chunkSrcIndex {
        return Ok(true);
      }
      JoinedWithOne(g.render, blocks, Src(nextSrc, item.id, item.text));
      accepted := Fits(g.render(Src(nextSrc, item.id, item.text)));
      if accepted == Ok(true) {
        Emit(nextSrc, item.id, item.text);
      }
    }

    /** The label of an endpoint: already emitted, already pending, or the next free one. */
    method Assign(pending: seq<Block>, id: string, text: string) returns (n: nat, pending': seq<Block>)
      requires Valid() && Sound(Sources(blocks), pending)
      ensures pending' == pending + Missing(Known(Sources(blocks), pending), id, text)
      ensures Sound(Sources(blocks), pending') && Known(Sources(blocks), pending') == Grown(Known(Sources(blocks), pending), id)
      ensures n == Assigned(Known(Sources(blocks), pending), id)
    {
      ghost var ids := Sources(blocks);
      LabelsAreBounded(blocks);
      if id in chunkSrcIndex {
        KnownLabel(ids, pending, chunkSrcIndex[id], id);
        return chunkSrcIndex[id], pending;
      }
      var found := FindPending(pending, id);
      if found.Some? {
        PendingLabel(ids, pending, found.value, id);
        return found.value, pending;
      }
      n := nextSrc + |pending|;
      pending' := pending + [Src(n, id, text)];
    }

    /** The endpoints that are missing and the relationship go in together, or not at all. */
    method AddRelationship(item: Evidence) returns (accepted: Result<bool, Error>)
      requires Valid() && item.Edge?
      modifies this
      ensures Valid() && included == old(included) && excluded == old(excluded)
      ensures accepted == Offered(g, old(blocks), Additions(old(blocks), item))
      ensures blocks == Taken(g, old(blocks), Additions(old(blocks), item))
    {
      var srcA, srcB, pending := AssignBoth(item.rel);
      AdditionsOf(blocks, item, pending);
      accepted := AddBatch(pending, item.rel, srcA, srcB);
    }

    /** The labels of both endpoints, and the source blocks they need. */
    method AssignBoth(r: Relationship) returns (srcA: nat, srcB: nat, pending: seq<Block>)
      requires Valid()
      ensures pending == EndpointBlocks(Sources(blocks), r) && Sound(Sources(blocks), pending)
      ensures srcA == Assigned(Sources(blocks), r.endpoint0.chunkId)
      ensures srcB == Assigned(Grown(Sources(blocks), r.endpoint0.chunkId), r.endpoint1.chunkId)
      ensures Names(Known(Sources(blocks), pending), srcA, r.endpoint0.chunkId)
      ensures Names(Known(Sources(blocks), pending), srcB, r.endpoint1.chunkId)
    {
      ghost var ids := Sources(blocks);
      NothingPending(ids);
      var first;
      srcA, first := Assign([], r.endpoint0.chunkId, r.endpoint0.text);
      srcB, pending := Assign(first, r.endpoint1.chunkId, r.endpoint1.text);
      NamesStay(Known(ids, first), Known(ids, pending), srcA, r.endpoint0.chunkId);
    }

    method AddBatch(pending: seq<Block>, r: Relationship, srcA: nat, srcB: nat) returns (accepted: Result<bool, Error>)
      requires Valid() && Sound(Sources(blocks), pending)
      requires Names(Known(Sources(blocks), pending), srcA, r.endpoint0.chunkId)
      requires Names(Known(Sources(blocks), pending), srcB, r.endpoint1.chunkId)
      modifies this
      ensures Valid() && included == old(included) && excluded == old(excluded)
      ensures accepted == Offered(g, old(blocks), pending + [Rel(old(nextRel), r, srcA, srcB)])
      ensures blocks == Taken(g, old(blocks), pending + [Rel(old(nextRel), r, srcA, srcB)])
    {
      JoinedBatch(g.render, blocks, pending, Rel(nextRel, r, srcA, srcB));
      var allBlocks := RenderPending(g.render, pending);
      accepted := Fits(allBlocks + g.render(Rel(nextRel, r, srcA, srcB)));
      if accepted == Ok(true) {
        ghost var was := blocks;
        EmitPending(pending);
        KnownSources(was, pending);
        assert was + pending + [Rel(nextRel, r, srcA, srcB)] == was + (pending + [Rel(nextRel, r, srcA, srcB)]);
        EmitRel(r, srcA, srcB);
      }
    }

    method EmitPending(pending: seq<Block>)
      requires Valid() && Sound(Sources(blocks), pending)
      modifies this
      ensures Valid() && included == old(included) && excluded == old(excluded) && nextRel == old(nextRel)
      ensures blocks == old(blocks) + pending
    {
      ghost var was := blocks;
      for k := 0 to |pending|
        invariant Valid() && included == old(included) && excluded == old(excluded) && nextRel == old(nextRel)
        invariant blocks == was + pending[..k]
      {
        SoundAt(was, pending, k);
        assert pending[..k + 1] == pending[..k] + [pending[k]];
        Emit(pending[k].n, pending[k].id, pending[k].text);
      }
      assert pending[..|pending|] == pending;
    }

    method EmitRel(r: Relationship, srcA: nat, srcB: nat)
      requires Valid()
      requires Names(Sources(blocks), srcA, r.endpoint0.chunkId) && Names(Sources(blocks), srcB, r.endpoint1.chunkId)
      modifies this
      ensures Valid() && included == old(included) && excluded == old(excluded)
      ensures blocks == old(blocks) + [Rel(old(nextRel), r, srcA, srcB)]
    {
      EmitRelationship(g.render, blocks, evidenceBlocks, chunkSrcIndex, nextSrc, nextRel, sourceChunkIds, sourceEdgeIds, r, srcA, srcB);
      evidenceBlocks := evidenceBlocks + g.render(Rel(nextRel, r, srcA, srcB));
      sourceEdgeIds := sourceEdgeIds + [r.edgeId];
      blocks := blocks + [Rel(nextRel, r, srcA, srcB)];
      nextRel := nextRel + 1;
    }

    method Add(item: Evidence) returns (accepted: Result<bool, Error>)
      requires Valid() && Standard(g)
      modifies this
      ensures Valid() && included == old(included) && excluded == old(excluded)
      ensures accepted == Offered(g, old(blocks), g.blocksOf(old(blocks), item))
      ensures blocks == Taken(g, old(blocks), g.blocksOf(old(blocks), item))
    {
      assert g.blocksOf(blocks, item) == Additions(blocks, item);
      if item.Chunk? {
        accepted := AddChunk(item);
      } else {
        accepted := AddRelationship(item);
      }
    }

    /** One turn of the loop over the evidence. */
    method Offer(item: Evidence) returns (failure: Option<Error>)
      requires Valid() && Standard(g)
      modifies this
      ensures Valid()
      ensures match Place(g, Packed(old(blocks), old(included)), g.blocksOf(old(blocks), item))
              case Err(e) => failure == Some(e)
              case Ok(p) => failure.None? && blocks == p.blocks && included == p.included
      ensures failure.None? ==> included + excluded == old(included) + old(excluded) + 1
    {
      if included >= g.cap {
        failure := Tally(Ok(false));
      } else {
        var accepted := Add(item);
        failure := Tally(accepted);
      }
    }

    method Tally(accepted: Result<bool, Error>) returns (failure: Option<Error>)
      modifies this`included, this`excluded
      ensures failure == if accepted.Err? then Some(accepted.error) else None
      ensures included == old(included) + if accepted == Ok(true) then 1 else 0
      ensures excluded == old(excluded) + if accepted == Ok(false) then 1 else 0
    {
      match accepted {
        case Err(e) =>
          return Some(e);
        case Ok(ok) =>
          if ok {
            included := included + 1;
          } else {
            excluded := excluded + 1;
          }
          return None;
      }
    }
  }

  /** What becomes of blocks offered together. */
  function Offered(g: Settings, blocks: seq<Block>, more: seq<Block>): Result<bool, Error> {
    if more == [] then Ok(true) else Fit(g, Joined(g.render, blocks + more))
  }

  function Taken(g: Settings, blocks: seq<Block>, more: seq<Block>): seq<Block> {
    if more != [] && Fit(g, Joined(g.render, blocks + more)) == Ok(true) then blocks + more else blocks
  }

  // ---- Pending sources ----

  /** Source blocks that could follow `ids`, labelled from the next free number on. */
  predicate Sound(ids: seq<string>, pending: seq<Block>) {
    && (forall k :: 0 <= k < |pending| ==> pending[k].Src? && pending[k].n == |ids| + 1 + k && pending[k].id !in ids)
    && (forall j, k :: 0 <= j < k < |pending| ==> pending[j].id != pending[k].id)
  }

  /** The ids with a label, emitted or pending. */
  function Known(ids: seq<string>, pending: seq<Block>): seq<string>
    requires forall k :: 0 <= k < |pending| ==> pending[k].Src?
  {
    ids + PendingIds(pending)
  }

  function PendingIds(pending: seq<Block>): seq<string>
    requires forall k :: 0 <= k < |pending| ==> pending[k].Src?
  {
    seq(|pending|, k requires 0 <= k < |pending| => pending[k].id)
  }

  lemma KnownLabel(ids: seq<string>, pending: seq<Block>, n: nat, id: string)
    requires Distinct(ids) && Sound(ids, pending) && Names(ids, n, id)
    ensures n == Assigned(Known(ids, pending), id)
    ensures id in Known(ids, pending)
  {
    var all := Known(ids, pending);
    assert all[n - 1] == id;
    NamesAreUnique(all, n, Label(all, id), id);
  }

  lemma PendingLabel(ids: seq<string>, pending: seq<Block>, n: nat, id: string)
    requires Distinct(ids) && Sound(ids, pending)
    requires exists j :: 0 <= j < |pending| && pending[j].id == id && pending[j].n == n
    ensures n == Assigned(Known(ids, pending), id)
    ensures id in Known(ids, pending)
  {
    var all := Known(ids, pending);
    assert all[n - 1] == id;
    NamesAreUnique(all, n, Label(all, id), id);
  }

  lemma KnownSources(blocks: seq<Block>, pending: seq<Block>)
    requires forall k :: 0 <= k < |pending| ==> pending[k].Src?
    ensures Sources(blocks + pending) == Known(Sources(blocks), pending)
  {
    SourcesConcat(blocks, pending);
    PendingSources(pending);
  }

  lemma {:induction false} PendingSources(pending: seq<Block>)
    requires forall k :: 0 <= k < |pending| ==> pending[k].Src?
    ensures Sources(pending) == PendingIds(pending)
  {
    if pending != [] {
      PendingSources(pending[..|pending| - 1]);
      assert PendingIds(pending) == PendingIds(pending[..|pending| - 1]) + [pending[|pending| - 1].id];
    }
  }

  lemma SoundAt(blocks: seq<Block>, pending: seq<Block>, k: nat)
    requires Sound(Sources(blocks), pending) && k < |pending|
    ensures pending[k].n == |Sources(blocks + pending[..k])| + 1
    ensures pending[k].id !in Sources(blocks + pending[..k])
  {
    KnownSources(blocks, pending[..k]);
  }

  lemma NothingPending(ids: seq<string>)
    ensures Known(ids, []) == ids && Sound(ids, [])
  {
  }

  lemma NamesStay(ids: seq<string>, more: seq<string>, n: nat, id: string)
    requires Names(ids, n, id) && ids <= more
    ensures Names(more, n, id)
  {
  }

  function EndpointBlocks(ids: seq<string>, r: Relationship): seq<Block> {
    Missing(ids, r.endpoint0.chunkId, r.endpoint0.text)
    + Missing(Grown(ids, r.endpoint0.chunkId), r.endpoint1.chunkId, r.endpoint1.text)
  }

  lemma AdditionsOf(blocks: seq<Block>, item: Evidence, pending: seq<Block>)
    requires item.Edge? && pending == EndpointBlocks(Sources(blocks), item.rel)
    ensures var (ids, r) := (Sources(blocks), item.rel);
            Additions(blocks, item)
            == pending + [Rel(|Edges(blocks)| + 1, r, Assigned(ids, r.endpoint0.chunkId),
                              Assigned(Grown(ids, r.endpoint0.chunkId), r.endpoint1.chunkId))]
  {
  }

  // ---- The whole build ----

  function Fault(company: string, item: Evidence): Option<Error> {
    if item.company != company then Some(CrossTenant)
    else if item.Edge? && (item.rel.endpoint0.chunkId == "" || item.rel.endpoint1.chunkId == "") then Some(MissingEndpoint)
    else None
  }

  function OptionsFault(opts: Options): Option<Error> {
    if opts.maxContextTokens == 0 || opts.maxContextTokens > MAX_TOKENS then Some(BadTokens)
    else if opts.reservedOutputTokens >= opts.maxContextTokens then Some(BadReserve)
    else if opts.maxPromptBytes == 0 || opts.maxPromptBytes > MAX_BYTES then Some(BadBytes)
    else if opts.maxEvidenceItems < 0 then Some(BadItems)
    else None
  }

  function SettingsOf(count: Counter, query: string, opts: Options): Settings
    requires OptionsFault(opts).None?
  {
    Settings(count, Additions, Render, opts.systemPrompt, QueryBlock(query), opts.maxContextTokens - opts.reservedOutputTokens,
             opts.maxPromptBytes, opts.maxEvidenceItems)
  }

  ghost predicate Faultless(company: string, evidence: seq<Evidence>) {
    forall k :: 0 <= k < |evidence| ==> Fault(company, evidence[k]).None?
  }

  /** `e` is what is wrong with the first faulty item. */
  ghost predicate FirstFault(company: string, evidence: seq<Evidence>, e: Error) {
    exists k :: 0 <= k < |evidence| && Fault(company, evidence[k]) == Some(e) && Faultless(company, evidence[..k])
  }

  /** Every item is looked at, also those that would not be selected. */
  method Screen(company: string, evidence: seq<Evidence>) returns (fault: Option<Error>)
    ensures fault.None? <==> Faultless(company, evidence)
    ensures fault.Some? ==> FirstFault(company, evidence, fault.value)
  {
    for k := 0 to |evidence|
      invariant Faultless(company, evidence[..k])
    {
      if Fault(company, evidence[k]).Some? {
        return Fault(company, evidence[k]);
      }
    }
    fault := None;
  }

  method PackEvidence(g: Settings, evidence: seq<Evidence>) returns (r: Result<PromptContext, Error>)
    requires Fit(g, "") == Ok(true) && Standard(g)
    ensures match Pack(g, evidence)
            case Err(e) => r == Err(e)
            case Ok(p) =>
              && var user := Joined(g.render, p.blocks) + g.query;
              && g.count(g.system, user).Ok?
              && r == Ok(PromptContext(g.system, user, Sources(p.blocks), Edges(p.blocks), p.included,
                                       g.count(g.system, user).value, PromptBytes(g.system, user)))
  {
    var packer := new Packer(g);
    for k := 0 to |evidence|
      invariant fresh(packer) && packer.g == g && packer.Valid()
      invariant Pack(g, evidence[..k]) == Ok(Packed(packer.blocks, packer.included))
      invariant packer.included + packer.excluded == k
    {
      assert evidence[..k + 1][..k] == evidence[..k];
      var failure := packer.Offer(evidence[k]);
      if failure.Some? {
        FailureStays(g, evidence, k + 1);
        return Err(failure.value);
      }
    }
    assert evidence[..|evidence|] == evidence;
    PackFits(g, evidence);
    var user := packer.evidenceBlocks + g.query;
    var tokens := g.count(g.system, user);
    if tokens.Err? {
      assert false;
    }
    r := Ok(PromptContext(g.system, user, packer.sourceChunkIds, packer.sourceEdgeIds, packer.included,
                          tokens.value, PromptBytes(g.system, user)));
  }

  lemma {:induction false} FailureStays(g: Settings, evidence: seq<Evidence>, k: nat)
    requires k <= |evidence| && Pack(g, evidence[..k]).Err?
    ensures Pack(g, evidence) == Pack(g, evidence[..k])
    decreases |evidence|
  {
    if k < |evidence| {
      assert evidence[..|evidence| - 1][..k] == evidence[..k];
      FailureStays(g, evidence[..|evidence| - 1], k);
    } else {
      assert evidence[..k] == evidence;
    }
  }

  /** What the prompt promises its readers. */
  ghost predicate Grounded(r: PromptContext, query: string, blocks: seq<Block>) {
    && WellLabelled(blocks)
    && r.userMessage == RenderAll(blocks) + QueryBlock(query)
    && r.sourceChunkIds == Sources(blocks)
    && r.sourceEdgeIds == Edges(blocks)
    && Distinct(r.sourceChunkIds)
  }

  /** The outcome for options and evidence that are in order. */
  ghost predicate Packs(g: Settings, evidence: seq<Evidence>, r: Result<PromptContext, Error>) {
    match g.count(g.system, g.query)
    case Err(e) => r == Err(e)
    case Ok(tokens) =>
      if tokens > g.tokenBudget then r == Err(MandatoryTokens)
      else if PromptBytes(g.system, g.query) > g.byteBudget then r == Err(MandatoryBytes)
      else
        match Pack(g, evidence)
        case Err(e) => r == Err(e)
        case Ok(p) =>
          && r.Ok?
          && r.value.systemMessage == g.system
          && r.value.userMessage == RenderAll(p.blocks) + g.query
          && r.value.sourceChunkIds == Sources(p.blocks)
          && r.value.sourceEdgeIds == Edges(p.blocks)
          && r.value.evidenceIncluded == p.included
  }

  method Compose(g: Settings, query: string, evidence: seq<Evidence>) returns (r: Result<PromptContext, Error>)
    requires Standard(g) && g.render == Render && g.query == QueryBlock(query) && g.byteBudget < SIZE_MAX && g.cap >= 0
    ensures Packs(g, evidence, r)
    ensures r.Ok? ==> exists blocks :: Grounded(r.value, query, blocks)
    ensures r.Ok? ==>
              && |r.value.systemMessage| + |r.value.userMessage| == r.value.promptBytes <= g.byteBudget
              && g.count(r.value.systemMessage, r.value.userMessage) == Ok(r.value.promptTokens)
              && r.value.promptTokens <= g.tokenBudget
              && 0 <= r.value.evidenceIncluded <= g.cap
  {
    var mandatory := g.count(g.system, g.query);
    if mandatory.Err? {
      return Err(mandatory.error);
    }
    if mandatory.value > g.tokenBudget {
      return Err(MandatoryTokens);
    }
    if PromptBytes(g.system, g.query) > g.byteBudget {
      return Err(MandatoryBytes);
    }
    assert "" + g.query == g.query;
    r := PackEvidence(g, evidence);
    if r.Ok? {
      PackFits(g, evidence);
      PackIsWellLabelled(g, evidence);
      LabelsAreBounded(Pack(g, evidence).value.blocks);
      JoinedIsRenderAll(Pack(g, evidence).value.blocks);
      assert Grounded(r.value, query, Pack(g, evidence).value.blocks);
    }
  }

  method Build(count: Counter, company: string, query: string, evidence: seq<Evidence>, opts: Options)
    returns (r: Result<PromptContext, Error>)
    ensures OptionsFault(opts).Some? ==> r == Err(OptionsFault(opts).value)
    ensures OptionsFault(opts).None? && !Faultless(company, evidence) ==> r.Err? && FirstFault(company, evidence, r.error)
    ensures OptionsFault(opts).None? && Faultless(company, evidence) ==> Packs(SettingsOf(count, query, opts), evidence, r)
    ensures r.Ok? ==> exists blocks :: Grounded(r.value, query, blocks)
    ensures r.Ok? ==>
              && |r.value.systemMessage| + |r.value.userMessage| == r.value.promptBytes <= opts.maxPromptBytes
              && count(r.value.systemMessage, r.value.userMessage) == Ok(r.value.promptTokens)
              && r.value.promptTokens <= opts.maxContextTokens - opts.reservedOutputTokens
              && 0 <= r.value.evidenceIncluded <= opts.maxEvidenceItems
  {
    if OptionsFault(opts).Some? {
      return Err(OptionsFault(opts).value);
    }
    var fault := Screen(company, evidence);
    if fault.Some? {
      return Err(fault.value);
    }
    r := Compose(SettingsOf(count, query, opts), query, evidence);
  }
}
