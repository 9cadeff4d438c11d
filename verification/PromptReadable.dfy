/** What a packed prompt says can be read back from its text alone, relationships included. */
module PromptReadable {
  import opened Wrappers
  import opened PromptText
  import opened PromptReader
  import opened ContextBuilder
  import opened LeftOut

  /** Every relationship block is that of some item. */
  ghost predicate AllRelated(evidence: seq<Evidence>, blocks: seq<Block>) {
    forall k :: 0 <= k < |blocks| && blocks[k].Rel? ==> Related(evidence, blocks[k].rel)
  }

  ghost predicate Related(evidence: seq<Evidence>, r: Relationship) {
    exists i :: 0 <= i < |evidence| && evidence[i].Edge? && evidence[i].rel == r
  }

  lemma {:induction false} PackRelates(g: Settings, evidence: seq<Evidence>)
    requires Standard(g) && Pack(g, evidence).Ok?
    ensures AllRelated(evidence, Pack(g, evidence).value.blocks)
  {
    if evidence != [] {
      var init, last := evidence[..|evidence| - 1], evidence[|evidence| - 1];
      var blocks := Pack(g, init).value.blocks;
      PackRelates(g, init);
      StillRelated(evidence, blocks);
      AdditionsRelated(evidence, blocks);
      assert g.blocksOf(blocks, last) == Additions(blocks, last);
      BothRelated(evidence, blocks, Additions(blocks, last));
    }
  }

  lemma StillRelated(evidence: seq<Evidence>, blocks: seq<Block>)
    requires evidence != [] && AllRelated(evidence[..|evidence| - 1], blocks)
    ensures AllRelated(evidence, blocks)
  {
    var init := evidence[..|evidence| - 1];
    forall k | 0 <= k < |blocks| && blocks[k].Rel? ensures Related(evidence, blocks[k].rel) {
      var i :| 0 <= i < |init| && init[i].Edge? && init[i].rel == blocks[k].rel;
      assert evidence[i] == init[i];
    }
  }

  lemma AdditionsRelated(evidence: seq<Evidence>, blocks: seq<Block>)
    requires evidence != []
    ensures AllRelated(evidence, Additions(blocks, evidence[|evidence| - 1]))
  {
    var last := |evidence| - 1;
    var more := Additions(blocks, evidence[last]);
    forall k | 0 <= k < |more| && more[k].Rel? ensures Related(evidence, more[k].rel) {
      assert evidence[last].Edge? && evidence[last].rel == more[k].rel;
    }
  }

  lemma BothRelated(evidence: seq<Evidence>, xs: seq<Block>, ys: seq<Block>)
    requires AllRelated(evidence, xs) && AllRelated(evidence, ys)
    ensures AllRelated(evidence, xs + ys)
  {
  }

  // ---- Labels are those of the lists the prompt comes with ----

  lemma LabelsName(blocks: seq<Block>, k: nat)
    requires WellLabelled(blocks) && k < |blocks|
    ensures blocks[k].Src? ==> Names(Sources(blocks), blocks[k].n, blocks[k].id)
    ensures blocks[k].Rel? ==> Names(Edges(blocks), blocks[k].n, blocks[k].rel.edgeId)
  {
    ContinuesAt(blocks, k);
    assert blocks[..k + 1] == blocks[..k] + [blocks[k]];
    if blocks[k].Src? {
      SourceNamed(blocks, blocks[..k], blocks[k]);
    } else {
      EdgeNamed(blocks, blocks[..k], blocks[k]);
    }
  }

  lemma SourceNamed(blocks: seq<Block>, before: seq<Block>, b: Block)
    requires before + [b] <= blocks && b.Src? && Continues(before, b)
    ensures Names(Sources(blocks), b.n, b.id)
  {
    SourcesWithOne(before, b);
    SourcesOfPrefix(blocks, |before + [b]|);
    assert blocks[..|before + [b]|] == before + [b];
  }

  lemma EdgeNamed(blocks: seq<Block>, before: seq<Block>, b: Block)
    requires before + [b] <= blocks && b.Rel? && Continues(before, b)
    ensures Names(Edges(blocks), b.n, b.rel.edgeId)
  {
    EdgesWithOne(before, b);
    EdgesOfPrefix(blocks, before + [b]);
  }

  lemma EdgesWithOne(blocks: seq<Block>, b: Block)
    ensures Edges(blocks + [b]) == if b.Rel? then Edges(blocks) + [b.rel.edgeId] else Edges(blocks)
  {
    SourcesOfOne(b);
    SourcesConcat(blocks, [b]);
  }

  lemma {:induction false} MeantAt(blocks: seq<Block>, k: nat)
    requires k < |blocks|
    ensures |AllMeant(blocks)| == |blocks| && AllMeant(blocks)[k] == Meant(blocks[k])
  {
    if |blocks| > 1 {
      MeantAt(blocks[1..], if k == 0 then 0 else k - 1);
    }
  }

  /**
    An item read from the prompt tells the truth about the evidence: a source has
    a text that some item gives the chunk with its label, and a relationship is
    one of the evidence, with all its attributes, under its own number, between
    the labels of its own endpoints, and the right way round.
  */
  ghost predicate Tells(item: Item, ids: seq<string>, edges: seq<string>, evidence: seq<Evidence>) {
    match item
    case Source(n, text) =>
      1 <= n <= |ids| && exists i :: 0 <= i < |evidence| && Mentioned(evidence[i], ids[n - 1], text)
    case Relation(heading, _, _, _) =>
      exists r, x, y {:trigger Rel(heading.n, r, x, y)} ::
        && Related(evidence, r) && Names(edges, heading.n, r.edgeId)
        && Names(ids, x, r.endpoint0.chunkId) && Names(ids, y, r.endpoint1.chunkId)
        && item == Meant(Rel(heading.n, r, x, y))
  }

  lemma SourceTells(evidence: seq<Evidence>, b: Block, ids: seq<string>, edges: seq<string>, i: nat)
    requires b.Src? && Names(ids, b.n, b.id) && i < |evidence| && Mentioned(evidence[i], b.id, b.text)
    ensures Tells(Meant(b), ids, edges, evidence)
  {
  }

  lemma RelationTells(evidence: seq<Evidence>, b: Block, ids: seq<string>, edges: seq<string>)
    requires b.Rel? && Related(evidence, b.rel) && Names(edges, b.n, b.rel.edgeId)
    requires Names(ids, b.a, b.rel.endpoint0.chunkId) && Names(ids, b.b, b.rel.endpoint1.chunkId)
    ensures Tells(Meant(b), ids, edges, evidence)
  {
    assert Meant(b).heading.n == b.n;
    assert Meant(b) == Meant(Rel(b.n, b.rel, b.a, b.b));
  }

  lemma BlockTells(g: Settings, evidence: seq<Evidence>, blocks: seq<Block>, k: nat)
    requires Standard(g) && Pack(g, evidence).Ok? && blocks == Pack(g, evidence).value.blocks && k < |blocks|
    ensures Tells(Meant(blocks[k]), Sources(blocks), Edges(blocks), evidence)
  {
    PackIsWellLabelled(g, evidence);
    LabelsName(blocks, k);
    if blocks[k].Src? {
      PackMentions(g, evidence);
      var i :| 0 <= i < |evidence| && Mentioned(evidence[i], blocks[k].id, blocks[k].text);
      SourceTells(evidence, blocks[k], Sources(blocks), Edges(blocks), i);
    } else {
      PackRelates(g, evidence);
      RelationsRefer(blocks, k);
      RelationTells(evidence, blocks[k], Sources(blocks), Edges(blocks));
    }
  }

  /**
    From the text of a packed prompt alone a reader gets back every block, in
    order, and the question; and every block tells the truth about the evidence.
  */
  lemma PromptIsReadable(g: Settings, evidence: seq<Evidence>, query: string)
    requires Standard(g) && Pack(g, evidence).Ok?
    requires forall i :: 0 <= i < |evidence| && evidence[i].Edge? ==> Delimited(evidence[i].rel)
    ensures var blocks := Pack(g, evidence).value.blocks;
            var (items, rest) := ReadAll(RenderAll(blocks) + QueryBlock(query));
            && rest == QueryBlock(query) && |items| == |blocks|
            && forall k :: 0 <= k < |items| ==> items[k] == Meant(blocks[k]) && Tells(items[k], Sources(blocks), Edges(blocks), evidence)
  {
    var blocks := Pack(g, evidence).value.blocks;
    PackRelates(g, evidence);
    forall b | b in blocks && b.Rel? ensures Delimited(b.rel) {
      var k :| 0 <= k < |blocks| && blocks[k] == b;
      assert Related(evidence, blocks[k].rel);
    }
    PromptReads(blocks, query);
    if blocks == [] {
      assert AllMeant(blocks) == [];
    }
    forall k | 0 <= k < |blocks|
      ensures |AllMeant(blocks)| == |blocks|
      ensures AllMeant(blocks)[k] == Meant(blocks[k]) && Tells(AllMeant(blocks)[k], Sources(blocks), Edges(blocks), evidence)
    {
      MeantAt(blocks, k);
      BlockTells(g, evidence, blocks, k);
    }
    MeantLength(blocks);
  }

  lemma MeantLength(blocks: seq<Block>)
    ensures |AllMeant(blocks)| == |blocks|
  {
    if blocks != [] { MeantAt(blocks, 0); }
  }
}
