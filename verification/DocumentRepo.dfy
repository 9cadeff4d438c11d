/** The writers of section and chunk rows, for the rows of one document version. */
module DocumentRepo {
  import opened Wrappers
  import opened SectionTree
  import opened Chunker
  import opened Reingest

  /** The row at a planned place holds what was planned, under the row of its parent. */
  predicate Matches(rows: Sections, p: Plan, row: SectionRow) {
    && row.heading == p.heading
    && row.path == p.path
    && row.depth == p.depth
    && match p.parent
       case None => row.parent == None
       case Some(q) => q in rows && row.parent == Some(rows[q].id)
  }

  predicate Written(rows: Sections, plans: seq<Plan>, base: nat) {
    forall o :: base <= o < base + |plans| ==> o in rows && Matches(rows, plans[o - base], rows[o])
  }

  predicate UniqueIds(rows: Sections, nextId: nat) {
    && (forall o :: o in rows ==> rows[o].id < nextId)
    && (forall o, q :: o in rows && q in rows && rows[o].id == rows[q].id ==> o == q)
  }

  /** Rows outside [from, to) are as before, and every row that was there is still there under its id. */
  predicate Only(rows: Sections, rows': Sections, from: nat, to: nat) {
    && (forall o :: o in rows ==> o in rows' && rows'[o].id == rows[o].id)
    && (forall o :: o in rows' && !(from <= o < to) ==> o in rows && rows'[o] == rows[o])
  }

  /** What is written stays written when only later rows change. */
  lemma WrittenStays(rows: Sections, rows': Sections, plans: seq<Plan>, base: nat, from: nat, to: nat)
    requires Written(rows, plans, base) && Only(rows, rows', from, to)
    requires Backward(plans, base) && base + |plans| <= from
    ensures Written(rows', plans, base)
  {
    forall o | base <= o < base + |plans|
      ensures o in rows' && Matches(rows', plans[o - base], rows'[o])
    {
      assert Matches(rows, plans[o - base], rows[o]);
    }
  }

  lemma WrittenJoin(rows: Sections, xs: seq<Plan>, ys: seq<Plan>, base: nat)
    requires Written(rows, xs, base) && Written(rows, ys, base + |xs|)
    ensures Written(rows, xs + ys, base)
  {
    forall o | base <= o < base + |xs + ys|
      ensures o in rows && Matches(rows, (xs + ys)[o - base], rows[o])
    {
      if o >= base + |xs| {
        assert (xs + ys)[o - base] == ys[o - (base + |xs|)];
      }
    }
  }

  /** The entries with the ids of their rows filled in. */
  predicate Stamped(before: seq<Entry>, after: seq<Entry>, rows: Sections, base: nat) {
    && |before| == |after|
    && forall o :: base <= o < base + |before| ==>
         o in rows && after[o - base] == before[o - base].(dbId := Some(rows[o].id))
  }

  lemma StampedJoin(xs: seq<Entry>, xs': seq<Entry>, ys: seq<Entry>, ys': seq<Entry>, rows: Sections, base: nat)
    requires Stamped(xs, xs', rows, base) && Stamped(ys, ys', rows, base + |xs|)
    ensures Stamped(xs + ys, xs' + ys', rows, base)
  {
    forall o | base <= o < base + |xs + ys|
      ensures o in rows && (xs' + ys')[o - base] == (xs + ys)[o - base].(dbId := Some(rows[o].id))
    {
      if o >= base + |xs| {
        assert (xs + ys)[o - base] == ys[o - (base + |xs|)];
        assert (xs' + ys')[o - base] == ys'[o - (base + |xs|)];
      }
    }
  }

  lemma StampedStays(before: seq<Entry>, after: seq<Entry>, rows: Sections, rows': Sections, base: nat, from: nat, to: nat)
    requires Stamped(before, after, rows, base) && Only(rows, rows', from, to) && base + |before| <= from
    ensures Stamped(before, after, rows', base)
  {
  }

  // ---- Deleting with a cascade ----

  /** `gone` holds the rows from ordinal `n` on, and with a row those it is the parent of. */
  predicate Closed(rows: Sections, n: nat, gone: set<nat>) {
    && (forall o :: o in rows && o >= n ==> o in gone)
    && (forall o, q :: o in rows && q in rows && q in gone && rows[o].parent == Some(rows[q].id) ==> o in gone)
  }

  /** What DELETE removes: the smallest such set. */
  ghost predicate IsCascade(rows: Sections, n: nat, gone: set<nat>) {
    && gone <= rows.Keys
    && Closed(rows, n, gone)
    && forall other :: Closed(rows, n, other) ==> gone <= other
  }

  /** Over a complete layout the cascade removes the rows from `n` on and never one that stays. */
  lemma CascadeSparesLayout(rows: Sections, plans: seq<Plan>, nextId: nat, gone: set<nat>)
    requires Written(rows, plans, 0) && Backward(plans, 0) && UniqueIds(rows, nextId)
    requires IsCascade(rows, |plans|, gone)
    ensures forall o :: o in rows ==> (o in gone <==> o >= |plans|)
  {
    var later := set o | o in rows && o >= |plans|;
    forall o, q | o in rows && q in rows && q in later && rows[o].parent == Some(rows[q].id)
      ensures o in later
    {
    }
    assert Closed(rows, |plans|, later);
  }

  class Repo {
    var sections: Sections
    var chunks: map<nat, ChunkRow>
    var nextId: nat

    ghost predicate Valid()
      reads this
    {
      UniqueIds(sections, nextId)
    }

    /** INSERT ... ON CONFLICT (ordinal) DO UPDATE: an existing row keeps its id. */
    method UpsertRow(ordinal: nat, parent: Option<nat>, heading: Option<string>, path: seq<string>, depth: nat)
      returns (id: nat)
      requires Valid()
      modifies this`sections, this`nextId
      ensures Valid() && Only(old(sections), sections, ordinal, ordinal + 1)
      ensures ordinal in sections && sections[ordinal] == SectionRow(id, parent, heading, path, depth)
      ensures ordinal in old(sections) ==> id == old(sections)[ordinal].id
    {
      if ordinal in sections {
        id := sections[ordinal].id;
      } else {
        id := nextId;
        nextId := nextId + 1;
      }
      sections := sections[ordinal := SectionRow(id, parent, heading, path, depth)];
    }

    method UpsertSection(
      section: Section, parentId: Option<nat>, path: seq<string>, ordinal: nat, ghost parent: Option<nat>)
      returns (next: nat, section': Section)
      requires Valid() && Under(sections, parent, parentId, ordinal)
      modifies this`sections, this`nextId
      ensures Valid() && next == ordinal + |Flatten([section])|
      ensures Only(old(sections), sections, ordinal, next)
      ensures Written(sections, Layout([section], parent, path, ordinal), ordinal)
      ensures Stamped(Flatten([section]), Flatten([section']), sections, ordinal)
      decreases section
    {
      var e := section.entry;
      var path' := PathOf(path, e);
      var id := UpsertRow(ordinal, parentId, HeadingOf(e), path', e.depth);
      ghost var one := sections;
      var children;
      next, children := UpsertSections(section.children, Some(id), path', ordinal + 1, Some(ordinal));
      section' := Section(e.(dbId := Some(id)), children);
      SectionWritten(old(sections), one, sections, section, section', id, parent, parentId, path, ordinal, next);
    }

    method UpsertSections(
      forest: seq<Section>, parentId: Option<nat>, path: seq<string>, ordinal: nat, ghost parent: Option<nat>)
      returns (next: nat, forest': seq<Section>)
      requires Valid() && Under(sections, parent, parentId, ordinal)
      modifies this`sections, this`nextId
      ensures Valid() && next == ordinal + |Flatten(forest)|
      ensures Only(old(sections), sections, ordinal, next)
      ensures Written(sections, Layout(forest, parent, path, ordinal), ordinal)
      ensures Stamped(Flatten(forest), Flatten(forest'), sections, ordinal)
      decreases forest
    {
      next, forest' := ordinal, [];
      for k := 0 to |forest|
        invariant Valid()
        invariant Progress(old(sections), sections, Layout(forest[..k], parent, path, ordinal), Flatten(forest[..k]), Flatten(forest'), ordinal, next)
      {
        ghost var before, mid, head, done := sections, next, forest[..k], forest';
        var section';
        next, section' := UpsertSection(forest[k], parentId, path, next, parent);
        forest' := forest' + [section'];
        assert forest[..k + 1] == head + [forest[k]];
        FlattenParts(forest[..k + 1], head, [forest[k]]);
        FlattenParts(forest', done, [section']);
        HeadSplits(forest[..k + 1], head, [forest[k]], parent, path, ordinal, mid);
        ProgressStep(old(sections), before, sections, Layout(forest[..k + 1], parent, path, ordinal),
                     Layout(head, parent, path, ordinal), Layout([forest[k]], parent, path, mid), Flatten(forest[..k + 1]), Flatten(forest'),
                     Flatten(head), Flatten(done), Flatten([forest[k]]), Flatten([section']), ordinal, mid, next);
      }
      assert forest[..|forest|] == forest;
    }

    /** Which rows a DELETE of the ordinals from `n` on takes with it. */
    method Cascade(n: nat) returns (gone: set<nat>)
      ensures IsCascade(sections, n, gone)
    {
      gone := set o | o in sections && o >= n;
      var growing := true;
      while growing
        invariant gone <= sections.Keys
        invariant forall o :: o in sections && o >= n ==> o in gone
        invariant forall other :: Closed(sections, n, other) ==> gone <= other
        invariant !growing ==> Closed(sections, n, gone)
        decreases sections.Keys - gone, growing
      {
        var rows := sections;
        var more := set o, q | o in rows && q in gone && q in rows && rows[o].parent == Some(rows[q].id) :: o;
        growing := !(more <= gone);
        if growing {
          var o :| o in more && o !in gone;
          assert o in sections.Keys - gone && o !in sections.Keys - (gone + more);
        }
        gone := gone + more;
      }
    }

    /** Rows go with their descendants; chunks that pointed at one point nowhere. */
    method DeleteSections(n: nat) returns (ghost gone: set<nat>)
      requires Valid()
      modifies this`sections, this`chunks
      ensures Valid() && IsCascade(old(sections), n, gone)
      ensures sections == old(sections) - gone
      ensures chunks == Unlinked(old(chunks), old(sections), gone)
    {
      var doomed := Cascade(n);
      gone := doomed;
      chunks := Unlinked(chunks, sections, doomed);
      sections := sections - doomed;
    }

    /** Whatever was there, afterwards the version has exactly the sections of `doc`. */
    method WriteSections(doc: seq<Section>) returns (doc': seq<Section>)
      requires Valid()
      modifies this`sections, this`chunks, this`nextId
      ensures Valid() && Exactly(sections, doc)
      ensures Stamped(Flatten(doc), Flatten(doc'), sections, 0)
      ensures forall o :: o in sections && o in old(sections) ==> sections[o].id == old(sections)[o].id
      ensures chunks.Keys == old(chunks).Keys
    {
      ghost var plans := Layout(doc, None, [], 0);
      LayoutLength(doc, None, [], 0);
      LayoutIsLinked(doc, None, [], 0);
      LinkedIsBackward(plans, 0, None, []);
      var n;
      n, doc' := UpsertSections(doc, None, [], 0, None);
      ghost var rows, ids := sections, nextId;
      ghost var gone := DeleteSections(n);
      CascadeSparesLayout(rows, plans, ids, gone);
      SurvivorsStay(rows, sections, plans);
    }

    /** INSERT ... ON CONFLICT (chunk_index) DO UPDATE. */
    method UpsertChunk(index: nat, content: string, hash: string, scope: seq<nat>, sectionId: Option<nat>)
      modifies this`chunks, this`nextId
      ensures old(nextId) <= nextId
      ensures index in chunks && chunks[index].content == content && chunks[index].hash == hash
      ensures chunks[index].scope == scope && chunks[index].sectionId == sectionId
      ensures index in old(chunks) ==> chunks[index].id == old(chunks)[index].id
      ensures chunks.Keys == old(chunks).Keys + {index}
      ensures forall k :: k in old(chunks) && k != index ==> chunks[k] == old(chunks)[k]
    {
      var id := nextId;
      if index in chunks {
        id := chunks[index].id;
      } else {
        nextId := nextId + 1;
      }
      chunks := chunks[index := ChunkRow(id, content, hash, scope, sectionId)];
    }

    /**
      Each chunk goes to its index, the last one wins, a row that was there
      keeps its id, and everything from the batch size on is deleted.
    */
    method WriteChunks(batch: seq<Chunk>, scope: seq<nat>, hash: string -> string)
      requires Valid()
      modifies this`chunks, this`nextId
      ensures Valid()
      ensures forall k: nat :: k in chunks <==> k < |batch| && (k in old(chunks) || Latest(batch, k).Some?)
      ensures forall k :: k in chunks ==> Updated(old(chunks), chunks[k], batch, k, scope, hash)
    {
      for i := 0 to |batch|
        invariant Valid()
        invariant forall k: nat :: k in chunks <==> k in old(chunks) || Latest(batch[..i], k).Some?
        invariant forall k :: k in chunks ==> Updated(old(chunks), chunks[k], batch[..i], k, scope, hash)
      {
        assert batch[..i + 1][..i] == batch[..i];
        UpsertChunk(batch[i].index, batch[i].text, hash(batch[i].text), scope, batch[i].sectionId);
      }
      assert batch[..|batch|] == batch;
      var rows := chunks;
      chunks := map k | k in rows && k < |batch| :: rows[k];
    }

    /** Sections, then chunks cut from them: the version is replaced as a whole. */
    method Replace(doc: seq<Section>, fullText: string, version: nat, company: nat, scope: seq<nat>, hash: string -> string)
      returns (doc': seq<Section>, batch: seq<Chunk>)
      requires Valid()
      modifies this
      ensures Valid() && Exactly(sections, doc)
      ensures Stamped(Flatten(doc), Flatten(doc'), sections, 0)
      ensures Numbered(batch, if doc' == [] then Tag(ChunkTexts(fullText), None, None) else AllPieces(Flatten(doc')), version, company)
      ensures forall k :: k in chunks <==> 0 <= k < |batch|
      ensures forall k :: 0 <= k < |batch| ==> Holds(chunks[k], batch[k], scope, hash)
    {
      doc' := WriteSections(doc);
      batch := ChunkDocument(doc', fullText, version, company);
      WriteChunks(batch, scope, hash);
      forall k | 0 <= k < |batch| ensures Latest(batch, k) == Some(batch[k]) {
        LatestOfNumbered(batch, k);
      }
    }
  }

  /** The rows are those of the document: ordinals 0, ..., n - 1, each as the layout asks. */
  ghost predicate Exactly(rows: Sections, doc: seq<Section>) {
    && (forall o :: o in rows <==> 0 <= o < |Flatten(doc)|)
    && Written(rows, Layout(doc, None, [], 0), 0)
  }

  /** The chunk that is written last to an index. */
  function Latest(batch: seq<Chunk>, k: nat): Option<Chunk> {
    if batch == [] then None
    else if batch[|batch| - 1].index == k then Some(batch[|batch| - 1])
    else Latest(batch[..|batch| - 1], k)
  }

  lemma {:induction false} LatestOfNumbered(batch: seq<Chunk>, k: nat)
    requires forall i :: 0 <= i < |batch| ==> batch[i].index == i
    ensures Latest(batch, k) == if k < |batch| then Some(batch[k]) else None
  {
    if batch != [] { LatestOfNumbered(batch[..|batch| - 1], k); }
  }

  /** The row of index `k` after a batch: overwritten by its latest chunk, or as it was. */
  predicate Updated(was: map<nat, ChunkRow>, row: ChunkRow, batch: seq<Chunk>, k: nat, scope: seq<nat>, hash: string -> string) {
    match Latest(batch, k)
    case None => k in was && row == was[k]
    case Some(c) => Holds(row, c, scope, hash) && (k in was ==> row.id == was[k].id)
  }

  predicate Holds(row: ChunkRow, c: Chunk, scope: seq<nat>, hash: string -> string) {
    row.content == c.text && row.hash == hash(c.text) && row.scope == scope && row.sectionId == c.sectionId
  }

  /** After `Replace` every word of a section stands whole in a chunk row linked to the section's row. */
  lemma WordsReachRows(
    doc: seq<Entry>, doc': seq<Entry>, sections: Sections, chunks: map<nat, ChunkRow>, batch: seq<Chunk>,
    version: nat, company: nat, scope: seq<nat>, hash: string -> string, i: nat, a: nat, b: nat)
    requires i < |doc| && IsWord(doc[i].text, a, b) && Stamped(doc, doc', sections, 0)
    requires Numbered(batch, AllPieces(doc'), version, company)
    requires forall k :: 0 <= k < |batch| ==> k in chunks && Holds(chunks[k], batch[k], scope, hash)
    ensures i in sections
    ensures exists k :: k in chunks && chunks[k].sectionId == Some(sections[i].id) && Contains(chunks[k].content, doc[i].text[a..b])
  {
    assert i in sections && doc'[i - 0] == doc[i - 0].(dbId := Some(sections[i].id));
    SectionWordsAreWhole(doc', i, a, b);
    var p :| p in AllPieces(doc') && IsOf(p, doc'[i]) && Contains(p.text, doc[i].text[a..b]);
    var k :| 0 <= k < |AllPieces(doc')| && AllPieces(doc')[k] == p;
    assert Holds(chunks[k], batch[k], scope, hash);
  }

  /** ON DELETE SET NULL. */
  function Unlinked(chunks: map<nat, ChunkRow>, rows: Sections, gone: set<nat>): map<nat, ChunkRow>
    requires gone <= rows.Keys
  {
    map k | k in chunks ::
      if exists o :: o in gone && chunks[k].sectionId == Some(rows[o].id) then chunks[k].(sectionId := None) else chunks[k]
  }

  lemma SurvivorsStay(rows: Sections, left: Sections, plans: seq<Plan>)
    requires Written(rows, plans, 0) && Backward(plans, 0)
    requires forall o :: o in left <==> o in rows && o < |plans|
    requires forall o :: o in left ==> left[o] == rows[o]
    ensures Written(left, plans, 0)
  {
    forall o | 0 <= o < |plans|
      ensures o in left && Matches(left, plans[o], left[o])
    {
      assert Matches(rows, plans[o - 0], rows[o]);
    }
  }

  /** The parent's row is there, before `ordinal`. */
  predicate Under(rows: Sections, parent: Option<nat>, parentId: Option<nat>, ordinal: nat) {
    match parent
    case None => parentId == None
    case Some(q) => q < ordinal && q in rows && parentId == Some(rows[q].id)
  }

  lemma OwnRow(was: Sections, one: Sections, e: Entry, id: nat, parentId: Option<nat>, path: seq<string>, ordinal: nat, parent: Option<nat>)
    requires Under(was, parent, parentId, ordinal) && Only(was, one, ordinal, ordinal + 1)
    requires ordinal in one && one[ordinal] == SectionRow(id, parentId, HeadingOf(e), PathOf(path, e), e.depth)
    ensures Written(one, [PlanOf(e, parent, path)], ordinal)
    ensures Backward([PlanOf(e, parent, path)], ordinal)
    ensures Stamped([e], [e.(dbId := Some(id))], one, ordinal)
  {
  }

  lemma OnlyTwice(a: Sections, b: Sections, c: Sections, from: nat, mid: nat, to: nat)
    requires Only(a, b, from, mid) && Only(b, c, mid, to) && from <= mid <= to
    ensures Only(a, c, from, to)
  {
  }

  lemma LayoutOne(section: Section, parent: Option<nat>, path: seq<string>, base: nat)
    ensures Layout([section], parent, path, base)
            == [PlanOf(section.entry, parent, path)]
               + Layout(section.children, Some(base), PathOf(path, section.entry), base + 1)
  {
    assert [section][1..] == [];
    assert Layout([], parent, path, base + 1 + |Flatten(section.children)|) == [];
  }

  /** Its own row first, then its children: the section is written. */
  lemma SectionWritten(
    was: Sections, one: Sections, rows: Sections, section: Section, section': Section, id: nat,
    parent: Option<nat>, parentId: Option<nat>, path: seq<string>, base: nat, next: nat)
    requires Under(was, parent, parentId, base) && Only(was, one, base, base + 1)
    requires base in one && section'.entry == section.entry.(dbId := Some(id))
    requires one[base] == SectionRow(id, parentId, HeadingOf(section.entry), PathOf(path, section.entry), section.entry.depth)
    requires next == base + 1 + |Flatten(section.children)| && Only(one, rows, base + 1, next)
    requires Written(rows, Layout(section.children, Some(base), PathOf(path, section.entry), base + 1), base + 1)
    requires Stamped(Flatten(section.children), Flatten(section'.children), rows, base + 1)
    ensures next == base + |Flatten([section])| && Only(was, rows, base, next)
    ensures Written(rows, Layout([section], parent, path, base), base)
    ensures Stamped(Flatten([section]), Flatten([section']), rows, base)
  {
    OwnRow(was, one, section.entry, id, parentId, path, base, parent);
    SectionPlanned(one, rows, section, parent, path, base, next);
    SectionStamped(one, rows, section, section', base, next);
    OnlyTwice(was, one, rows, base, base + 1, next);
  }

  lemma SectionPlanned(
    one: Sections, rows: Sections, section: Section, parent: Option<nat>, path: seq<string>, base: nat, next: nat)
    requires Written(one, [PlanOf(section.entry, parent, path)], base) && Only(one, rows, base + 1, next)
    requires Backward([PlanOf(section.entry, parent, path)], base)
    requires Written(rows, Layout(section.children, Some(base), PathOf(path, section.entry), base + 1), base + 1)
    ensures Written(rows, Layout([section], parent, path, base), base)
  {
    LayoutOne(section, parent, path, base);
    WrittenMore(one, rows, Layout([section], parent, path, base), [PlanOf(section.entry, parent, path)],
                Layout(section.children, Some(base), PathOf(path, section.entry), base + 1), base, base + 1, next);
  }

  lemma SectionStamped(one: Sections, rows: Sections, section: Section, section': Section, base: nat, next: nat)
    requires Stamped([section.entry], [section'.entry], one, base) && Only(one, rows, base + 1, next)
    requires Stamped(Flatten(section.children), Flatten(section'.children), rows, base + 1)
    ensures |Flatten([section])| == 1 + |Flatten(section.children)|
    ensures Stamped(Flatten([section]), Flatten([section']), rows, base)
  {
    FlattenOne(section);
    FlattenOne(section');
    StampedMore(one, rows, Flatten([section]), Flatten([section']), [section.entry], [section'.entry],
                Flatten(section.children), Flatten(section'.children), base, base + 1, next);
  }

  /** What the loop over siblings wrote so far: these plans, from entries `es` that became `es'`. */
  ghost predicate Progress(
    was: Sections, rows: Sections, plans: seq<Plan>, es: seq<Entry>, es': seq<Entry>, ordinal: nat, next: nat)
  {
    && next == ordinal + |es| && |plans| == |es|
    && Only(was, rows, ordinal, next)
    && Written(rows, plans, ordinal)
    && Stamped(es, es', rows, ordinal)
  }

  lemma ProgressStep(
    was: Sections, before: Sections, rows: Sections, all: seq<Plan>, plans: seq<Plan>, more: seq<Plan>,
    gs: seq<Entry>, gs': seq<Entry>, es: seq<Entry>, es': seq<Entry>, fs: seq<Entry>, fs': seq<Entry>, ordinal: nat, mid: nat, next: nat)
    requires all == plans + more && gs == es + fs && gs' == es' + fs' && Backward(plans, ordinal)
    requires Progress(was, before, plans, es, es', ordinal, mid)
    requires Progress(before, rows, more, fs, fs', mid, next)
    ensures Progress(was, rows, all, gs, gs', ordinal, next)
  {
    OnlyTwice(was, before, rows, ordinal, mid, next);
    WrittenMore(before, rows, all, plans, more, ordinal, mid, next);
    StampedMore(before, rows, gs, gs', es, es', fs, fs', ordinal, mid, next);
  }

  lemma FlattenParts(all: seq<Section>, head: seq<Section>, tail: seq<Section>)
    requires all == head + tail
    ensures Flatten(all) == Flatten(head) + Flatten(tail)
  {
    FlattenConcat(head, tail);
  }

  lemma WrittenMore(
    before: Sections, rows: Sections, all: seq<Plan>, xs: seq<Plan>, ys: seq<Plan>, base: nat, mid: nat, next: nat)
    requires all == xs + ys && mid == base + |xs| && Backward(xs, base) && Written(before, xs, base)
    requires Only(before, rows, mid, next) && Written(rows, ys, mid)
    ensures Written(rows, all, base)
  {
    WrittenStays(before, rows, xs, base, mid, next);
    WrittenJoin(rows, xs, ys, base);
  }

  lemma StampedMore(
    before: Sections, rows: Sections, all: seq<Entry>, all': seq<Entry>,
    es: seq<Entry>, es': seq<Entry>, fs: seq<Entry>, fs': seq<Entry>, base: nat, mid: nat, next: nat)
    requires all == es + fs && all' == es' + fs' && mid == base + |es|
    requires Stamped(es, es', before, base) && Only(before, rows, mid, next)
    requires Stamped(fs, fs', rows, mid)
    ensures Stamped(all, all', rows, base)
  {
    StampedStays(es, es', before, rows, base, mid, next);
    StampedJoin(es, es', fs, fs', rows, base);
  }

  lemma {:induction false} HeadSplits(
    all: seq<Section>, head: seq<Section>, tail: seq<Section>, parent: Option<nat>, path: seq<string>, base: nat, mid: nat)
    requires all == head + tail && (parent.Some? ==> parent.value < base) && mid == base + |Flatten(head)|
    ensures Layout(all, parent, path, base) == Layout(head, parent, path, base) + Layout(tail, parent, path, mid)
    ensures Backward(Layout(head, parent, path, base), base)
    ensures |Layout(head, parent, path, base)| == |Flatten(head)| && |Layout(tail, parent, path, mid)| == |Flatten(tail)|
  {
    LayoutConcat(head, tail, parent, path, base);
    LayoutLength(head, parent, path, base);
    LayoutLength(tail, parent, path, mid);
    LayoutIsLinked(head, parent, path, base);
    LinkedIsBackward(Layout(head, parent, path, base), base, parent, path);
  }
}
