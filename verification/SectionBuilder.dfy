/**
  The stack of open sections. A frame points at the last section of its level,
  so a stack of `n` frames is a walk of `n` steps down the right edge of the
  forest, and a frame is known by the depth it holds.
*/
module SectionBuilder {
  import opened Wrappers
  import opened SectionTree

  function Leaf(e: Entry): Section {
    Section(e, [])
  }

  /** The depths along the right edge. */
  function Spine(forest: seq<Section>): seq<nat> {
    if forest == [] then []
    else [forest[|forest| - 1].entry.depth] + Spine(forest[|forest| - 1].children)
  }

  /** Append below the section `level` steps down the right edge; at level 0, to the forest itself. */
  function AppendAt(forest: seq<Section>, level: nat, node: Section): seq<Section>
    requires level <= |Spine(forest)|
  {
    if level == 0 then forest + [node]
    else
      var last := forest[|forest| - 1];
      forest[..|forest| - 1] + [last.(children := AppendAt(last.children, level - 1, node))]
  }

  /** Overwrite the text of the section at the foot of the right edge. */
  function SetText(forest: seq<Section>, text: string): seq<Section>
    requires forest != []
  {
    var last := forest[|forest| - 1];
    forest[..|forest| - 1]
    + [if last.children == [] then last.(entry := last.entry.(text := text))
       else last.(children := SetText(last.children, text))]
  }

  function TextOf(forest: seq<Section>): string
    requires forest != []
  {
    var last := forest[|forest| - 1];
    if last.children == [] then last.entry.text else TextOf(last.children)
  }

  /** How many frames stay open for a heading of depth `d`. */
  function Open(stack: seq<nat>, d: nat): (n: nat)
    ensures n <= |stack|
  {
    if stack == [] then 0
    else if stack[|stack| - 1] < d then |stack|
    else Open(stack[..|stack| - 1], d)
  }

  // ---- Adding one heading ----

  lemma {:induction false} OpenBelow(x: nat, stack: seq<nat>, d: nat)
    requires x < d
    ensures Open([x] + stack, d) == 1 + Open(stack, d)
  {
    if stack == [] {
      assert [x] + stack == [x];
    } else {
      assert ([x] + stack)[..|stack|] == [x] + stack[..|stack| - 1];
      OpenBelow(x, stack[..|stack| - 1], d);
    }
  }

  lemma {:induction false} OpenNone(stack: seq<nat>, d: nat)
    requires forall i :: 0 <= i < |stack| ==> stack[i] >= d
    ensures Open(stack, d) == 0
  {
    if stack != [] {
      OpenNone(stack[..|stack| - 1], d);
    }
  }

  lemma {:induction false} SpineDeeper(forest: seq<Section>, d: nat)
    requires WellNested(forest) && RootsDeeper(forest, d)
    ensures forall i :: 0 <= i < |Spine(forest)| ==> Spine(forest)[i] > d
  {
    if forest != [] {
      LastIsWellNested(forest);
      SpineDeeper(forest[|forest| - 1].children, d);
    }
  }

  lemma {:induction false} LastIsWellNested(forest: seq<Section>)
    requires WellNested(forest) && forest != []
    ensures WellNested(forest[|forest| - 1].children)
    ensures RootsDeeper(forest[|forest| - 1].children, forest[|forest| - 1].entry.depth)
  {
    if |forest| > 1 {
      LastIsWellNested(forest[1..]);
    }
  }

  lemma {:induction false} DeeperOfMore(rest: seq<Entry>, e: Entry, d: nat)
    ensures Deeper(rest, d) < |rest| ==> Deeper(rest + [e], d) == Deeper(rest, d)
    ensures Deeper(rest, d) == |rest| ==> Deeper(rest + [e], d) == |rest| + if e.depth > d then 1 else 0
  {
    DeeperAreDeeper(rest, d);
    var k := Deeper(rest, d);
    if k < |rest| {
      DeeperSplits(rest[..k], rest[k..] + [e], d);
      assert rest[..k] + (rest[k..] + [e]) == rest + [e];
    } else if e.depth > d {
      DeeperSplits(rest + [e], [], d);
      assert rest + [e] + [] == rest + [e];
    } else {
      DeeperSplits(rest, [e], d);
    }
  }

  /** The first heading, the headings it owns, and those that follow it. */
  lemma {:induction false} TreeCons(x: Entry, rest: seq<Entry>)
    ensures var k := Deeper(rest, x.depth);
            Tree([x] + rest) == [Section(x, Tree(rest[..k]))] + Tree(rest[k..])
  {
    assert ([x] + rest)[1..] == rest;
  }

  lemma {:induction false} TreeNotEmpty(entries: seq<Entry>)
    requires entries != []
    ensures Tree(entries) != []
  {
  }

  lemma {:induction false} TreeOfOne(e: Entry)
    ensures Tree([e]) == [Leaf(e)]
  {
    assert Tree([]) == [];
    assert [e] + [] == [e];
    TreeCons(e, []);
  }

  /** One turn of the builder: from `f` to `g` by sending heading `e` where the stack says. */
  ghost predicate Appends(f: seq<Section>, g: seq<Section>, e: Entry) {
    var level := Open(Spine(f), e.depth);
    && g == AppendAt(f, level, Leaf(e))
    && Spine(g) == Spine(f)[..level] + [e.depth]
  }

  lemma {:induction false} SpineBehind(first: Section, tail: seq<Section>)
    requires tail != []
    ensures Spine([first] + tail) == Spine(tail)
  {
    var forest := [first] + tail;
    assert forest[|forest| - 1] == tail[|tail| - 1];
  }

  lemma {:induction false} AppendsBehind(first: Section, tail: seq<Section>, tail': seq<Section>, e: Entry)
    requires tail != [] && tail' != [] && Appends(tail, tail', e)
    ensures Appends([first] + tail, [first] + tail', e)
  {
    var forest := [first] + tail;
    SpineBehind(first, tail);
    SpineBehind(first, tail');
    assert forest[|forest| - 1] == tail[|tail| - 1];
    assert forest[..|forest| - 1] == [first] + tail[..|tail| - 1];
  }

  lemma {:induction false} AppendsInside(x: Entry, inner: seq<Section>, inner': seq<Section>, e: Entry)
    requires x.depth < e.depth && Appends(inner, inner', e)
    ensures Appends([Section(x, inner)], [Section(x, inner')], e)
  {
    var spine := Spine(inner);
    var level := Open(spine, e.depth);
    OpenBelow(x.depth, spine, e.depth);
    assert ([x.depth] + spine)[..level + 1] == [x.depth] + spine[..level];
  }

  lemma {:induction false} AppendsBeside(x: Entry, inner: seq<Section>, e: Entry)
    requires e.depth <= x.depth && forall i :: 0 <= i < |Spine(inner)| ==> Spine(inner)[i] > x.depth
    ensures Appends([Section(x, inner)], [Section(x, inner)] + [Leaf(e)], e)
  {
    assert Spine([Section(x, inner)]) == [x.depth] + Spine(inner);
    OpenNone([x.depth] + Spine(inner), e.depth);
  }

  // ---- The same step on the tree ----

  lemma {:induction false} TreeSplits(x: Entry, own: seq<Entry>, after: seq<Entry>)
    requires AllDeeper(own, x.depth) && (after == [] || after[0].depth <= x.depth)
    ensures Tree([x] + (own + after)) == [Section(x, Tree(own))] + Tree(after)
  {
    var rest := own + after;
    DeeperSplits(own, after, x.depth);
    assert rest[..|own|] == own && rest[|own|..] == after;
    TreeCons(x, rest);
  }

  lemma {:induction false} Regroup(x: Entry, own: seq<Entry>, after: seq<Entry>, e: Entry)
    ensures [x] + (own + after) + [e] == [x] + (own + (after + [e]))
  {
  }

  lemma {:induction false} TreeBehind(x: Entry, own: seq<Entry>, after: seq<Entry>, e: Entry)
    requires AllDeeper(own, x.depth) && after != [] && after[0].depth <= x.depth
    ensures Tree([x] + (own + after) + [e]) == [Section(x, Tree(own))] + Tree(after + [e])
  {
    TreeSplits(x, own, after + [e]);
    Regroup(x, own, after, e);
  }

  lemma {:induction false} TreeOwning(x: Entry, rest: seq<Entry>)
    requires Deeper(rest, x.depth) == |rest|
    ensures Tree([x] + rest) == [Section(x, Tree(rest))]
  {
    TreeCons(x, rest);
    assert rest[..|rest|] == rest && rest[|rest|..] == [];
    assert Tree([]) == [];
  }

  lemma {:induction false} TreeInside(x: Entry, rest: seq<Entry>, e: Entry)
    requires Deeper(rest, x.depth) == |rest| && e.depth > x.depth
    ensures Tree([x] + rest) == [Section(x, Tree(rest))]
    ensures Tree([x] + rest + [e]) == [Section(x, Tree(rest + [e]))]
  {
    DeeperOfMore(rest, e, x.depth);
    TreeOwning(x, rest);
    TreeOwning(x, rest + [e]);
    assert [x] + rest + [e] == [x] + (rest + [e]);
  }

  lemma {:induction false} TreeBeside(x: Entry, rest: seq<Entry>, e: Entry)
    requires Deeper(rest, x.depth) == |rest| && e.depth <= x.depth
    ensures Tree([x] + rest) == [Section(x, Tree(rest))]
    ensures Tree([x] + rest + [e]) == [Section(x, Tree(rest))] + [Leaf(e)]
  {
    DeeperOfMore(rest, e, x.depth);
    TreeOwning(x, rest);
    TreeCons(x, rest + [e]);
    TreeOfOne(e);
    assert (rest + [e])[..|rest|] == rest && (rest + [e])[|rest|..] == [e];
    assert [x] + rest + [e] == [x] + (rest + [e]);
  }

  lemma {:induction false} OwnedSpine(x: Entry, rest: seq<Entry>)
    requires Deeper(rest, x.depth) == |rest|
    ensures forall i :: 0 <= i < |Spine(Tree(rest))| ==> Spine(Tree(rest))[i] > x.depth
  {
    TreeIsWellNested(rest);
    DeeperAreDeeper(rest, x.depth);
    TreeRootsDeeper(rest, x.depth);
    SpineDeeper(Tree(rest), x.depth);
  }

  /** Where the stack sends a new heading is where the tree has it. */
  lemma {:induction false} StackAgreesWithTree(l: seq<Entry>, e: Entry)
    ensures Appends(Tree(l), Tree(l + [e]), e)
    decreases |l|
  {
    if l == [] {
      assert l + [e] == [e];
      TreeOfOne(e);
    } else {
      var x, rest := l[0], l[1..];
      assert l == [x] + rest;
      var k := Deeper(rest, x.depth);
      if k < |rest| {
        StackAgreesWithTree(rest[k..], e);
        DeeperAreDeeper(rest, x.depth);
        assert rest == rest[..k] + rest[k..];
        TreeSplits(x, rest[..k], rest[k..]);
        TreeBehind(x, rest[..k], rest[k..], e);
        TreeNotEmpty(rest[k..]);
        TreeNotEmpty(rest[k..] + [e]);
        AppendsBehind(Section(x, Tree(rest[..k])), Tree(rest[k..]), Tree(rest[k..] + [e]), e);
      } else if e.depth > x.depth {
        StackAgreesWithTree(rest, e);
        TreeInside(x, rest, e);
        AppendsInside(x, Tree(rest), Tree(rest + [e]), e);
      } else {
        TreeBeside(x, rest, e);
        OwnedSpine(x, rest);
        AppendsBeside(x, Tree(rest), e);
      }
    }
  }

  // ---- Adding text ----

  function WithText(l: seq<Entry>, text: string): seq<Entry>
    requires l != []
  {
    l[..|l| - 1] + [l[|l| - 1].(text := text)]
  }

  lemma {:induction false} SetTextBehind(first: Section, tail: seq<Section>, text: string)
    requires tail != []
    ensures SetText([first] + tail, text) == [first] + SetText(tail, text)
    ensures TextOf([first] + tail) == TextOf(tail)
  {
    var forest := [first] + tail;
    assert forest[|forest| - 1] == tail[|tail| - 1];
    assert forest[..|forest| - 1] == [first] + tail[..|tail| - 1];
  }

  lemma {:induction false} DeeperOfText(rest: seq<Entry>, d: nat, text: string)
    requires rest != []
    ensures Deeper(WithText(rest, text), d) == Deeper(rest, d)
  {
    DeeperAreDeeper(rest, d);
    var k := Deeper(rest, d);
    var changed := WithText(rest, text);
    DeeperSplits(changed[..k], changed[k..], d);
    assert changed[..k] + changed[k..] == changed;
  }

  /** From `f` to `g` by overwriting the text at the foot of the right edge, which was `was`. */
  ghost predicate Rewrites(f: seq<Section>, g: seq<Section>, was: string, text: string) {
    f != [] && g == SetText(f, text) && TextOf(f) == was && Spine(g) == Spine(f)
  }

  lemma {:induction false} RewritesBehind(first: Section, f: seq<Section>, g: seq<Section>, was: string, text: string)
    requires Rewrites(f, g, was, text)
    ensures Rewrites([first] + f, [first] + g, was, text)
  {
    SetTextBehind(first, f, text);
    SpineBehind(first, f);
    SpineBehind(first, g);
  }

  lemma {:induction false} RewritesInside(x: Entry, f: seq<Section>, g: seq<Section>, was: string, text: string)
    requires Rewrites(f, g, was, text)
    ensures Rewrites([Section(x, f)], [Section(x, g)], was, text)
  {
  }

  lemma {:induction false} WithTextSplits(x: Entry, own: seq<Entry>, after: seq<Entry>, text: string)
    requires after != []
    ensures WithText([x] + (own + after), text) == [x] + (own + WithText(after, text))
    ensures ([x] + (own + after))[|own| + |after|].text == after[|after| - 1].text
  {
  }

  lemma {:induction false} TreeTextBehind(x: Entry, own: seq<Entry>, after: seq<Entry>, text: string)
    requires AllDeeper(own, x.depth) && after != [] && after[0].depth <= x.depth
    ensures Tree(WithText([x] + (own + after), text)) == [Section(x, Tree(own))] + Tree(WithText(after, text))
  {
    TreeSplits(x, own, WithText(after, text));
    WithTextSplits(x, own, after, text);
  }

  lemma {:induction false} TreeTextInside(x: Entry, rest: seq<Entry>, text: string)
    requires rest != [] && Deeper(rest, x.depth) == |rest|
    ensures Tree([x] + rest) == [Section(x, Tree(rest))]
    ensures Tree(WithText([x] + rest, text)) == [Section(x, Tree(WithText(rest, text)))]
  {
    DeeperOfText(rest, x.depth, text);
    TreeOwning(x, rest);
    TreeOwning(x, WithText(rest, text));
    assert WithText([x] + rest, text) == [x] + WithText(rest, text);
  }

  lemma {:induction false} TextAgreesWithTree(l: seq<Entry>, text: string)
    requires l != []
    ensures Rewrites(Tree(l), Tree(WithText(l, text)), l[|l| - 1].text, text)
    decreases |l|, 0
  {
    TextAgreesCons(l[0], l[1..], text);
    assert [l[0]] + l[1..] == l;
  }

  lemma {:induction false} TextAgreesCons(x: Entry, rest: seq<Entry>, text: string)
    ensures var l := [x] + rest; Rewrites(Tree(l), Tree(WithText(l, text)), l[|l| - 1].text, text)
    decreases |rest|, 1
  {
    var k := Deeper(rest, x.depth);
    if rest == [] {
      assert [x] + rest == [x];
      TextAlone(x, text);
    } else if k < |rest| {
      TextAgreesWithTree(rest[k..], text);
      TextBehind(x, rest, k, text);
    } else {
      TextAgreesWithTree(rest, text);
      TextInside(x, rest, text);
    }
  }

  lemma {:induction false} TextAlone(x: Entry, text: string)
    ensures Rewrites(Tree([x]), Tree(WithText([x], text)), x.text, text)
  {
    assert WithText([x], text) == [x.(text := text)];
    TreeOfOne(x);
    TreeOfOne(x.(text := text));
  }

  lemma {:induction false} TextBehind(x: Entry, rest: seq<Entry>, k: nat, text: string)
    requires k == Deeper(rest, x.depth) < |rest|
    requires Rewrites(Tree(rest[k..]), Tree(WithText(rest[k..], text)), rest[|rest| - 1].text, text)
    ensures var l := [x] + rest; Rewrites(Tree(l), Tree(WithText(l, text)), l[|l| - 1].text, text)
  {
    var own, after := rest[..k], rest[k..];
    assert rest == own + after;
    DeeperAreDeeper(rest, x.depth);
    WithTextSplits(x, own, after, text);
    TreeSplits(x, own, after);
    TreeTextBehind(x, own, after, text);
    RewritesBehind(Section(x, Tree(own)), Tree(after), Tree(WithText(after, text)), rest[|rest| - 1].text, text);
  }

  lemma {:induction false} TextInside(x: Entry, rest: seq<Entry>, text: string)
    requires rest != [] && Deeper(rest, x.depth) == |rest|
    requires Rewrites(Tree(rest), Tree(WithText(rest, text)), rest[|rest| - 1].text, text)
    ensures var l := [x] + rest; Rewrites(Tree(l), Tree(WithText(l, text)), l[|l| - 1].text, text)
  {
    TreeTextInside(x, rest, text);
    RewritesInside(x, Tree(rest), Tree(WithText(rest, text)), rest[|rest| - 1].text, text);
  }

  // ---- Behind sections that are already there ----

  lemma {:induction false} AppendBehindAll(prefix: seq<Section>, forest: seq<Section>, level: nat, node: Section)
    requires level <= |Spine(forest)|
    ensures level <= |Spine(prefix + forest)|
    ensures AppendAt(prefix + forest, level, node) == prefix + AppendAt(forest, level, node)
  {
    if level == 0 {
      assert prefix + forest + [node] == prefix + (forest + [node]);
    } else {
      var all := prefix + forest;
      assert all[|all| - 1] == forest[|forest| - 1];
      assert all[..|all| - 1] == prefix + forest[..|forest| - 1];
    }
  }

  lemma {:induction false} SetTextBehindAll(prefix: seq<Section>, forest: seq<Section>, text: string)
    requires forest != []
    ensures SetText(prefix + forest, text) == prefix + SetText(forest, text)
    ensures TextOf(prefix + forest) == TextOf(forest)
  {
    var all := prefix + forest;
    assert all[|all| - 1] == forest[|forest| - 1];
    assert all[..|all| - 1] == prefix + forest[..|forest| - 1];
  }

  // ---- The parsers ----

  /** A paragraph with its heading level, 0 for body text; a table is body text. */
  datatype Paragraph = Paragraph(level: nat, text: string)

  /** Body text joins the open section; before the first heading it opens one of depth 0. */
  function AddText(l: seq<Entry>, text: string): seq<Entry> {
    if text == "" then l
    else if l == [] then [Entry("", 0, text, None)]
    else
      var was := l[|l| - 1].text;
      WithText(l, if was == "" then text else was + "\n" + text)
  }

  /** The sections of a body in document order. */
  function Entries(body: seq<Paragraph>): seq<Entry> {
    if body == [] then []
    else
      var l, p := Entries(body[..|body| - 1]), body[|body| - 1];
      if p.level == 0 then AddText(l, p.text)
      else if p.text == "" then l
      else l + [Entry(p.text, p.level, "", None)]
  }

  // ---- Every paragraph stays, in order ----

  /** A heading and the paragraphs under it; the group in front of the first heading has depth 0. */
  datatype Group = Group(heading: string, depth: nat, texts: seq<string>)

  function JoinLines(texts: seq<string>): string {
    if texts == [] then ""
    else if |texts| == 1 then texts[0]
    else JoinLines(texts[..|texts| - 1]) + "\n" + texts[|texts| - 1]
  }

  /** The paragraphs that are not blank. */
  function Kept(body: seq<Paragraph>): seq<Paragraph> {
    if body == [] then []
    else
      var before, p := Kept(body[..|body| - 1]), body[|body| - 1];
      if p.text == "" then before else before + [p]
  }

  function TextsOf(texts: seq<string>): seq<Paragraph> {
    if texts == [] then [] else TextsOf(texts[..|texts| - 1]) + [Paragraph(0, texts[|texts| - 1])]
  }

  /** The paragraphs of the groups, one after another. */
  function Spread(groups: seq<Group>): seq<Paragraph> {
    if groups == [] then []
    else
      var before, g := Spread(groups[..|groups| - 1]), groups[|groups| - 1];
      before + (if g.depth == 0 then [] else [Paragraph(g.depth, g.heading)]) + TextsOf(g.texts)
  }

  /** The section of a group: its heading, its depth, and its paragraphs, each on a line of its own. */
  predicate IsGroup(e: Entry, g: Group) {
    && e == Entry(g.heading, g.depth, JoinLines(g.texts), None)
    && "" !in g.texts && (g.depth == 0 <==> g.heading == "")
  }

  ghost predicate AreGroups(l: seq<Entry>, groups: seq<Group>) {
    |l| == |groups| && forall k :: 0 <= k < |l| ==> IsGroup(l[k], groups[k]) && (groups[k].depth == 0 ==> k == 0)
  }

  /** The sections hold exactly the paragraphs of the body that are not blank, in order. */
  ghost predicate Holds(l: seq<Entry>, body: seq<Paragraph>) {
    exists groups :: AreGroups(l, groups) && Spread(groups) == Kept(body)
  }

  lemma {:induction false} JoinIsBlank(texts: seq<string>)
    requires "" !in texts
    ensures JoinLines(texts) == "" <==> texts == []
  {
    if |texts| == 1 {
      assert texts[0] in texts;
    }
  }

  lemma SpreadMore(groups: seq<Group>, g: Group)
    ensures Spread(groups + [g])
            == Spread(groups) + (if g.depth == 0 then [] else [Paragraph(g.depth, g.heading)]) + TextsOf(g.texts)
  {
    assert (groups + [g])[..|groups|] == groups;
  }

  lemma JoinMore(texts: seq<string>, text: string)
    requires "" !in texts
    ensures JoinLines(texts + [text]) == if JoinLines(texts) == "" then text else JoinLines(texts) + "\n" + text
    ensures TextsOf(texts + [text]) == TextsOf(texts) + [Paragraph(0, text)]
  {
    JoinIsBlank(texts);
    assert (texts + [text])[..|texts|] == texts;
  }

  lemma TextInGroup(l: seq<Entry>, groups: seq<Group>, text: string) returns (more: seq<Group>)
    requires AreGroups(l, groups) && l != [] && text != ""
    ensures AreGroups(AddText(l, text), more) && Spread(more) == Spread(groups) + [Paragraph(0, text)]
  {
    var init, g := groups[..|groups| - 1], groups[|groups| - 1];
    assert groups == init + [g] && IsGroup(l[|l| - 1], g);
    var g' := g.(texts := g.texts + [text]);
    more := init + [g'];
    SpreadLonger(init, g, g', text);
    JoinMore(g.texts, text);
    var l' := AddText(l, text);
    assert IsGroup(l'[|l| - 1], g');
    forall k | 0 <= k < |l'| ensures IsGroup(l'[k], more[k]) && (more[k].depth == 0 ==> k == 0) {
      assert IsGroup(l[k], groups[k]);
    }
  }

  lemma SpreadLonger(init: seq<Group>, g: Group, g': Group, text: string)
    requires "" !in g.texts && g' == g.(texts := g.texts + [text])
    ensures Spread(init + [g']) == Spread(init + [g]) + [Paragraph(0, text)]
  {
    JoinMore(g.texts, text);
    SpreadMore(init, g);
    SpreadMore(init, g');
    var front := Spread(init) + if g.depth == 0 then [] else [Paragraph(g.depth, g.heading)];
    assert front + (TextsOf(g.texts) + [Paragraph(0, text)]) == (front + TextsOf(g.texts)) + [Paragraph(0, text)];
  }

  lemma FirstTextIsGroup(text: string) returns (more: seq<Group>)
    requires text != ""
    ensures AreGroups(AddText([], text), more) && Spread(more) == [Paragraph(0, text)]
  {
    var g := Group("", 0, [text]);
    more := [g];
    assert [] + [g] == [g] && [] + [text] == [text];
    SpreadMore([], g);
    JoinMore([], text);
  }

  lemma HeadingIsGroup(l: seq<Entry>, groups: seq<Group>, p: Paragraph) returns (more: seq<Group>)
    requires AreGroups(l, groups) && p.level > 0 && p.text != ""
    ensures AreGroups(l + [Entry(p.text, p.level, "", None)], more) && Spread(more) == Spread(groups) + [p]
  {
    var g := Group(p.text, p.level, []);
    more := groups + [g];
    SpreadMore(groups, g);
    assert JoinLines([]) == "";
  }

  /** Whatever the body, its sections hold all its paragraphs. */
  lemma {:induction false} EntriesHoldBody(body: seq<Paragraph>)
    ensures Holds(Entries(body), body)
  {
    if body == [] {
      assert AreGroups([], []) && Spread([]) == Kept(body);
    } else {
      var init, p := body[..|body| - 1], body[|body| - 1];
      EntriesHoldBody(init);
      var l := Entries(init);
      var groups :| AreGroups(l, groups) && Spread(groups) == Kept(init);
      var more := groups;
      if p.text != "" {
        if p.level > 0 {
          more := HeadingIsGroup(l, groups, p);
        } else if l == [] {
          more := FirstTextIsGroup(p.text);
        } else {
          more := TextInGroup(l, groups, p.text);
        }
      }
      assert AreGroups(Entries(body), more) && Spread(more) == Kept(body);
    }
  }

  method Pop(stack: seq<nat>, depth: nat) returns (rest: seq<nat>)
    ensures rest == stack[..Open(stack, depth)]
  {
    rest := stack;
    while rest != [] && rest[|rest| - 1] >= depth
      invariant |rest| <= |stack| && rest == stack[..|rest|]
      invariant Open(rest, depth) == Open(stack, depth)
    {
      rest := rest[..|rest| - 1];
    }
  }

  method AppendText(out: seq<Section>, stack: seq<nat>, text: string, ghost l: seq<Entry>, ghost prefix: seq<Section>)
    returns (out': seq<Section>, stack': seq<nat>)
    requires out == prefix + Tree(l) && stack == Spine(Tree(l))
    ensures out' == prefix + Tree(AddText(l, text)) && stack' == Spine(Tree(AddText(l, text)))
  {
    out', stack' := out, stack;
    if text == "" {
      return;
    }
    if stack == [] {
      assert l == [];
      ghost var e := Entry("", 0, text, None);
      assert Tree([e]) == [Leaf(e)];
      out' := out + [Leaf(Entry("", 0, text, None))];
      stack' := [0];
      return;
    }
    var was := TextOf(out);
    var now := if was == "" then text else was + "\n" + text;
    TextAgreesWithTree(l, now);
    SetTextBehindAll(prefix, Tree(l), now);
    out' := SetText(out, now);
  }

  method AppendHeading(out: seq<Section>, stack: seq<nat>, e: Entry, ghost l: seq<Entry>, ghost prefix: seq<Section>)
    returns (out': seq<Section>, stack': seq<nat>)
    requires out == prefix + Tree(l) && stack == Spine(Tree(l))
    ensures out' == prefix + Tree(l + [e]) && stack' == Spine(Tree(l + [e]))
  {
    var open := Pop(stack, e.depth);
    StackAgreesWithTree(l, e);
    AppendBehindAll(prefix, Tree(l), |open|, Leaf(e));
    if open == [] {
      out' := out + [Leaf(e)];
    } else {
      out' := AppendAt(out, |open|, Leaf(e));
    }
    stack' := open + [e.depth];
  }

  /** What was in `out` stays; behind it comes the tree of this body's headings. */
  method ParseBody(body: seq<Paragraph>, prefix: seq<Section>) returns (out: seq<Section>)
    ensures out == prefix + Tree(Entries(body))
    ensures Holds(Flatten(out[|prefix|..]), body)
  {
    out := prefix;
    var stack: seq<nat> := [];
    for i := 0 to |body|
      invariant out == prefix + Tree(Entries(body[..i])) && stack == Spine(Tree(Entries(body[..i])))
    {
      ghost var l := Entries(body[..i]);
      assert body[..i + 1][..i] == body[..i];
      var p := body[i];
      if p.level > 0 {
        if p.text != "" {
          out, stack := AppendHeading(out, stack, Entry(p.text, p.level, "", None), l, prefix);
        }
      } else {
        out, stack := AppendText(out, stack, p.text, l, prefix);
      }
    }
    assert body[..|body|] == body;
    FlattenTree(Entries(body));
    EntriesHoldBody(body);
    assert out[|prefix|..] == Tree(Entries(body));
  }

  lemma {:induction false} StartOver(l: seq<Entry>, e: Entry)
    requires e.depth == 0 || Spine(Tree(l)) == []
    ensures Tree(l + [e]) == Tree(l) + [Leaf(e)] && Spine(Tree(l + [e])) == [e.depth]
  {
    StackAgreesWithTree(l, e);
    OpenNone(Spine(Tree(l)), e.depth);
  }

  /** The plain text variant: a depth-0 section, or any section on an empty stack, starts over. */
  method FlushToDoc(pending: seq<Entry>) returns (sections: seq<Section>)
    ensures sections == Tree(pending)
  {
    sections := [];
    var stack: seq<nat> := [];
    for i := 0 to |pending|
      invariant sections == Tree(pending[..i]) && stack == Spine(Tree(pending[..i]))
    {
      sections, stack := FlushOne(sections, stack, pending[i], pending[..i]);
      assert pending[..i + 1] == pending[..i] + [pending[i]];
    }
    assert pending[..|pending|] == pending;
  }

  method FlushOne(sections: seq<Section>, stack: seq<nat>, e: Entry, ghost l: seq<Entry>)
    returns (sections': seq<Section>, stack': seq<nat>)
    requires sections == Tree(l) && stack == Spine(Tree(l))
    ensures sections' == Tree(l + [e]) && stack' == Spine(Tree(l + [e]))
  {
    if e.depth == 0 || stack == [] {
      StartOver(l, e);
      return sections + [Leaf(e)], [e.depth];
    }
    assert [] + sections == sections;
    sections', stack' := AppendHeading(sections, stack, e, l, []);
    assert [] + Tree(l + [e]) == Tree(l + [e]);
  }
}
