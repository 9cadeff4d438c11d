/** Splitting a document by its outline: no ink is lost, repeated or moved. */
module TocSplit {
  import opened Wrappers
  import opened Chunker
  import opened TocText
  import opened SectionTree
  import opened SectionBuilder

  // ---- normalise_text ----

  /** \r becomes \n. */
  function Newlines(s: string): string {
    seq(|s|, i requires 0 <= i < |s| => if s[i] == '\r' then '\n' else s[i])
  }

  predicate IsBlankOrTab(c: char) {
    c == ' ' || c == '\t'
  }

  /** A run of blanks and tabs becomes one blank. */
  function SqueezeBlanks(s: string): string {
    if s == [] then []
    else
      var init, c := s[..|s| - 1], s[|s| - 1];
      if !IsBlankOrTab(c) then SqueezeBlanks(init) + [c]
      else if init != [] && IsBlankOrTab(init[|init| - 1]) then SqueezeBlanks(init)
      else SqueezeBlanks(init) + [' ']
  }

  /** How many newlines `s` ends in. */
  function NewlineRun(s: string): nat {
    if s == [] || s[|s| - 1] != '\n' then 0 else 1 + NewlineRun(s[..|s| - 1])
  }

  /** At most two newlines in a row. */
  function SqueezeNewlines(s: string): string {
    if s == [] then []
    else
      var init, c := s[..|s| - 1], s[|s| - 1];
      if c == '\n' && NewlineRun(s) > 2 then SqueezeNewlines(init) else SqueezeNewlines(init) + [c]
  }

  predicate IsEdge(c: char) {
    c == ' ' || c == '\n'
  }

  function FirstInner(s: string): (f: nat)
    ensures f <= |s|
    ensures forall k :: 0 <= k < f ==> IsEdge(s[k])
    ensures f < |s| ==> !IsEdge(s[f])
  {
    if s == [] || !IsEdge(s[0]) then 0
    else
      var f := 1 + FirstInner(s[1..]);
      assert forall k :: 0 < k < f ==> s[k] == s[1..][k - 1];
      f
  }

  function LastInner(s: string): (l: nat)
    ensures l <= |s|
    ensures forall k :: l <= k < |s| ==> IsEdge(s[k])
    ensures l > 0 ==> !IsEdge(s[l - 1])
  {
    if s == [] || !IsEdge(s[|s| - 1]) then |s| else LastInner(s[..|s| - 1])
  }

  function TrimEdges(s: string): string {
    if FirstInner(s) == |s| then [] else s[FirstInner(s)..LastInner(s)]
  }

  function NormaliseText(s: string): string {
    TrimEdges(SqueezeNewlines(SqueezeBlanks(Newlines(s))))
  }

  lemma {:induction false} NewlinesKeepInk(s: string)
    ensures Ink(Newlines(s)) == Ink(s)
  {
    if s != [] {
      NewlinesKeepInk(s[..|s| - 1]);
      assert Newlines(s)[..|s| - 1] == Newlines(s[..|s| - 1]);
    }
  }

  lemma InkOfMore(s: string, c: char)
    ensures Ink(s + [c]) == Ink(s) + if IsSpace(c) then [] else [ToLower(c)]
  {
    assert (s + [c])[..|s|] == s;
  }

  lemma {:induction false} BlanksKeepInk(s: string)
    ensures Ink(SqueezeBlanks(s)) == Ink(s)
  {
    if s != [] {
      var init, c := s[..|s| - 1], s[|s| - 1];
      BlanksKeepInk(init);
      InkOfMore(SqueezeBlanks(init), c);
      InkOfMore(SqueezeBlanks(init), ' ');
    }
  }

  lemma {:induction false} NewlineRunsKeepInk(s: string)
    ensures Ink(SqueezeNewlines(s)) == Ink(s)
  {
    if s != [] {
      var init, c := s[..|s| - 1], s[|s| - 1];
      NewlineRunsKeepInk(init);
      InkOfMore(SqueezeNewlines(init), c);
    }
  }

  lemma {:induction false} InkOfSpace(s: string)
    requires forall k :: 0 <= k < |s| ==> IsSpace(s[k])
    ensures Ink(s) == []
  {
    if s != [] {
      InkOfSpace(s[..|s| - 1]);
    }
  }

  lemma {:induction false} InkOfCore(s: string, f: nat, l: nat)
    requires f <= l <= |s|
    requires (forall k :: 0 <= k < f ==> IsSpace(s[k])) && (forall k :: l <= k < |s| ==> IsSpace(s[k]))
    ensures Ink(s[f..l]) == Ink(s)
  {
    InkSplits(s, 0, f, |s|);
    InkSplits(s, f, l, |s|);
    InkOfSpace(s[0..f]);
    InkOfSpace(s[l..|s|]);
    assert s[0..|s|] == s;
  }

  lemma TrimKeepsInk(s: string)
    ensures Ink(TrimEdges(s)) == Ink(s)
  {
    var f, l := FirstInner(s), LastInner(s);
    if f == |s| {
      InkOfSpace(s);
    } else {
      InkOfCore(s, f, l);
    }
  }

  /** Tidying white space keeps the ink. */
  lemma NormaliseTextKeepsInk(s: string)
    ensures Ink(NormaliseText(s)) == Ink(s)
  {
    NewlinesKeepInk(s);
    BlanksKeepInk(Newlines(s));
    NewlineRunsKeepInk(SqueezeBlanks(Newlines(s)));
    TrimKeepsInk(SqueezeNewlines(SqueezeBlanks(Newlines(s))));
  }

  // ---- Words stay apart ----

  /** The comparison form without the blank that white space in front leaves. */
  function Words(s: string): string {
    var n := NormaliseForCmp(s);
    if n != [] && n[0] == ' ' then n[1..] else n
  }

  /** Same comparison form, and white space at the end of both or of none. */
  predicate SameWords(a: string, b: string) {
    NormaliseForCmp(a) == NormaliseForCmp(b) && PendingSpace(a) == PendingSpace(b)
  }

  lemma OneMoreChar(all: string, s: string, c: char)
    requires all == s + [c]
    ensures PendingSpace(all) == IsSpace(c)
    ensures NormaliseForCmp(all)
            == if IsSpace(c) then NormaliseForCmp(s)
               else NormaliseForCmp(s) + (if PendingSpace(s) then [' '] else []) + [ToLower(c)]
  {
    assert all[..|s|] == s;
  }

  lemma SameWordsMore(a: string, b: string, c: char, d: char)
    requires SameWords(a, b) && (c == d || (IsSpace(c) && IsSpace(d)))
    ensures SameWords(a + [c], b + [d])
  {
    OneMoreChar(a + [c], a, c);
    OneMoreChar(b + [d], b, d);
  }

  /** A blank behind white space adds nothing. */
  lemma SameWordsSkip(a: string, b: string, d: char)
    requires SameWords(a, b) && PendingSpace(b) && IsSpace(d)
    ensures SameWords(a, b + [d])
  {
    OneMoreChar(b + [d], b, d);
  }

  lemma {:induction false} NewlinesKeepWords(s: string)
    ensures SameWords(Newlines(s), s)
  {
    if s != [] {
      var init, c := s[..|s| - 1], s[|s| - 1];
      NewlinesKeepWords(init);
      SameWordsMore(Newlines(init), init, if c == '\r' then '\n' else c, c);
      assert Newlines(s) == Newlines(init) + [if c == '\r' then '\n' else c];
      assert init + [c] == s;
    }
  }

  lemma {:induction false} BlanksKeepWords(s: string)
    ensures SameWords(SqueezeBlanks(s), s)
  {
    if s != [] {
      var init, c := s[..|s| - 1], s[|s| - 1];
      BlanksKeepWords(init);
      assert init + [c] == s;
      if !IsBlankOrTab(c) {
        SameWordsMore(SqueezeBlanks(init), init, c, c);
      } else if init != [] && IsBlankOrTab(init[|init| - 1]) {
        SameWordsSkip(SqueezeBlanks(init), init, c);
      } else {
        SameWordsMore(SqueezeBlanks(init), init, ' ', c);
      }
    }
  }

  lemma {:induction false} NewlineRunsKeepWords(s: string)
    ensures SameWords(SqueezeNewlines(s), s)
  {
    if s != [] {
      var init, c := s[..|s| - 1], s[|s| - 1];
      NewlineRunsKeepWords(init);
      assert init + [c] == s;
      if c == '\n' && NewlineRun(s) > 2 {
        assert NewlineRun(init) > 0;
        SameWordsSkip(SqueezeNewlines(init), init, c);
      } else {
        SameWordsMore(SqueezeNewlines(init), init, c, c);
      }
    }
  }

  predicate AllSpace(s: string) {
    forall k :: 0 <= k < |s| ==> IsSpace(s[k])
  }

  lemma Grow(a: string, b: string)
    requires b != []
    ensures a + b == (a + b[..|b| - 1]) + [b[|b| - 1]]
  {
  }

  lemma {:induction false} SpaceBehind(s: string, blank: string)
    requires AllSpace(blank)
    ensures NormaliseForCmp(s + blank) == NormaliseForCmp(s)
  {
    if blank == [] {
      assert s + blank == s;
    } else {
      var init, c := blank[..|blank| - 1], blank[|blank| - 1];
      SpaceBehind(s, init);
      Grow(s, blank);
      OneMoreChar(s + blank, s + init, c);
    }
  }

  /** What white space in front leaves of a text in comparison form: at most one blank. */
  function Behind(blank: bool, n: string): string {
    if blank && n != [] && n[0] != ' ' then [' '] + n else n
  }

  lemma {:induction false} SpaceInFront(blank: string, s: string)
    requires AllSpace(blank)
    ensures s != [] ==> PendingSpace(blank + s) == PendingSpace(s)
    ensures NormaliseForCmp(blank + s) == Behind(blank != [], NormaliseForCmp(s))
  {
    if s == [] {
      SpaceBehind([], blank);
      assert [] + blank == blank && blank + s == blank;
    } else {
      var init, c := s[..|s| - 1], s[|s| - 1];
      SpaceInFront(blank, init);
      Grow(blank, s);
      SpaceStays(blank, init, c, s, blank + init, blank + s);
    }
  }

  lemma SpaceStays(blank: string, init: string, c: char, s: string, before: string, all: string)
    requires AllSpace(blank) && s == init + [c] && before == blank + init && all == before + [c]
    requires init != [] ==> PendingSpace(before) == PendingSpace(init)
    requires NormaliseForCmp(before) == Behind(blank != [], NormaliseForCmp(init))
    ensures PendingSpace(all) == PendingSpace(s) && NormaliseForCmp(all) == Behind(blank != [], NormaliseForCmp(s))
  {
    OneMoreChar(all, before, c);
    OneMoreChar(s, init, c);
    if !IsSpace(c) {
      FirstChar(blank, init, c);
      KeptBehind(blank != [], NormaliseForCmp(init), PendingSpace(init), PendingSpace(before), ToLower(c));
    }
  }

  lemma KeptBehind(blank: bool, n: string, pending: bool, pending': bool, c: char)
    requires c != ' ' && if n != [] then pending == pending' else (pending && pending') || (!pending && pending' == blank)
    ensures Behind(blank, n) + (if pending' then [' '] else []) + [c] == Behind(blank, n + (if pending then [' '] else []) + [c])
  {
  }

  /** The first character that is kept, with nothing kept before it. */
  lemma FirstChar(blank: string, init: string, c: char)
    requires AllSpace(blank) && !IsSpace(c)
    ensures init == [] ==> PendingSpace(blank + init) == (blank != []) && NormaliseForCmp(init) == []
    ensures NormaliseForCmp(init) == [] && init != [] ==> PendingSpace(init)
    ensures ToLower(c) != ' '
  {
    if init == [] {
      assert blank + init == blank;
    }
  }

  lemma TrimKeepsWords(s: string)
    ensures Words(TrimEdges(s)) == Words(s)
  {
    var f, l := FirstInner(s), LastInner(s);
    if f == |s| {
      SpaceBehind([], s);
      assert [] + s == s;
    } else {
      CoreKeepsWords(s[..f], s[f..l], s[l..]);
      assert s[..f] + s[f..l] + s[l..] == s;
    }
  }

  lemma CoreKeepsWords(front: string, core: string, back: string)
    requires AllSpace(front) && AllSpace(back)
    ensures Words(front + core + back) == Words(core)
  {
    SpaceInFront(front, core);
    SpaceBehind(front + core, back);
  }

  /** Tidying white space neither joins words nor splits them. */
  lemma WordsStayApart(s: string)
    ensures Words(NormaliseText(s)) == Words(s)
  {
    NewlinesKeepWords(s);
    BlanksKeepWords(Newlines(s));
    NewlineRunsKeepWords(SqueezeBlanks(Newlines(s)));
    TrimKeepsWords(SqueezeNewlines(SqueezeBlanks(Newlines(s))));
  }

  method TidyText(s: string) returns (out: string)
    ensures out == NormaliseText(s)
  {
    var text := Newlines(s);
    var step1 := SqueezeBlanksLoop(text);
    var step2 := SqueezeNewlinesLoop(step1);
    out := TrimEdges(step2);
  }

  method SqueezeBlanksLoop(text: string) returns (out: string)
    ensures out == SqueezeBlanks(text)
  {
    out := "";
    var lastSpace := false;
    for i := 0 to |text|
      invariant out == SqueezeBlanks(text[..i])
      invariant lastSpace == (i > 0 && IsBlankOrTab(text[i - 1]))
    {
      assert text[..i + 1][..i] == text[..i];
      var c := text[i];
      if c == ' ' || c == '\t' {
        if !lastSpace {
          out := out + [' '];
        }
        lastSpace := true;
      } else {
        out := out + [c];
        lastSpace := c == ' ';
      }
    }
    assert text[..|text|] == text;
  }

  method SqueezeNewlinesLoop(text: string) returns (out: string)
    ensures out == SqueezeNewlines(text)
  {
    out := "";
    var run := 0;
    for i := 0 to |text|
      invariant out == SqueezeNewlines(text[..i]) && run == NewlineRun(text[..i])
    {
      assert text[..i + 1][..i] == text[..i];
      var c := text[i];
      if c == '\n' {
        run := run + 1;
        if run <= 2 {
          out := out + [c];
        }
      } else {
        run := 0;
        out := out + [c];
      }
    }
    assert text[..|text|] == text;
  }

  // ---- Matching the outline ----

  datatype TocEntry = TocEntry(depth: nat, title: string)

  datatype Match = Match(pos: nat, depth: nat, title: string)

  predicate OccursAt(text: string, pattern: string, p: nat) {
    p + |pattern| <= |text| && text[p..p + |pattern|] == pattern
  }

  /** The first occurrence at or after `from`. */
  function FindFrom(text: string, pattern: string, from: nat): (r: Option<nat>)
    ensures r.Some? ==> from <= r.value && OccursAt(text, pattern, r.value)
    ensures forall p :: from <= p && OccursAt(text, pattern, p) ==> r.Some? && r.value <= p
    decreases |text| - from
  {
    if from + |pattern| > |text| then None
    else if text[from..from + |pattern|] == pattern then Some(from)
    else FindFrom(text, pattern, from + 1)
  }

  /** Each title is looked for behind the one found before it; titles that are blank or not found are skipped. */
  function Search(norm: string, entries: seq<TocEntry>): (r: (seq<Match>, nat)) {
    if entries == [] then ([], 0)
    else
      var (found, cursor) := Search(norm, entries[..|entries| - 1]);
      var e := entries[|entries| - 1];
      var nt := NormaliseForCmp(e.title);
      if nt == [] then (found, cursor)
      else
        match FindFrom(norm, nt, cursor)
        case None => (found, cursor)
        case Some(p) => (found + [Match(p, e.depth, e.title)], p + |nt|)
  }

  /** Where a match ends in the normalised text. */
  function EndOfMatch(m: Match): nat {
    m.pos + |NormaliseForCmp(m.title)|
  }

  /** Matches are where their titles stand, one behind the other. */
  predicate Ordered(norm: string, found: seq<Match>, cursor: nat) {
    && (forall k :: 0 <= k < |found| ==> OccursAt(norm, NormaliseForCmp(found[k].title), found[k].pos))
    && (forall k :: 0 < k < |found| ==> EndOfMatch(found[k - 1]) <= found[k].pos)
    && (found != [] ==> cursor == EndOfMatch(found[|found| - 1]))
  }

  lemma {:induction false} SearchIsOrdered(norm: string, entries: seq<TocEntry>)
    ensures Ordered(norm, Search(norm, entries).0, Search(norm, entries).1)
    ensures |Search(norm, entries).0| <= |entries|
  {
    if entries != [] {
      var (found, cursor) := Search(norm, entries[..|entries| - 1]);
      SearchIsOrdered(norm, entries[..|entries| - 1]);
      var e := entries[|entries| - 1];
      var p := FindFrom(norm, NormaliseForCmp(e.title), cursor);
      if p.Some? {
        OrderedMore(norm, found, cursor, Match(p.value, e.depth, e.title));
      }
    }
  }

  lemma OrderedMore(norm: string, found: seq<Match>, cursor: nat, m: Match)
    requires Ordered(norm, found, cursor) && cursor <= m.pos && OccursAt(norm, NormaliseForCmp(m.title), m.pos)
    ensures Ordered(norm, found + [m], EndOfMatch(m))
  {
  }

  // ---- Which entries are found ----

  /** Where the search stands when it comes to entry `j`: behind the last match of an earlier entry. */
  function CursorAt(found: seq<Match>, idx: seq<nat>, j: nat): nat
    requires |found| == |idx|
  {
    if idx == [] then 0
    else if idx[|idx| - 1] < j then EndOfMatch(found[|found| - 1])
    else CursorAt(found[..|found| - 1], idx[..|idx| - 1], j)
  }

  /** Where the search stands after the first `k` matches. */
  function CursorOf(found: seq<Match>, k: nat): nat
    requires k <= |found|
  {
    if k == 0 then 0 else EndOfMatch(found[k - 1])
  }

  /** The first place of the title at or behind `from`. */
  predicate FirstAt(norm: string, title: string, from: nat, p: nat) {
    && from <= p && OccursAt(norm, NormaliseForCmp(title), p)
    && forall q :: from <= q < p ==> !OccursAt(norm, NormaliseForCmp(title), q)
  }

  ghost predicate NotBehind(norm: string, title: string, from: nat) {
    forall p: nat :: from <= p ==> !OccursAt(norm, NormaliseForCmp(title), p)
  }

  ghost predicate PickedAt(norm: string, entries: seq<TocEntry>, m: Match, j: nat, from: nat) {
    && j < |entries| && NormaliseForCmp(entries[j].title) != []
    && m.title == entries[j].title && m.depth == entries[j].depth && FirstAt(norm, m.title, from, m.pos)
  }

  /**
    The matches are those of the entries `idx`, in order, each with the entry's
    title and depth, at the first place behind the match before; an entry that
    is not among them is blank, or stands nowhere behind the last match before it.
  */
  ghost predicate Picks(norm: string, entries: seq<TocEntry>, found: seq<Match>, idx: seq<nat>) {
    && |idx| == |found| && (forall k :: 0 < k < |idx| ==> idx[k - 1] < idx[k])
    && AllPicked(norm, entries, found, idx) && AllSkipped(norm, entries, found, idx)
  }

  ghost predicate AllPicked(norm: string, entries: seq<TocEntry>, found: seq<Match>, idx: seq<nat>)
    requires |idx| == |found|
  {
    forall k {:trigger PickedAt(norm, entries, found[k], idx[k], CursorOf(found, k))} :: 0 <= k < |idx| ==>
      PickedAt(norm, entries, found[k], idx[k], CursorOf(found, k))
  }

  ghost predicate SkippedAt(norm: string, entries: seq<TocEntry>, j: nat, from: nat) {
    j < |entries| && (NormaliseForCmp(entries[j].title) == [] || NotBehind(norm, entries[j].title, from))
  }

  ghost predicate AllSkipped(norm: string, entries: seq<TocEntry>, found: seq<Match>, idx: seq<nat>)
    requires |idx| == |found|
  {
    forall j {:trigger CursorAt(found, idx, j)} :: 0 <= j < |entries| && j !in idx ==> SkippedAt(norm, entries, j, CursorAt(found, idx, j))
  }

  lemma PickedStays(norm: string, init: seq<TocEntry>, entries: seq<TocEntry>, m: Match, j: nat, from: nat)
    requires PickedAt(norm, init, m, j, from) && init <= entries
    ensures PickedAt(norm, entries, m, j, from)
  {
  }

  lemma SkippedStays(norm: string, init: seq<TocEntry>, entries: seq<TocEntry>, j: nat, from: nat)
    requires SkippedAt(norm, init, j, from) && init <= entries
    ensures SkippedAt(norm, entries, j, from)
  {
  }

  lemma AllPickedMore(norm: string, init: seq<TocEntry>, entries: seq<TocEntry>, found: seq<Match>, idx: seq<nat>, m: Match, last: nat)
    requires |idx| == |found| && AllPicked(norm, init, found, idx) && init <= entries
    requires PickedAt(norm, entries, m, last, CursorOf(found, |found|))
    ensures AllPicked(norm, entries, found + [m], idx + [last])
  {
    var found', idx' := found + [m], idx + [last];
    forall k | 0 <= k < |idx'| ensures PickedAt(norm, entries, found'[k], idx'[k], CursorOf(found', k)) {
      assert CursorOf(found', k) == CursorOf(found, k);
      if k < |idx| {
        PickedStays(norm, init, entries, found[k], idx[k], CursorOf(found, k));
      }
    }
  }

  lemma AllPickedStay(norm: string, init: seq<TocEntry>, entries: seq<TocEntry>, found: seq<Match>, idx: seq<nat>)
    requires |idx| == |found| && AllPicked(norm, init, found, idx) && init <= entries
    ensures AllPicked(norm, entries, found, idx)
  {
    forall k | 0 <= k < |idx| ensures PickedAt(norm, entries, found[k], idx[k], CursorOf(found, k)) {
      PickedStays(norm, init, entries, found[k], idx[k], CursorOf(found, k));
    }
  }

  lemma AllSkippedMore(norm: string, init: seq<TocEntry>, entries: seq<TocEntry>, found: seq<Match>, idx: seq<nat>, m: Match, last: nat)
    requires |idx| == |found| && AllSkipped(norm, init, found, idx) && init <= entries && last == |init| == |entries| - 1
    ensures AllSkipped(norm, entries, found + [m], idx + [last])
  {
    var found', idx' := found + [m], idx + [last];
    assert idx'[|idx|] == last;
    forall j | 0 <= j < |entries| && j !in idx' ensures SkippedAt(norm, entries, j, CursorAt(found', idx', j)) {
      assert j < last && j !in idx by { assert forall k :: 0 <= k < |idx| ==> idx'[k] == idx[k]; }
      CursorStays(found, idx, m, last, j);
      SkippedStays(norm, init, entries, j, CursorAt(found, idx, j));
    }
  }

  lemma AllSkippedStay(norm: string, init: seq<TocEntry>, entries: seq<TocEntry>, found: seq<Match>, idx: seq<nat>)
    requires |idx| == |found| && AllSkipped(norm, init, found, idx) && init <= entries && |init| == |entries| - 1
    requires SkippedAt(norm, entries, |init|, CursorAt(found, idx, |init|))
    ensures AllSkipped(norm, entries, found, idx)
  {
    forall j | 0 <= j < |entries| && j !in idx ensures SkippedAt(norm, entries, j, CursorAt(found, idx, j)) {
      if j < |init| {
        SkippedStays(norm, init, entries, j, CursorAt(found, idx, j));
      }
    }
  }

  lemma {:induction false} CursorAfterAll(found: seq<Match>, idx: seq<nat>, j: nat)
    requires |found| == |idx| && forall k :: 0 <= k < |idx| ==> idx[k] < j
    ensures CursorAt(found, idx, j) == CursorOf(found, |found|)
  {
  }

  lemma CursorStays(found: seq<Match>, idx: seq<nat>, m: Match, last: nat, j: nat)
    requires |found| == |idx| && j <= last
    ensures CursorAt(found + [m], idx + [last], j) == CursorAt(found, idx, j)
  {
    assert (found + [m])[..|found|] == found && (idx + [last])[..|idx|] == idx;
  }

  /** The search picks entries in this way. */
  lemma {:induction false} SearchPicks(norm: string, entries: seq<TocEntry>) returns (idx: seq<nat>)
    ensures Picks(norm, entries, Search(norm, entries).0, idx)
    ensures var (found, cursor) := Search(norm, entries); cursor == CursorOf(found, |found|)
    ensures forall k :: 0 <= k < |idx| ==> idx[k] < |entries|
  {
    if entries == [] {
      idx := [];
    } else {
      var init, last := entries[..|entries| - 1], |entries| - 1;
      var (found, cursor) := Search(norm, init);
      idx := SearchPicks(norm, init);
      CursorAfterAll(found, idx, last);
      var e := entries[last];
      var nt := NormaliseForCmp(e.title);
      var p := FindFrom(norm, nt, cursor);
      if nt != [] && p.Some? {
        var m := Match(p.value, e.depth, e.title);
        AllPickedMore(norm, init, entries, found, idx, m, last);
        AllSkippedMore(norm, init, entries, found, idx, m, last);
        idx := idx + [last];
      } else {
        AllPickedStay(norm, init, entries, found, idx);
        AllSkippedStay(norm, init, entries, found, idx);
      }
    }
  }

  method FindMatches(norm: string, entries: seq<TocEntry>) returns (found: seq<Match>)
    ensures found == Search(norm, entries).0
  {
    found := [];
    var cursor := 0;
    for i := 0 to |entries|
      invariant (found, cursor) == Search(norm, entries[..i])
    {
      assert entries[..i + 1][..i] == entries[..i];
      var nt := Normalise(entries[i].title);
      if nt != [] {
        var p := FindFrom(norm, nt, cursor);
        if p.Some? {
          found := found + [Match(p.value, entries[i].depth, entries[i].title)];
          cursor := p.value + |nt|;
        }
      }
    }
    assert entries[..|entries|] == entries;
  }

  // ---- Sections ----

  /** Where the body of the last of these matches ends: at the next match, or at the end of the text. */
  function BodyEnd(text: string, found: seq<Match>, k: nat): nat
    requires k < |found|
  {
    if k + 1 < |found| then OrigPos(text, found[k + 1].pos) else |text|
  }

  /** The clamp never fires: a body starts no later than it ends. */
  lemma BodyStartsBeforeItEnds(text: string, found: seq<Match>, cursor: nat, k: nat)
    requires Ordered(NormaliseForCmp(text), found, cursor) && k < |found|
    ensures OrigPos(text, EndOfMatch(found[k])) <= BodyEnd(text, found, k) <= |text|
  {
    if k + 1 < |found| {
      assert EndOfMatch(found[k + 1 - 1]) <= found[k + 1].pos;
      OrigPosGrows(text, EndOfMatch(found[k]), found[k + 1].pos);
    } else {
      OrigPosGrows(text, EndOfMatch(found[k]), EndOfMatch(found[k]));
    }
  }

  function Body(text: string, found: seq<Match>, k: nat): string
    requires k < |found|
  {
    var end := BodyEnd(text, found, k);
    var start := OrigPos(text, EndOfMatch(found[k]));
    if start <= end <= |text| then text[start..end] else []
  }

  function SectionAt(text: string, found: seq<Match>, k: nat): Entry
    requires k < |found|
  {
    Entry(found[k].title, found[k].depth, NormaliseText(Body(text, found, k)), None)
  }

  function Preamble(text: string, found: seq<Match>): seq<Entry>
    requires found != []
  {
    OrigPosGrows(text, found[0].pos, found[0].pos);
    var body := NormaliseText(text[..OrigPos(text, found[0].pos)]);
    if body == [] then [] else [Entry("", 0, body, None)]
  }

  /** The sections of the first `k` matches. */
  function SectionsOf(text: string, found: seq<Match>, k: nat): seq<Entry>
    requires k <= |found|
  {
    seq(k, i requires 0 <= i < k => SectionAt(text, found, i))
  }

  lemma MoreSections(text: string, found: seq<Match>, k: nat)
    requires k < |found|
    ensures SectionsOf(text, found, k + 1) == SectionsOf(text, found, k) + [SectionAt(text, found, k)]
  {
  }

  /** The ink of sections: each heading, then its body. */
  function InkOfEntries(l: seq<Entry>): string {
    if l == [] then []
    else InkOfEntries(l[..|l| - 1]) + Ink(l[|l| - 1].heading) + Ink(l[|l| - 1].text)
  }

  lemma InkOfMoreEntries(l: seq<Entry>, e: Entry)
    ensures InkOfEntries(l + [e]) == InkOfEntries(l) + Ink(e.heading) + Ink(e.text)
  {
    assert (l + [e])[..|l|] == l;
  }

  lemma OccursSlice(norm: string, pattern: string, p: nat, q: nat)
    requires OccursAt(norm, pattern, p) && q == p + |pattern|
    ensures q <= |norm| && norm[p..q] == pattern
  {
  }

  lemma InkOfOneMore(l: seq<Entry>, e: Entry, all: seq<Entry>)
    requires all == l + [e]
    ensures InkOfEntries(all) == InkOfEntries(l) + (Ink(e.heading) + Ink(e.text))
  {
    InkOfMoreEntries(l, e);
    RegroupThree(InkOfEntries(l), Ink(e.heading), Ink(e.text));
  }

  lemma RegroupThree(a: string, b: string, c: string)
    ensures (a + b) + c == a + (b + c)
  {
  }

  lemma TitleInk(text: string, m: Match)
    requires OccursAt(NormaliseForCmp(text), NormaliseForCmp(m.title), m.pos)
    ensures OrigPos(text, m.pos) <= OrigPos(text, EndOfMatch(m)) <= |text|
    ensures Ink(text[OrigPos(text, m.pos)..OrigPos(text, EndOfMatch(m))]) == Ink(m.title)
  {
    OccursSlice(NormaliseForCmp(text), NormaliseForCmp(m.title), m.pos, EndOfMatch(m));
    SliceInk(text, m.pos, EndOfMatch(m));
    NormaliseKeepsInk(m.title);
  }

  /** Heading and body of one match have the ink of the text from this match to the next. */
  lemma MatchInk(text: string, found: seq<Match>, cursor: nat, k: nat)
    requires Ordered(NormaliseForCmp(text), found, cursor) && k < |found|
    ensures OrigPos(text, found[k].pos) <= BodyEnd(text, found, k) <= |text|
    ensures Ink(found[k].title) + Ink(NormaliseText(Body(text, found, k)))
            == Ink(text[OrigPos(text, found[k].pos)..BodyEnd(text, found, k)])
  {
    var m := found[k];
    var p, q, end := OrigPos(text, m.pos), OrigPos(text, EndOfMatch(m)), BodyEnd(text, found, k);
    TitleInk(text, m);
    BodyStartsBeforeItEnds(text, found, cursor, k);
    NormaliseTextKeepsInk(Body(text, found, k));
    InkSplits(text, p, q, end);
  }

  lemma PreambleInk(text: string, found: seq<Match>)
    requires found != []
    ensures OrigPos(text, found[0].pos) <= |text|
    ensures InkOfEntries(Preamble(text, found)) == Ink(text[..OrigPos(text, found[0].pos)])
  {
    OrigPosGrows(text, found[0].pos, found[0].pos);
    var pre := text[..OrigPos(text, found[0].pos)];
    NormaliseTextKeepsInk(pre);
    var body := NormaliseText(pre);
    if body != [] {
      InkOfMoreEntries([], Entry("", 0, body, None));
      assert [] + [Entry("", 0, body, None)] == [Entry("", 0, body, None)];
      assert Ink("") == "";
    }
  }

  /** Where the first `k` sections end. */
  function EndOfSections(text: string, found: seq<Match>, k: nat): nat
    requires k <= |found| && found != []
  {
    if k < |found| then OrigPos(text, found[k].pos) else |text|
  }

  lemma NextSectionInk(text: string, found: seq<Match>, cursor: nat, k: nat)
    requires Ordered(NormaliseForCmp(text), found, cursor) && k < |found|
    ensures EndOfSections(text, found, k) <= EndOfSections(text, found, k + 1) <= |text|
    ensures InkOfEntries(SectionsOf(text, found, k + 1))
            == InkOfEntries(SectionsOf(text, found, k)) + Ink(text[EndOfSections(text, found, k)..EndOfSections(text, found, k + 1)])
  {
    MatchInk(text, found, cursor, k);
    MoreSections(text, found, k);
    InkOfOneMore(SectionsOf(text, found, k), SectionAt(text, found, k), SectionsOf(text, found, k + 1));
  }

  lemma {:induction false} SectionsInk(text: string, found: seq<Match>, cursor: nat, k: nat)
    requires Ordered(NormaliseForCmp(text), found, cursor) && found != [] && k <= |found|
    ensures EndOfSections(text, found, 0) <= EndOfSections(text, found, k) <= |text|
    ensures InkOfEntries(SectionsOf(text, found, k)) == Ink(text[EndOfSections(text, found, 0)..EndOfSections(text, found, k)])
  {
    if k == 0 {
      OrigPosGrows(text, found[0].pos, found[0].pos);
    } else {
      SectionsInk(text, found, cursor, k - 1);
      NextSectionInk(text, found, cursor, k - 1);
      InkSplits(text, EndOfSections(text, found, 0), EndOfSections(text, found, k - 1), EndOfSections(text, found, k));
    }
  }

  /** The sections a successful split gives. */
  function Split(text: string, found: seq<Match>): seq<Section>
    requires found != []
  {
    Tree(Preamble(text, found)) + Tree(SectionsOf(text, found, |found|))
  }

  lemma {:induction false} InkOfBoth(a: seq<Entry>, b: seq<Entry>)
    ensures InkOfEntries(a + b) == InkOfEntries(a) + InkOfEntries(b)
  {
    if b == [] {
      assert a + b == a;
    } else {
      assert (a + b)[..|a + b| - 1] == a + b[..|b| - 1];
      InkOfBoth(a, b[..|b| - 1]);
    }
  }

  /** Behind an untitled section for what precedes the first match, the sections have the titles and depths of these entries. */
  ghost predicate Outlined(l: seq<Entry>, entries: seq<TocEntry>, idx: seq<nat>) {
    && (|l| == |idx| || (|l| == |idx| + 1 && l[0].heading == "" && l[0].depth == 0))
    && forall k :: 0 <= k < |idx| ==>
         var e := l[|l| - |idx| + k];
         idx[k] < |entries| && e.heading == entries[idx[k]].title && e.depth == entries[idx[k]].depth
  }

  lemma SectionsAt(text: string, found: seq<Match>, k: nat)
    requires k < |found|
    ensures var e := SectionsOf(text, found, |found|)[k]; e.heading == found[k].title && e.depth == found[k].depth
  {
  }

  /** A split follows the outline: the entries that were found, in order, at their own depths. */
  lemma SplitIsOutlined(text: string, entries: seq<TocEntry>) returns (idx: seq<nat>)
    requires Search(NormaliseForCmp(text), entries).0 != []
    ensures var found := Search(NormaliseForCmp(text), entries).0;
            Picks(NormaliseForCmp(text), entries, found, idx) && Outlined(Flatten(Split(text, found)), entries, idx)
  {
    var norm := NormaliseForCmp(text);
    var found := Search(norm, entries).0;
    idx := SearchPicks(norm, entries);
    SectionsAreOutlined(norm, text, entries, found, idx);
    SplitFlattens(text, found);
    PreambleIsUntitled(text, found);
    OutlinedBehind(Preamble(text, found), SectionsOf(text, found, |found|), Flatten(Split(text, found)), entries, idx);
  }

  lemma SplitFlattens(text: string, found: seq<Match>)
    requires found != []
    ensures Flatten(Split(text, found)) == Preamble(text, found) + SectionsOf(text, found, |found|)
  {
    var pre, all := Preamble(text, found), SectionsOf(text, found, |found|);
    FlattenConcat(Tree(pre), Tree(all));
    FlattenTree(pre);
    FlattenTree(all);
  }

  lemma PreambleIsUntitled(text: string, found: seq<Match>)
    requires found != []
    ensures var pre := Preamble(text, found); |pre| <= 1 && (pre != [] ==> pre[0].heading == "" && pre[0].depth == 0)
  {
  }

  lemma SectionsAreOutlined(norm: string, text: string, entries: seq<TocEntry>, found: seq<Match>, idx: seq<nat>)
    requires Picks(norm, entries, found, idx)
    ensures Outlined(SectionsOf(text, found, |found|), entries, idx)
  {
    forall k | 0 <= k < |idx|
      ensures var e := SectionsOf(text, found, |found|)[k];
              idx[k] < |entries| && e.heading == entries[idx[k]].title && e.depth == entries[idx[k]].depth
    {
      assert PickedAt(norm, entries, found[k], idx[k], CursorOf(found, k));
      SectionsAt(text, found, k);
    }
    OutlinedAlone(SectionsOf(text, found, |found|), entries, idx);
  }

  lemma OutlinedAlone(l: seq<Entry>, entries: seq<TocEntry>, idx: seq<nat>)
    requires |l| == |idx|
    requires forall k :: 0 <= k < |idx| ==> idx[k] < |entries| && l[k].heading == entries[idx[k]].title && l[k].depth == entries[idx[k]].depth
    ensures Outlined(l, entries, idx)
  {
  }

  lemma OutlinedBehind(pre: seq<Entry>, all: seq<Entry>, l: seq<Entry>, entries: seq<TocEntry>, idx: seq<nat>)
    requires Outlined(all, entries, idx) && |all| == |idx| && l == pre + all
    requires |pre| <= 1 && (pre != [] ==> pre[0].heading == "" && pre[0].depth == 0)
    ensures Outlined(l, entries, idx)
  {
    forall k | 0 <= k < |idx|
      ensures var e := l[|l| - |idx| + k];
              idx[k] < |entries| && e.heading == entries[idx[k]].title && e.depth == entries[idx[k]].depth
    {
      assert l[|l| - |idx| + k] == all[k] == all[|all| - |idx| + k];
    }
  }

  /** In document order, headings and bodies have exactly the ink of the whole text. */
  lemma SplitKeepsInk(text: string, entries: seq<TocEntry>)
    requires Search(NormaliseForCmp(text), entries).0 != []
    ensures var found := Search(NormaliseForCmp(text), entries).0;
            InkOfEntries(Flatten(Split(text, found))) == Ink(text)
  {
    var (found, cursor) := Search(NormaliseForCmp(text), entries);
    SearchIsOrdered(NormaliseForCmp(text), entries);
    SectionsInk(text, found, cursor, |found|);
    PreambleInk(text, found);
    InkSplits(text, 0, EndOfSections(text, found, 0), |text|);
    var pre, all := Preamble(text, found), SectionsOf(text, found, |found|);
    FlattenConcat(Tree(pre), Tree(all));
    FlattenTree(pre);
    FlattenTree(all);
    InkOfBoth(pre, all);
    assert text[0..|text|] == text;
  }

  // ---- The splitter ----

  /** False when fewer than half of the entries are found; otherwise the text is split without loss. */
  method SplitByToc(text: string, entries: seq<TocEntry>) returns (ok: bool, sections: seq<Section>)
    ensures ok <==> entries != [] && |Search(NormaliseForCmp(text), entries).0| >= |entries| / 2 + 1
    ensures !ok ==> sections == []
    ensures ok ==> sections != [] && sections == Split(text, Search(NormaliseForCmp(text), entries).0)
    ensures ok ==> InkOfEntries(Flatten(sections)) == Ink(text)
    ensures ok ==> exists idx :: Picks(NormaliseForCmp(text), entries, Search(NormaliseForCmp(text), entries).0, idx)
                                 && Outlined(Flatten(sections), entries, idx)
  {
    sections := [];
    if entries == [] {
      return false, [];
    }
    var norm := Normalise(text);
    var positions := PositionMap(text, norm);
    var found := FindMatches(norm, entries);
    if |found| < |entries| / 2 + 1 {
      return false, [];
    }
    ghost var cursor := Search(norm, entries).1;
    SearchIsOrdered(norm, entries);
    SplitKeepsInk(text, entries);
    OrigPosGrows(text, found[0].pos, found[0].pos);
    var start := OrigPosOf(text, positions, found[0].pos);
    var body := TidyText(text[..start]);
    if body != [] {
      sections := [Leaf(Entry("", 0, body, None))];
      TreeOfOne(Entry("", 0, body, None));
    }
    ghost var pre := sections;
    assert pre == Tree(Preamble(text, found));
    var stack: seq<nat> := [];
    for i := 0 to |found|
      invariant sections == pre + Tree(SectionsOf(text, found, i)) && stack == Spine(Tree(SectionsOf(text, found, i)))
    {
      var e := Cut(text, positions, found, cursor, i);
      MoreSections(text, found, i);
      sections, stack := AppendHeading(sections, stack, e, SectionsOf(text, found, i), pre);
    }
    TreeNotEmpty(SectionsOf(text, found, |found|));
    ghost var idx := SplitIsOutlined(text, entries);
    ok := sections != [];
  }

  method OrigPosOf(text: string, positions: seq<nat>, ni: nat) returns (p: nat)
    requires positions == NormToOrig(text)
    ensures p == OrigPos(text, ni)
  {
    p := if ni < |positions| then positions[ni] else |text|;
  }

  /** Where a body starts and ends, with the clamp on its start. */
  method BodyBounds(text: string, positions: seq<nat>, found: seq<Match>, ghost cursor: nat, i: nat) returns (start: nat, end: nat)
    requires positions == NormToOrig(text) && Ordered(NormaliseForCmp(text), found, cursor) && i < |found|
    ensures start == OrigPos(text, EndOfMatch(found[i])) && end == BodyEnd(text, found, i) && start <= end <= |text|
  {
    var nt := Normalise(found[i].title);
    start := OrigPosOf(text, positions, found[i].pos + |nt|);
    end := |text|;
    if i + 1 < |found| {
      end := OrigPosOf(text, positions, found[i + 1].pos);
    }
    BodyStartsBeforeItEnds(text, found, cursor, i);
    if start > end {
      assert false;
    }
  }

  /** One section. */
  method Cut(text: string, positions: seq<nat>, found: seq<Match>, ghost cursor: nat, i: nat) returns (e: Entry)
    requires positions == NormToOrig(text) && Ordered(NormaliseForCmp(text), found, cursor) && i < |found|
    ensures e == SectionAt(text, found, i)
  {
    var start, end := BodyBounds(text, positions, found, cursor, i);
    var body := TidyText(text[start..end]);
    e := Entry(found[i].title, found[i].depth, body, None);
  }
}
