/** Splitting section text into overlapping windows that never cut a word. */
module Chunker {
  import opened Wrappers
  import opened SectionTree

  const MAX_CHARS: nat := 600
  const OVERLAP: nat := 100

  /** isspace in the C locale. */
  predicate IsSpace(c: char) {
    c == ' ' || '\t' <= c <= '\r'
  }

  /** What is trimmed from the ends of a chunk. */
  predicate IsTrimmed(c: char) {
    c == ' ' || c == '\t' || c == '\n' || c == '\r'
  }

  predicate Blank(s: string) {
    forall i :: 0 <= i < |s| ==> IsTrimmed(s[i])
  }

  datatype Window = Window(pos: nat, end: nat)

  // ---- Where a window ends and the next one starts ----

  function WordEnd(text: string, i: nat): (end: nat)
    requires i <= |text|
    ensures i <= end <= |text|
    ensures forall k :: i <= k < end ==> !IsSpace(text[k])
    ensures end < |text| ==> IsSpace(text[end])
    decreases |text| - i
  {
    if i == |text| || IsSpace(text[i]) then i else WordEnd(text, i + 1)
  }

  function NextSpace(text: string, i: nat, end: nat): (k: nat)
    requires i <= end <= |text|
    ensures i <= k <= end
    ensures forall j :: i <= j < k ==> !IsSpace(text[j])
    ensures k < end ==> IsSpace(text[k])
    decreases end - i
  {
    if i == end || IsSpace(text[i]) then i else NextSpace(text, i + 1, end)
  }

  function NextWord(text: string, i: nat, end: nat): (k: nat)
    requires i <= end <= |text|
    ensures i <= k <= end
    ensures forall j :: i <= j < k ==> IsSpace(text[j])
    ensures k < end ==> !IsSpace(text[k])
    decreases end - i
  {
    if i == end || !IsSpace(text[i]) then i else NextWord(text, i + 1, end)
  }

  /** Where the window at `pos` ends before the word there is completed. */
  function Tentative(text: string, pos: nat): nat {
    if pos + MAX_CHARS <= |text| then pos + MAX_CHARS else |text|
  }

  function Max(a: nat, b: nat): nat {
    if a >= b then a else b
  }

  function EndOf(text: string, pos: nat): (end: nat)
    requires pos < |text|
    ensures pos < end <= |text|
    ensures EndsAt(text, Window(pos, end))
  {
    WordEnd(text, Tentative(text, pos))
  }

  function NextPos(text: string, pos: nat, end: nat): (next: nat)
    requires pos + MAX_CHARS <= end < |text|
    ensures pos + (MAX_CHARS - OVERLAP) <= next <= end
    ensures end - OVERLAP <= next
  {
    NextWord(text, NextSpace(text, end - OVERLAP, end), end)
  }

  /** The windows from `pos` on, those that hold only blanks among them. */
  function Windows(text: string, pos: nat): (ws: seq<Window>)
    requires pos <= |text|
    decreases |text| - pos
  {
    if pos == |text| then []
    else
      var end := EndOf(text, pos);
      [Window(pos, end)]
      + if end == |text| then [] else Windows(text, if Blank(text[pos..end]) then end else NextPos(text, pos, end))
  }

  // ---- What the windows guarantee ----

  /** `i` does not lie inside a word. */
  predicate Boundary(text: string, i: nat) {
    i <= 0 || i >= |text| || IsSpace(text[i - 1]) || IsSpace(text[i])
  }

  lemma NextIsBoundary(text: string, pos: nat, end: nat)
    requires pos + MAX_CHARS <= end < |text| && IsSpace(text[end])
    ensures Boundary(text, NextPos(text, pos, end))
  {
  }

  /** A window of 600 characters, completed to the end of the word it would cut, or up to the end of the text. */
  predicate EndsAt(text: string, w: Window) {
    && w.pos < w.end <= |text|
    && (w.end < |text| ==> w.end >= w.pos + 600 && IsSpace(text[w.end]))
    && forall i :: w.pos + 600 <= i < w.end ==> !IsSpace(text[i])
  }

  /** A word starts at `q`, behind white space that is among the 100 characters before `end`. */
  predicate StartsLate(text: string, end: nat, q: nat) {
    end - 100 < q < end <= |text| && q > 0 && IsSpace(text[q - 1]) && !IsSpace(text[q])
  }

  /** The next window starts at the first such word, or where this one ends if there is none. */
  predicate NextStart(text: string, w: Window, next: nat) {
    && (forall q :: 0 <= q < next ==> !StartsLate(text, w.end, q))
    && (next == w.end || StartsLate(text, w.end, next))
  }

  lemma NextPosIsNextStart(text: string, pos: nat, end: nat)
    requires pos + MAX_CHARS <= end < |text|
    ensures NextStart(text, Window(pos, end), NextPos(text, pos, end))
  {
    var space := NextSpace(text, end - OVERLAP, end);
    var next := NextWord(text, space, end);
    forall q | 0 <= q < next ensures !StartsLate(text, end, q) {
      if end - 100 < q < next {
        assert q - 1 < space ==> !IsSpace(text[q - 1]);
        assert space <= q ==> IsSpace(text[q]);
      }
    }
  }

  /** How one window follows another: behind a blank one without overlap, otherwise as `NextStart` says. */
  predicate Follows(text: string, w: Window, v: Window)
    requires w.pos <= w.end <= |text|
  {
    && v.pos >= w.pos + 500 && w.end - 100 <= v.pos <= w.end
    && if Blank(text[w.pos..w.end]) then v.pos == w.end else NextStart(text, w, v.pos)
  }

  /** Windows start and end between words, leave no gap, and overlap by whole words of the last 100 characters. */
  predicate Steps(text: string, ws: seq<Window>) {
    && (forall k :: 0 <= k < |ws| ==> EndsAt(text, ws[k]) && Boundary(text, ws[k].pos) && Boundary(text, ws[k].end))
    && (forall k :: 0 <= k < |ws| - 1 ==> Follows(text, ws[k], ws[k + 1]))
  }

  lemma {:induction false} WindowsStep(text: string, pos: nat)
    requires pos <= |text| && Boundary(text, pos)
    ensures Steps(text, Windows(text, pos))
    ensures pos < |text| ==> Windows(text, pos) != [] && Windows(text, pos)[0].pos == pos
    ensures pos < |text| ==> Windows(text, pos)[|Windows(text, pos)| - 1].end == |text|
    decreases |text| - pos
  {
    if pos < |text| {
      var end := EndOf(text, pos);
      if end < |text| {
        var next := if Blank(text[pos..end]) then end else NextPos(text, pos, end);
        NextIsBoundary(text, pos, end);
        NextPosIsNextStart(text, pos, end);
        WindowsStep(text, next);
        var ws, more := Windows(text, pos), Windows(text, next);
        assert ws == [Window(pos, end)] + more;
        PrependStep(text, Window(pos, end), more);
      }
    }
  }

  lemma PrependStep(text: string, w: Window, more: seq<Window>)
    requires Steps(text, more) && more != []
    requires EndsAt(text, w) && Boundary(text, w.pos) && Boundary(text, w.end) && Follows(text, w, more[0])
    ensures Steps(text, [w] + more)
  {
    var ws := [w] + more;
    forall k | 0 <= k < |ws| ensures EndsAt(text, ws[k]) && Boundary(text, ws[k].pos) && Boundary(text, ws[k].end) {
      if k > 0 { assert ws[k] == more[k - 1]; }
    }
    forall k | 0 <= k < |ws| - 1 ensures Follows(text, ws[k], ws[k + 1]) {
      if k > 0 {
        assert ws[k] == more[k - 1] && ws[k + 1] == more[k - 1 + 1];
      }
    }
  }

  /** Each window starts at least 500 characters after the one before. */
  lemma {:induction false} StartsSpread(text: string, ws: seq<Window>, k: nat)
    requires Steps(text, ws) && k < |ws|
    ensures ws[k].pos >= ws[0].pos + k * (MAX_CHARS - OVERLAP)
  {
    if k > 0 {
      StartsSpread(text, ws, k - 1);
      assert Follows(text, ws[k - 1], ws[k - 1 + 1]);
    }
  }

  /** At most ceil(L / 500) windows. */
  lemma WindowsAreFew(text: string)
    ensures |Windows(text, 0)| <= (|text| + 499) / 500
  {
    if |text| > 0 {
      WindowsStep(text, 0);
      var ws := Windows(text, 0);
      StartsSpread(text, ws, |ws| - 1);
    }
  }

  /** A maximal run of non-space characters. */
  predicate IsWord(text: string, a: nat, b: nat) {
    && a < b <= |text|
    && (forall k :: a <= k < b ==> !IsSpace(text[k]))
    && (a > 0 ==> IsSpace(text[a - 1]))
    && (b < |text| ==> IsSpace(text[b]))
  }

  lemma {:induction false} SomeWindowHolds(text: string, ws: seq<Window>, a: nat, b: nat) returns (k: nat)
    requires Steps(text, ws) && IsWord(text, a, b)
    requires ws != [] && ws[0].pos <= a && ws[|ws| - 1].end == |text|
    ensures k < |ws| && ws[k].pos <= a && b <= ws[k].end
  {
    if |ws| == 1 || ws[1].pos > a {
      k := 0;
      if |ws| > 1 {
        assert ws[0 + 1].pos <= ws[0].end;
        InsideWord(text, a, b, ws[0].end);
      }
    } else {
      var rest := ws[1..];
      assert Steps(text, rest) by {
        forall j | 0 <= j < |rest| - 1
          ensures rest[j + 1].pos >= rest[j].pos + (MAX_CHARS - OVERLAP)
          ensures rest[j].end - OVERLAP <= rest[j + 1].pos <= rest[j].end
        {
          assert rest[j] == ws[j + 1] && rest[j + 1] == ws[j + 1 + 1];
        }
      }
      var j := SomeWindowHolds(text, rest, a, b);
      k := j + 1;
    }
  }

  lemma InsideWord(text: string, a: nat, b: nat, i: nat)
    requires IsWord(text, a, b) && Boundary(text, i) && a < i
    ensures b <= i
  {
  }

  // ---- Chunks ----

  /** The first character that is not trimmed, or the end. */
  function FirstKept(s: string): (f: nat)
    ensures f <= |s|
    ensures forall k :: 0 <= k < f ==> IsTrimmed(s[k])
    ensures f < |s| ==> !IsTrimmed(s[f])
  {
    if s == [] || !IsTrimmed(s[0]) then 0
    else
      var f := 1 + FirstKept(s[1..]);
      assert forall k :: 0 < k < f ==> s[k] == s[1..][k - 1];
      f
  }

  /** Just behind the last character that is not trimmed. */
  function LastKept(s: string): (l: nat)
    ensures l <= |s|
    ensures forall k :: l <= k < |s| ==> IsTrimmed(s[k])
    ensures l > 0 ==> !IsTrimmed(s[l - 1])
  {
    if s == [] || !IsTrimmed(s[|s| - 1]) then |s| else LastKept(s[..|s| - 1])
  }

  function Trim(s: string): string {
    if FirstKept(s) == |s| then [] else s[FirstKept(s)..LastKept(s)]
  }

  /** The texts of the windows that hold more than blanks. */
  function Pieces(text: string, ws: seq<Window>): seq<string>
    requires forall k :: 0 <= k < |ws| ==> ws[k].pos <= ws[k].end <= |text|
  {
    if ws == [] then []
    else
      var s := text[ws[0].pos..ws[0].end];
      if Blank(s) then Pieces(text, ws[1..]) else [Trim(s)] + Pieces(text, ws[1..])
  }

  /** `part` occurs in `s`. */
  ghost predicate Contains(s: string, part: string) {
    exists i, j :: 0 <= i <= j <= |s| && s[i..j] == part
  }

  /** Trimming cuts no word. */
  lemma TrimKeeps(s: string, i: nat, j: nat)
    requires i < j <= |s| && !IsTrimmed(s[i]) && !IsTrimmed(s[j - 1])
    ensures Contains(Trim(s), s[i..j])
  {
    var f, l := FirstKept(s), LastKept(s);
    assert f <= i && j <= l;
    SliceOfSlice(s, f, l, i, j);
  }

  lemma SliceOfSlice(s: string, f: nat, l: nat, i: nat, j: nat)
    requires f <= i <= j <= l <= |s|
    ensures s[f..l][i - f..j - f] == s[i..j]
  {
    var t := s[f..l];
    forall k | 0 <= k < j - i
      ensures t[i - f..j - f][k] == s[i..j][k]
    {
      assert t[i - f + k] == s[i + k];
    }
  }

  lemma {:induction false} PieceOf(text: string, ws: seq<Window>, k: nat)
    requires forall j :: 0 <= j < |ws| ==> ws[j].pos <= ws[j].end <= |text|
    requires k < |ws| && !Blank(text[ws[k].pos..ws[k].end])
    ensures Trim(text[ws[k].pos..ws[k].end]) in Pieces(text, ws)
  {
    if k > 0 {
      PieceOf(text, ws[1..], k - 1);
    }
  }

  lemma {:induction false} PiecesAreFew(text: string, ws: seq<Window>)
    requires forall j :: 0 <= j < |ws| ==> ws[j].pos <= ws[j].end <= |text|
    ensures |Pieces(text, ws)| <= |ws|
  {
    if ws != [] {
      PiecesAreFew(text, ws[1..]);
    }
  }

  lemma {:induction false} WindowsAreSlices(text: string, pos: nat)
    requires pos <= |text|
    ensures forall j :: 0 <= j < |Windows(text, pos)| ==> Windows(text, pos)[j].pos <= Windows(text, pos)[j].end <= |text|
    decreases |text| - pos
  {
    if pos < |text| {
      var end := EndOf(text, pos);
      if end < |text| {
        WindowsAreSlices(text, if Blank(text[pos..end]) then end else NextPos(text, pos, end));
      }
    }
  }

  /** The chunks of one text, from `pos` on. */
  function ChunksFrom(text: string, pos: nat): seq<string>
    requires pos <= |text|
  {
    WindowsAreSlices(text, pos);
    Pieces(text, Windows(text, pos))
  }

  function ChunkTexts(text: string): seq<string> {
    ChunksFrom(text, 0)
  }

  /** What one turn of the loop does to the chunks still to come. */
  lemma ChunksStep(text: string, pos: nat)
    requires pos < |text|
    ensures var end := EndOf(text, pos);
            ChunksFrom(text, pos)
            == if Blank(text[pos..end]) then ChunksFrom(text, end)
               else [Trim(text[pos..end])] + if end == |text| then [] else ChunksFrom(text, NextPos(text, pos, end))
  {
    var end := EndOf(text, pos);
    WindowsAreSlices(text, pos);
    if end == |text| {
      PiecesCons(text, Window(pos, end), []);
      assert Windows(text, |text|) == [];
    } else {
      var next := if Blank(text[pos..end]) then end else NextPos(text, pos, end);
      WindowsAreSlices(text, next);
      PiecesCons(text, Window(pos, end), Windows(text, next));
    }
  }

  lemma PiecesCons(text: string, w: Window, rest: seq<Window>)
    requires w.pos <= w.end <= |text| && forall k :: 0 <= k < |rest| ==> rest[k].pos <= rest[k].end <= |text|
    ensures var s := text[w.pos..w.end];
            Pieces(text, [w] + rest) == if Blank(s) then Pieces(text, rest) else [Trim(s)] + Pieces(text, rest)
  {
    assert ([w] + rest)[1..] == rest;
  }

  /** Every word stands whole in some chunk. */
  lemma WordsAreWhole(text: string, a: nat, b: nat)
    requires IsWord(text, a, b)
    ensures exists c :: c in ChunkTexts(text) && Contains(c, text[a..b])
  {
    WindowsStep(text, 0);
    var ws := Windows(text, 0);
    var k := SomeWindowHolds(text, ws, a, b);
    WindowKeepsWord(text, ws[k], a, b);
    PieceOf(text, ws, k);
  }

  lemma WindowKeepsWord(text: string, w: Window, a: nat, b: nat)
    requires IsWord(text, a, b) && w.pos <= a && b <= w.end <= |text|
    ensures !Blank(text[w.pos..w.end]) && Contains(Trim(text[w.pos..w.end]), text[a..b])
  {
    var s := text[w.pos..w.end];
    var (i, j) := (a - w.pos, b - w.pos);
    SliceOfSlice(text, w.pos, w.end, a, b);
    assert s[i] == text[a] && s[j - 1] == text[b - 1];
    TrimKeeps(s, i, j);
  }

  /** A text of length L gives at most ceil(L / 500) chunks. */
  lemma ChunksAreFew(text: string)
    ensures |ChunkTexts(text)| <= (|text| + 499) / 500
  {
    WindowsAreFew(text);
    WindowsAreSlices(text, 0);
    PiecesAreFew(text, Windows(text, 0));
  }

  // ---- The chunker ----

  datatype Chunk = Chunk(version: nat, company: nat, index: nat, text: string, sectionId: Option<nat>, heading: Option<string>)

  /** A chunk before it is numbered. */
  datatype Piece = Piece(text: string, sectionId: Option<nat>, heading: Option<string>)

  function Tag(texts: seq<string>, id: Option<nat>, heading: Option<string>): seq<Piece> {
    seq(|texts|, k requires 0 <= k < |texts| => Piece(texts[k], id, heading))
  }

  function HeadingOf(e: Entry): Option<string> {
    if e.heading == "" then None else Some(e.heading)
  }

  function EntryPieces(e: Entry): seq<Piece> {
    Tag(ChunkTexts(e.text), e.dbId, HeadingOf(e))
  }

  /** Section by section in document order; no chunk spans two sections. */
  function AllPieces(entries: seq<Entry>): seq<Piece> {
    if entries == [] then [] else EntryPieces(entries[0]) + AllPieces(entries[1..])
  }

  /** `out` are the pieces, numbered from 0 in order. */
  predicate Numbered(out: seq<Chunk>, pieces: seq<Piece>, version: nat, company: nat) {
    && |out| == |pieces|
    && forall k :: 0 <= k < |out| ==>
         out[k] == Chunk(version, company, k, pieces[k].text, pieces[k].sectionId, pieces[k].heading)
  }

  lemma {:induction false} AllPiecesConcat(xs: seq<Entry>, ys: seq<Entry>)
    ensures AllPieces(xs + ys) == AllPieces(xs) + AllPieces(ys)
  {
    if xs == [] {
      assert xs + ys == ys;
    } else {
      assert (xs + ys)[1..] == xs[1..] + ys;
      AllPiecesConcat(xs[1..], ys);
    }
  }

  /** The words of a section stand whole in chunks that carry its id and its heading. */
  lemma {:induction false} SectionWordsAreWhole(entries: seq<Entry>, i: nat, a: nat, b: nat)
    requires i < |entries| && IsWord(entries[i].text, a, b)
    ensures HasWord(AllPieces(entries), entries[i], entries[i].text[a..b])
  {
    var word := entries[i].text[a..b];
    if i == 0 {
      OwnWord(entries[0], a, b);
    } else {
      SectionWordsAreWhole(entries[1..], i - 1, a, b);
    }
    HasWordBeside(EntryPieces(entries[0]), AllPieces(entries[1..]), entries[i], word);
  }

  ghost predicate HasWord(pieces: seq<Piece>, e: Entry, word: string) {
    exists p :: p in pieces && IsOf(p, e) && Contains(p.text, word)
  }

  lemma HasWordBeside(xs: seq<Piece>, ys: seq<Piece>, e: Entry, word: string)
    requires HasWord(xs, e, word) || HasWord(ys, e, word)
    ensures HasWord(xs + ys, e, word)
  {
    if HasWord(xs, e, word) {
      var p :| p in xs && IsOf(p, e) && Contains(p.text, word);
      assert p in xs + ys;
    } else {
      var p :| p in ys && IsOf(p, e) && Contains(p.text, word);
      assert p in xs + ys;
    }
  }

  lemma OwnWord(e: Entry, a: nat, b: nat)
    requires IsWord(e.text, a, b)
    ensures HasWord(EntryPieces(e), e, e.text[a..b])
  {
    WordsAreWhole(e.text, a, b);
    var texts := ChunkTexts(e.text);
    var k :| 0 <= k < |texts| && Contains(texts[k], e.text[a..b]);
    assert EntryPieces(e)[k] == Piece(texts[k], e.dbId, HeadingOf(e));
    assert EntryPieces(e)[k] in EntryPieces(e);
  }

  /** The piece names the section: its row and its heading, unless that is empty. */
  predicate IsOf(p: Piece, e: Entry) {
    p.sectionId == e.dbId && p.heading == if e.heading == "" then None else Some(e.heading)
  }

  lemma TagStep(t: string, more: seq<string>, id: Option<nat>, heading: Option<string>)
    ensures Tag([t] + more, id, heading) == [Piece(t, id, heading)] + Tag(more, id, heading)
  {
  }

  /** The pieces one turn of the loop adds and those still to come are those that were to come. */
  lemma PiecesStep(text: string, pos: nat, id: Option<nat>, heading: Option<string>)
    requires pos < |text|
    ensures var end := EndOf(text, pos);
            Tag(ChunksFrom(text, pos), id, heading)
            == if Blank(text[pos..end]) then Tag(ChunksFrom(text, end), id, heading)
               else [Piece(Trim(text[pos..end]), id, heading)]
                    + if end == |text| then [] else Tag(ChunksFrom(text, NextPos(text, pos, end)), id, heading)
  {
    var end := EndOf(text, pos);
    ChunksStep(text, pos);
    TagStep(Trim(text[pos..end]), if end == |text| then [] else ChunksFrom(text, NextPos(text, pos, end)), id, heading);
  }

  /** One turn of the loop: what was got and what is still to come make up the goal. */
  lemma Turn(text: string, pos: nat, id: Option<nat>, heading: Option<string>, got: seq<Piece>, goal: seq<Piece>)
    requires pos < |text| && got + Tag(ChunksFrom(text, pos), id, heading) == goal
    ensures var end := EndOf(text, pos);
            var got' := got + [Piece(Trim(text[pos..end]), id, heading)];
            && (Blank(text[pos..end]) ==> got + Tag(ChunksFrom(text, end), id, heading) == goal)
            && (!Blank(text[pos..end]) && end == |text| ==> got' == goal)
            && (!Blank(text[pos..end]) && end < |text| ==> got' + Tag(ChunksFrom(text, NextPos(text, pos, end)), id, heading) == goal)
  {
    PiecesStep(text, pos, id, heading);
  }

  lemma NumberedMore(out: seq<Chunk>, pieces: seq<Piece>, version: nat, company: nat, p: Piece)
    requires Numbered(out, pieces, version, company)
    ensures Numbered(out + [Chunk(version, company, |out|, p.text, p.sectionId, p.heading)], pieces + [p], version, company)
  {
  }

  /** The end of the word at `end`. */
  method ExtendWord(text: string, from: nat) returns (end: nat)
    requires from <= |text|
    ensures end == WordEnd(text, from)
  {
    end := from;
    while end < |text| && !IsSpace(text[end])
      invariant from <= end <= |text| && WordEnd(text, end) == WordEnd(text, from)
    {
      end := end + 1;
    }
  }

  /** Step back by the overlap, then forward to the start of a word. */
  method StepBack(text: string, pos: nat, end: nat) returns (next: nat)
    requires pos + MAX_CHARS <= end < |text|
    ensures next == NextPos(text, pos, end)
  {
    next := Max(pos + 1, end - OVERLAP);
    while next < end && !IsSpace(text[next])
      invariant end - OVERLAP <= next <= end
      invariant NextSpace(text, next, end) == NextSpace(text, end - OVERLAP, end)
    {
      next := next + 1;
    }
    ghost var space := next;
    while next < end && IsSpace(text[next])
      invariant space <= next <= end
      invariant NextWord(text, next, end) == NextWord(text, space, end)
    {
      next := next + 1;
    }
  }

  /** The window at `pos`, and its text unless it is all blank. */
  method CutWindow(text: string, pos: nat) returns (end: nat, kept: Option<string>)
    requires pos < |text|
    ensures end == EndOf(text, pos)
    ensures kept == if Blank(text[pos..end]) then None else Some(Trim(text[pos..end]))
  {
    end := ExtendWord(text, Tentative(text, pos));
    var s := text[pos..end];
    kept := if FirstKept(s) == |s| then None else Some(Trim(s));
  }

  method SplitText(
    text: string, version: nat, company: nat, chunkIdx: nat, id: Option<nat>, heading: Option<string>, out: seq<Chunk>, ghost pieces: seq<Piece>)
    returns (idx: nat, out': seq<Chunk>)
    requires chunkIdx == |out| && Numbered(out, pieces, version, company)
    ensures idx == |out'| && Numbered(out', pieces + Tag(ChunkTexts(text), id, heading), version, company)
  {
    idx, out' := chunkIdx, out;
    ghost var got, goal := pieces, pieces + Tag(ChunkTexts(text), id, heading);
    var pos := 0;
    while pos < |text|
      invariant pos <= |text| && idx == |out'|
      invariant Numbered(out', got, version, company)
      invariant got + Tag(ChunksFrom(text, pos), id, heading) == goal
      decreases |text| - pos
    {
      Turn(text, pos, id, heading, got, goal);
      var end, kept := CutWindow(text, pos);
      if kept.None? {
        pos := end;
        continue;
      }
      var t := kept.value;
      NumberedMore(out', got, version, company, Piece(t, id, heading));
      out' := out' + [Chunk(version, company, idx, t, id, heading)];
      idx := idx + 1;
      got := got + [Piece(t, id, heading)];
      if end >= |text| {
        return;
      }
      var next := StepBack(text, pos, end);
      pos := if next > pos then next else end;
    }
    assert ChunksFrom(text, |text|) == [];
    assert got + Tag([], id, heading) == got;
  }

  method ChunkSection(section: Section, version: nat, company: nat, chunkIdx: nat, out: seq<Chunk>, ghost pieces: seq<Piece>)
    returns (idx: nat, out': seq<Chunk>)
    requires chunkIdx == |out| && Numbered(out, pieces, version, company)
    ensures idx == |out'| && Numbered(out', pieces + AllPieces(Flatten([section])), version, company)
    decreases section
  {
    idx, out' := chunkIdx, out;
    ghost var own := EntryPieces(section.entry);
    if section.entry.text != "" {
      idx, out' := SplitText(section.entry.text, version, company, idx, section.entry.dbId, HeadingOf(section.entry), out', pieces);
    } else {
      NoText(section.entry, pieces);
    }
    idx, out' := ChunkSections(section.children, version, company, idx, out', pieces + own);
    OwnThenChildren(section, pieces);
  }

  lemma NoText(e: Entry, pieces: seq<Piece>)
    requires e.text == ""
    ensures pieces + EntryPieces(e) == pieces
  {
    assert ChunkTexts(e.text) == [];
  }

  lemma OwnThenChildren(section: Section, pieces: seq<Piece>)
    ensures pieces + EntryPieces(section.entry) + AllPieces(Flatten(section.children)) == pieces + AllPieces(Flatten([section]))
  {
    FlattenOne(section);
  }

  method ChunkSections(sections: seq<Section>, version: nat, company: nat, chunkIdx: nat, out: seq<Chunk>, ghost pieces: seq<Piece>)
    returns (idx: nat, out': seq<Chunk>)
    requires chunkIdx == |out| && Numbered(out, pieces, version, company)
    ensures idx == |out'| && Numbered(out', pieces + AllPieces(Flatten(sections)), version, company)
    decreases sections
  {
    idx, out' := chunkIdx, out;
    ghost var got := pieces;
    assert pieces + [] == pieces;
    for k := 0 to |sections|
      invariant idx == |out'| && Numbered(out', got, version, company)
      invariant got == pieces + AllPieces(Flatten(sections[..k]))
    {
      idx, out' := ChunkSection(sections[k], version, company, idx, out', got);
      OneMoreSection(sections, k, pieces);
      got := got + AllPieces(Flatten([sections[k]]));
    }
    assert sections[..|sections|] == sections;
  }

  lemma OneMoreSection(sections: seq<Section>, k: nat, pieces: seq<Piece>)
    requires k < |sections|
    ensures pieces + AllPieces(Flatten(sections[..k + 1]))
            == pieces + AllPieces(Flatten(sections[..k])) + AllPieces(Flatten([sections[k]]))
  {
    assert sections[..k + 1] == sections[..k] + [sections[k]];
    FlattenConcat(sections[..k], [sections[k]]);
    AllPiecesConcat(Flatten(sections[..k]), Flatten([sections[k]]));
  }

  lemma FlattenOne(section: Section)
    ensures Flatten([section]) == [section.entry] + Flatten(section.children)
    ensures AllPieces(Flatten([section])) == EntryPieces(section.entry) + AllPieces(Flatten(section.children))
  {
    assert [section][1..] == [];
    var flat := [section.entry] + Flatten(section.children);
    assert Flatten([section]) == flat;
    assert flat[1..] == Flatten(section.children);
  }

  /** Chunks are numbered 0, 1, ... over the whole document, each with its own section's id and heading. */
  method ChunkDocument(sections: seq<Section>, fullText: string, version: nat, company: nat) returns (out: seq<Chunk>)
    ensures sections == [] ==> Numbered(out, Tag(ChunkTexts(fullText), None, None), version, company)
    ensures sections != [] ==> Numbered(out, AllPieces(Flatten(sections)), version, company)
  {
    out := [];
    var idx := 0;
    if sections == [] {
      idx, out := SplitText(fullText, version, company, idx, None, None, out, []);
      assert [] + Tag(ChunkTexts(fullText), None, None) == Tag(ChunkTexts(fullText), None, None);
      return;
    }
    idx, out := ChunkSections(sections, version, company, idx, out, []);
    assert [] + AllPieces(Flatten(sections)) == AllPieces(Flatten(sections));
  }
}
