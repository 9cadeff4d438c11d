/**
  Text as the outline splitter compares it: runs of white space become one
  blank, letters lower case, and a position map leads back to the original.
*/
module TocText {
  import opened Chunker

  /** tolower in the C locale. */
  function ToLower(c: char): char {
    if 'A' <= c <= 'Z' then c + ('a' - 'A') else c
  }

  /** What must not get lost: the non-blank characters, up to case. */
  function Ink(s: string): string {
    if s == [] then []
    else
      var c := s[|s| - 1];
      Ink(s[..|s| - 1]) + if IsSpace(c) then [] else [ToLower(c)]
  }

  /** `ws`: white space was seen since the last character that was kept. */
  predicate PendingSpace(s: string) {
    s != [] && IsSpace(s[|s| - 1])
  }

  function NormaliseForCmp(s: string): string {
    if s == [] then []
    else
      var init, c := s[..|s| - 1], s[|s| - 1];
      if IsSpace(c) then NormaliseForCmp(init)
      else NormaliseForCmp(init) + (if PendingSpace(init) then [' '] else []) + [ToLower(c)]
  }

  /** For each character of the normalised text, where it comes from; a blank comes from the character behind it. */
  function NormToOrig(s: string): seq<nat> {
    if s == [] then []
    else
      var init, c := s[..|s| - 1], s[|s| - 1];
      if IsSpace(c) then NormToOrig(init)
      else NormToOrig(init) + (if PendingSpace(init) then [|init|] else []) + [|init|]
  }

  // ---- The methods that compute them ----

  method Normalise(s: string) returns (out: string)
    ensures out == NormaliseForCmp(s)
  {
    out := [];
    var ws := false;
    for i := 0 to |s|
      invariant out == NormaliseForCmp(s[..i]) && ws == PendingSpace(s[..i])
    {
      assert s[..i + 1][..i] == s[..i];
      if IsSpace(s[i]) {
        ws := true;
      } else {
        if ws {
          out := out + [' '];
          ws := false;
        }
        out := out + [ToLower(s[i])];
      }
    }
    assert s[..|s|] == s;
  }

  /** The last push is for trailing white space, and is never reached. */
  method PositionMap(s: string, norm: string) returns (positions: seq<nat>)
    requires norm == NormaliseForCmp(s)
    ensures positions == NormToOrig(s)
  {
    positions := [];
    var ws := false;
    var oi := 0;
    while oi < |s|
      invariant oi <= |s|
      invariant positions == NormToOrig(s[..oi]) && ws == PendingSpace(s[..oi])
    {
      assert s[..oi + 1][..oi] == s[..oi];
      if IsSpace(s[oi]) {
        ws := true;
      } else {
        if ws {
          positions := positions + [oi];
          ws := false;
        }
        positions := positions + [oi];
      }
      oi := oi + 1;
    }
    assert s[..|s|] == s;
    SameLength(s);
    if ws && |positions| < |norm| {
      assert false;
    }
  }

  // ---- What they keep ----

  lemma {:induction false} SameLength(s: string)
    ensures |NormToOrig(s)| == |NormaliseForCmp(s)|
  {
    if s != [] {
      SameLength(s[..|s| - 1]);
    }
  }

  /** orig_pos_of: where a place in the normalised text lies in the original. */
  function OrigPos(s: string, ni: nat): (p: nat) {
    if ni < |NormToOrig(s)| then NormToOrig(s)[ni] else |s|
  }

  lemma {:induction false} PositionsAreOrdered(s: string)
    ensures forall i :: 0 <= i < |NormToOrig(s)| ==> NormToOrig(s)[i] < |s|
    ensures forall i, j :: 0 <= i <= j < |NormToOrig(s)| ==> NormToOrig(s)[i] <= NormToOrig(s)[j]
  {
    if s != [] {
      PositionsAreOrdered(s[..|s| - 1]);
    }
  }

  /** The position map never goes back. */
  lemma OrigPosGrows(s: string, i: nat, j: nat)
    requires i <= j
    ensures OrigPos(s, i) <= OrigPos(s, j) <= |s|
  {
    PositionsAreOrdered(s);
  }

  lemma {:induction false} InkConcat(a: string, b: string)
    ensures Ink(a + b) == Ink(a) + Ink(b)
  {
    if b == [] {
      assert a + b == a;
    } else {
      assert (a + b)[..|a + b| - 1] == a + b[..|b| - 1];
      InkConcat(a, b[..|b| - 1]);
    }
  }

  lemma InkSplits(s: string, i: nat, j: nat, k: nat)
    requires i <= j <= k <= |s|
    ensures Ink(s[i..k]) == Ink(s[i..j]) + Ink(s[j..k])
  {
    assert s[i..k] == s[i..j] + s[j..k];
    InkConcat(s[i..j], s[j..k]);
  }

  lemma InkOfOne(c: char)
    ensures Ink([c]) == if IsSpace(c) then [] else [ToLower(c)]
  {
    assert [c][..0] == [];
  }

  lemma LowerIsStable(c: char)
    ensures ToLower(ToLower(c)) == ToLower(c) && IsSpace(ToLower(c)) == IsSpace(c)
  {
  }

  /** Up to a place in the normalised text, and up to where it lies in the original, the ink is the same. */
  lemma {:induction false} PrefixInk(s: string, ni: nat)
    requires ni <= |NormaliseForCmp(s)|
    ensures OrigPos(s, ni) <= |s|
    ensures Ink(s[..OrigPos(s, ni)]) == Ink(NormaliseForCmp(s)[..ni])
  {
    SameLength(s);
    PositionsAreOrdered(s);
    if s != [] {
      var init, c := s[..|s| - 1], s[|s| - 1];
      var n, n' := NormaliseForCmp(init), NormaliseForCmp(s);
      SameLength(init);
      if ni < |n| {
        PrefixInk(init, ni);
        PrefixBefore(s, ni);
      } else {
        PrefixInk(init, |n|);
        assert n[..|n|] == n;
        assert OrigPos(init, |n|) == |init| && init[..|init|] == init;
        PrefixAtEnd(s, ni);
      }
    }
  }

  lemma PrefixBefore(s: string, ni: nat)
    requires s != [] && ni < |NormaliseForCmp(s[..|s| - 1])|
    ensures OrigPos(s, ni) == OrigPos(s[..|s| - 1], ni) < |s|
    ensures s[..OrigPos(s, ni)] == s[..|s| - 1][..OrigPos(s, ni)]
    ensures ni <= |NormaliseForCmp(s)| && NormaliseForCmp(s)[..ni] == NormaliseForCmp(s[..|s| - 1])[..ni]
  {
    var init := s[..|s| - 1];
    SameLength(init);
    SameLength(s);
    PositionsAreOrdered(init);
  }

  lemma PrefixAtEnd(s: string, ni: nat)
    requires s != [] && |NormaliseForCmp(s[..|s| - 1])| <= ni <= |NormaliseForCmp(s)|
    requires Ink(s[..|s| - 1]) == Ink(NormaliseForCmp(s[..|s| - 1]))
    ensures OrigPos(s, ni) <= |s|
    ensures Ink(s[..OrigPos(s, ni)]) == Ink(NormaliseForCmp(s)[..ni])
  {
    var init, c := s[..|s| - 1], s[|s| - 1];
    var n, n' := NormaliseForCmp(init), NormaliseForCmp(s);
    SameLength(init);
    SameLength(s);
    if ni == |n'| {
      assert n'[..ni] == n' && s[..|s|] == s;
      WholeInk(s);
    } else if ni == |n| {
      assert n'[..ni] == n;
      assert OrigPos(s, ni) == |init|;
    } else {
      assert ni == |n| + 1 && n'[..ni] == n + [' '];
      InkConcat(n, [' ']);
      InkOfOne(' ');
      assert OrigPos(s, ni) == |init|;
    }
  }

  lemma WholeInk(s: string)
    requires s != [] && Ink(s[..|s| - 1]) == Ink(NormaliseForCmp(s[..|s| - 1]))
    ensures Ink(s) == Ink(NormaliseForCmp(s))
  {
    var init, c := s[..|s| - 1], s[|s| - 1];
    var n := NormaliseForCmp(init);
    if !IsSpace(c) {
      var blank := if PendingSpace(init) then [' '] else [];
      LowerIsStable(c);
      InkConcat(n + blank, [ToLower(c)]);
      InkConcat(n, blank);
      InkOfOne(' ');
      InkOfOne(ToLower(c));
    }
  }

  lemma {:induction false} NormaliseKeepsInk(s: string)
    ensures Ink(NormaliseForCmp(s)) == Ink(s)
  {
    if s != [] {
      NormaliseKeepsInk(s[..|s| - 1]);
      WholeInk(s);
    }
  }

  /** A stretch of the normalised text has the ink of the stretch it stands for. */
  lemma SliceInk(s: string, i: nat, j: nat)
    requires i <= j <= |NormaliseForCmp(s)|
    ensures OrigPos(s, i) <= OrigPos(s, j) <= |s|
    ensures Ink(s[OrigPos(s, i)..OrigPos(s, j)]) == Ink(NormaliseForCmp(s)[i..j])
  {
    var n, p, q := NormaliseForCmp(s), OrigPos(s, i), OrigPos(s, j);
    OrigPosGrows(s, i, j);
    PrefixInk(s, i);
    PrefixInk(s, j);
    assert s[..q] == s[..p] + s[p..q] && n[..j] == n[..i] + n[i..j];
    InkConcat(s[..p], s[p..q]);
    InkConcat(n[..i], n[i..j]);
    Cancel(Ink(s[..p]), Ink(s[p..q]), Ink(n[i..j]));
  }

  lemma Cancel(a: string, x: string, y: string)
    requires a + x == a + y
    ensures x == y
  {
    assert x == (a + x)[|a|..] && y == (a + y)[|a|..];
  }
}
