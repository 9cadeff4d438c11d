/** Whole texts: conversion from UTF-16, decoding, and removal of tag characters. */
module Utf8Text {
  import opened Wrappers
  import opened Utf

  predicate AllScalar(cps: seq<CodePoint>) {
    forall k :: 0 <= k < |cps| ==> IsScalar(cps[k])
  }

  function EncodeAll(cps: seq<CodePoint>): seq<Byte>
    requires AllScalar(cps)
  {
    if cps == [] then [] else Encode(cps[0]) + EncodeAll(cps[1..])
  }

  /** The code points of a text; None when it is not UTF-8. */
  function DecodeAll(s: seq<Byte>): Option<seq<CodePoint>>
    decreases |s|
  {
    if s == [] then Some([])
    else
      match DecodeAt(s)
      case None => None
      case Some(d) =>
        match DecodeAll(s[d.width..])
        case None => None
        case Some(more) => Some([d.codepoint] + more)
  }

  /** Every sequence of code points can be read back. */
  lemma {:induction false} DecodeEncodeAll(cps: seq<CodePoint>)
    requires AllScalar(cps)
    ensures DecodeAll(EncodeAll(cps)) == Some(cps)
  {
    if cps != [] {
      var rest := EncodeAll(cps[1..]);
      DecodeEncode(cps[0], rest);
      DecodeEncodeAll(cps[1..]);
      assert (Encode(cps[0]) + rest)[|Encode(cps[0])|..] == rest;
      assert [cps[0]] + cps[1..] == cps;
    }
  }

  /** A text that decodes is the one encoding of its code points. */
  lemma {:induction false} EncodeDecodeAll(s: seq<Byte>)
    requires DecodeAll(s).Some?
    ensures AllScalar(DecodeAll(s).value) && EncodeAll(DecodeAll(s).value) == s
    decreases |s|
  {
    if s != [] {
      var d := DecodeAt(s).value;
      EncodeDecode(s);
      EncodeDecodeAll(s[d.width..]);
      Reassemble(s, d.codepoint, d.width, DecodeAll(s[d.width..]).value);
    }
  }

  lemma Reassemble(s: seq<Byte>, cp: CodePoint, w: nat, more: seq<CodePoint>)
    requires w <= |s| && IsScalar(cp) && AllScalar(more) && Encode(cp) == s[..w] && EncodeAll(more) == s[w..]
    ensures AllScalar([cp] + more) && EncodeAll([cp] + more) == s
  {
    EncodeCons(cp, more);
    assert s[..w] + s[w..] == s;
  }

  lemma EncodeCons(cp: CodePoint, more: seq<CodePoint>)
    requires IsScalar(cp) && AllScalar(more)
    ensures AllScalar([cp] + more) && EncodeAll([cp] + more) == Encode(cp) + EncodeAll(more)
  {
    assert ([cp] + more)[1..] == more;
  }

  // ---- From UTF-16 ----

  lemma PairIsScalar(hi: Unit, lo: Unit)
    requires IsHigh(hi) && IsLow(lo)
    ensures 0x10000 <= PairValue(hi, lo) <= 0x10FFFF
  {
  }

  lemma UnitIsScalar(u: Unit)
    requires !IsHigh(u) && !IsLow(u)
    ensures IsScalar(u as bv32) && u as bv32 < 0x10000
  {
  }

  lemma LoneIsScalar(u: Unit)
    ensures IsScalar(Lone(u))
  {
    if !IsHigh(u) && !IsLow(u) {
      UnitIsScalar(u);
    }
  }

  lemma {:induction false} CodePointsAreScalar(u: seq<Unit>)
    ensures AllScalar(CodePoints(u))
  {
    if u != [] {
      if IsHigh(u[0]) && |u| > 1 && IsLow(u[1]) {
        PairIsScalar(u[0], u[1]);
        CodePointsAreScalar(u[2..]);
      } else {
        LoneIsScalar(u[0]);
        CodePointsAreScalar(u[1..]);
      }
    }
  }

  function EncodeUnits(u: seq<Unit>): seq<Byte> {
    CodePointsAreScalar(u);
    EncodeAll(CodePoints(u))
  }

  /** How many units the code point at `i` takes, and which one it is. */
  function UnitsAt(u: seq<Unit>, i: nat): (CodePoint, nat)
    requires i < |u|
  {
    if IsHigh(u[i]) && i + 1 < |u| && IsLow(u[i + 1]) then (PairValue(u[i], u[i + 1]), 2)
    else (Lone(u[i]), 1)
  }

  lemma UnitsStep(u: seq<Unit>, i: nat)
    requires i < |u|
    ensures var (cp, n) := UnitsAt(u, i);
            i + n <= |u| && IsScalar(cp) && EncodeUnits(u[i..]) == Encode(cp) + EncodeUnits(u[i + n..])
  {
    var (cp, n) := UnitsAt(u, i);
    CodePointsStep(u, i);
    CodePointsAreScalar(u[i + n..]);
    EncodeFirst(cp, CodePoints(u[i + n..]), CodePoints(u[i..]));
  }

  lemma CodePointsStep(u: seq<Unit>, i: nat)
    requires i < |u|
    ensures var (cp, n) := UnitsAt(u, i);
            i + n <= |u| && IsScalar(cp) && CodePoints(u[i..]) == [cp] + CodePoints(u[i + n..])
  {
    if IsHigh(u[i]) && i + 1 < |u| && IsLow(u[i + 1]) {
      PairIsScalar(u[i], u[i + 1]);
      PairInFront(u[i..], u[i + 2..]);
    } else {
      LoneIsScalar(u[i]);
      LoneInFront(u[i..], u[i + 1..]);
    }
  }

  lemma PairInFront(s: seq<Unit>, rest: seq<Unit>)
    requires |s| > 1 && IsHigh(s[0]) && IsLow(s[1]) && rest == s[2..]
    ensures CodePoints(s) == [PairValue(s[0], s[1])] + CodePoints(rest)
  {
  }

  lemma LoneInFront(s: seq<Unit>, rest: seq<Unit>)
    requires s != [] && !(IsHigh(s[0]) && |s| > 1 && IsLow(s[1])) && rest == s[1..]
    ensures CodePoints(s) == [Lone(s[0])] + CodePoints(rest)
  {
  }

  lemma EncodeFirst(cp: CodePoint, more: seq<CodePoint>, all: seq<CodePoint>)
    requires IsScalar(cp) && AllScalar(more) && all == [cp] + more
    ensures AllScalar(all) && EncodeAll(all) == Encode(cp) + EncodeAll(more)
  {
    EncodeCons(cp, more);
  }

  lemma UnitsDecode(u: seq<Unit>)
    ensures DecodeAll(EncodeUnits(u)) == Some(CodePoints(u))
  {
    CodePointsAreScalar(u);
    DecodeEncodeAll(CodePoints(u));
  }

  lemma UnitsProgress(u: seq<Unit>, i: nat, out: seq<Byte>, goal: seq<Byte>)
    requires i < |u| && out + EncodeUnits(u[i..]) == goal
    ensures var (cp, n) := UnitsAt(u, i);
            i + n <= |u| && IsScalar(cp) && (out + Encode(cp)) + EncodeUnits(u[i + n..]) == goal
  {
    UnitsStep(u, i);
    var (cp, n) := UnitsAt(u, i);
    Regroup(out, Encode(cp), EncodeUnits(u[i + n..]));
  }

  lemma Regroup(out: seq<Byte>, a: seq<Byte>, b: seq<Byte>)
    ensures out + (a + b) == (out + a) + b
  {
  }

  /** Every sequence of units becomes UTF-8 that decodes to its code points. */
  method UstringToUtf8(u: seq<Unit>) returns (out: seq<Byte>)
    ensures DecodeAll(out) == Some(CodePoints(u))
  {
    out := [];
    var i := 0;
    assert u[0..] == u;
    while i < |u|
      invariant i <= |u| && out + EncodeUnits(u[i..]) == EncodeUnits(u)
    {
      UnitsProgress(u, i, out, EncodeUnits(u));
      var bytes, width := EncodeAt(u, i);
      out := out + bytes;
      i := i + width;
    }
    assert u[|u|..] == [] && out + [] == out;
    UnitsDecode(u);
  }

  /** The bytes for the units at `i`. */
  method EncodeAt(u: seq<Unit>, i: nat) returns (out: seq<Byte>, width: nat)
    requires i < |u| && IsScalar(UnitsAt(u, i).0)
    ensures out == Encode(UnitsAt(u, i).0) && width == UnitsAt(u, i).1
  {
    var cu := u[i];
    if IsHigh(cu) && i + 1 < |u| && IsLow(u[i + 1]) {
      out := EncodePair(cu, u[i + 1]);
      return out, 2;
    }
    out := EncodeUnit(cu);
    width := 1;
  }

  method EncodePair(hi: Unit, lo: Unit) returns (out: seq<Byte>)
    requires IsHigh(hi) && IsLow(lo)
    ensures IsScalar(PairValue(hi, lo)) && out == Encode(PairValue(hi, lo))
  {
    PairIsScalar(hi, lo);
    out := EncodeSupplementary(PairValue(hi, lo));
  }

  method EncodeSupplementary(cp: CodePoint) returns (out: seq<Byte>)
    requires 0x10000 <= cp <= 0x10FFFF
    ensures out == Encode(cp)
  {
    out := [Lead4(cp), Tail(cp, 12), Tail(cp, 6), Tail(cp, 0)];
  }

  /** One unit that is not the start of a pair. */
  method EncodeUnit(cu: Unit) returns (out: seq<Byte>)
    ensures IsHigh(cu) || IsLow(cu) ==> out == Encode(REPLACEMENT)
    ensures !IsHigh(cu) && !IsLow(cu) ==> IsScalar(cu as bv32) && out == Encode(cu as bv32)
  {
    if IsHigh(cu) || IsLow(cu) {
      return [0xEF, 0xBF, 0xBD];
    }
    UnitIsScalar(cu);
    var cp := cu as bv32;
    if cp < 0x80 {
      out := [Encode1(cp)];
    } else if cp < 0x800 {
      out := [Lead2(cp), Tail(cp, 0)];
    } else {
      out := [Lead3(cp), Tail(cp, 6), Tail(cp, 0)];
    }
  }

  // ---- Tag characters ----

  predicate IsTagChar(cp: CodePoint) {
    0xE0000 <= cp <= 0xE007F
  }

  function WithoutTags(cps: seq<CodePoint>): seq<CodePoint> {
    if cps == [] then []
    else if IsTagChar(cps[0]) then WithoutTags(cps[1..])
    else [cps[0]] + WithoutTags(cps[1..])
  }

  lemma {:induction false} WithoutTagsIsScalar(cps: seq<CodePoint>)
    requires AllScalar(cps)
    ensures AllScalar(WithoutTags(cps))
  {
    if cps != [] {
      WithoutTagsIsScalar(cps[1..]);
    }
  }

  /** What is left of `s` to strip, or None. */
  function Stripped(s: seq<Byte>): Option<seq<Byte>> {
    match DecodeAll(s)
    case None => None
    case Some(cps) =>
      EncodeDecodeAll(s);
      WithoutTagsIsScalar(cps);
      Some(EncodeAll(WithoutTags(cps)))
  }

  lemma StrippedStep(s: seq<Byte>)
    requires s != []
    ensures Stripped(s) ==
            match DecodeAt(s)
            case None => None
            case Some(d) =>
              match Stripped(s[d.width..])
              case None => None
              case Some(more) => Some((if IsTagChar(d.codepoint) then [] else s[..d.width]) + more)
  {
    if DecodeAll(s).Some? {
      var d := DecodeAt(s).value;
      var rest := s[d.width..];
      EncodeDecode(s);
      EncodeDecodeAll(s);
      EncodeDecodeAll(rest);
      var cps, more := DecodeAll(s).value, DecodeAll(rest).value;
      assert cps[1..] == more;
      WithoutTagsIsScalar(more);
      if !IsTagChar(d.codepoint) {
        assert ([d.codepoint] + WithoutTags(more))[1..] == WithoutTags(more);
      } else {
        assert [] + EncodeAll(WithoutTags(more)) == EncodeAll(WithoutTags(more));
      }
    }
  }

  lemma StrippedDecodes(s: seq<Byte>)
    ensures Stripped(s).None? <==> DecodeAll(s).None?
    ensures Stripped(s).Some? ==> DecodeAll(Stripped(s).value) == Some(WithoutTags(DecodeAll(s).value))
  {
    if DecodeAll(s).Some? {
      EncodeDecodeAll(s);
      WithoutTagsIsScalar(DecodeAll(s).value);
      DecodeEncodeAll(WithoutTags(DecodeAll(s).value));
    }
  }

  /** Stripping the whole is `out` followed by stripping what is left. */
  ghost predicate Progress(input: seq<Byte>, out: seq<Byte>, left: seq<Byte>) {
    match Stripped(left)
    case None => Stripped(input).None?
    case Some(more) => Stripped(input) == Some(out + more)
  }

  lemma ProgressStep(input: seq<Byte>, out: seq<Byte>, left: seq<Byte>)
    requires left != [] && Progress(input, out, left)
    ensures DecodeAt(left).None? ==> Stripped(input).None?
    ensures DecodeAt(left).Some? ==>
              var d := DecodeAt(left).value;
              Progress(input, if IsTagChar(d.codepoint) then out else out + left[..d.width], left[d.width..])
  {
    StrippedStep(left);
    if DecodeAt(left).Some? {
      var d := DecodeAt(left).value;
      var more := Stripped(left[d.width..]);
      if more.Some? {
        Regroup(out, if IsTagChar(d.codepoint) then [] else left[..d.width], more.value);
        assert out + [] == out;
      }
    }
  }

  lemma StripStep(input: seq<Byte>, out: seq<Byte>, offset: nat, cp: CodePoint, w: nat, out': seq<Byte>, next: nat)
    requires offset < |input| && Progress(input, out, input[offset..]) && DecodeAt(input[offset..]) == Some(Decoded(cp, w))
    requires next == offset + w <= |input| && out' == if IsTagChar(cp) then out else out + input[offset..next]
    ensures Progress(input, out', input[next..])
  {
    ProgressStep(input, out, input[offset..]);
    RestOfRest(input, offset, w);
  }

  lemma StripStops(input: seq<Byte>, out: seq<Byte>, left: seq<Byte>)
    requires left != [] && Progress(input, out, left) && DecodeAt(left).None?
    ensures Stripped(input).None?
  {
    ProgressStep(input, out, left);
  }

  lemma RestOfRest(s: seq<Byte>, i: nat, w: nat)
    requires i + w <= |s|
    ensures s[i..][w..] == s[i + w..] && s[i..][..w] == s[i..i + w]
  {
  }

  lemma StripEnds(input: seq<Byte>, out: seq<Byte>)
    requires Progress(input, out, [])
    ensures DecodeAll(input).Some? && DecodeAll(out) == Some(WithoutTags(DecodeAll(input).value))
  {
    assert WithoutTags([]) == [];
    assert Stripped([]) == Some([]);
    assert out + [] == out;
    StrippedDecodes(input);
  }

  lemma StripFails(input: seq<Byte>)
    requires Stripped(input).None?
    ensures DecodeAll(input).None?
  {
    StrippedDecodes(input);
  }

  /** Fails exactly on texts that are not UTF-8; otherwise exactly the tag characters are gone. */
  method StripUnicodeTags(input: seq<Byte>) returns (output: Option<seq<Byte>>)
    ensures output.None? <==> DecodeAll(input).None?
    ensures output.Some? ==> DecodeAll(output.value) == Some(WithoutTags(DecodeAll(input).value))
  {
    var out: seq<Byte> := [];
    var offset := 0;
    assert input[0..] == input;
    ProgressStarts(input);
    while offset < |input|
      invariant offset <= |input| && Progress(input, out, input[offset..])
    {
      var ok;
      ok, out, offset := CopyOne(input, out, offset);
      if !ok {
        StripFails(input);
        return None;
      }
    }
    assert input[|input|..] == [];
    StripEnds(input, out);
    output := Some(out);
  }

  lemma ProgressStarts(input: seq<Byte>)
    ensures Progress(input, [], input)
  {
    if Stripped(input).Some? {
      assert [] + Stripped(input).value == Stripped(input).value;
    }
  }

  /** Decode the code point at `offset` and copy its bytes, unless it is a tag character. */
  method CopyOne(input: seq<Byte>, out: seq<Byte>, offset: nat) returns (ok: bool, out': seq<Byte>, next: nat)
    requires offset < |input| && Progress(input, out, input[offset..])
    ensures if ok then offset < next <= |input| && Progress(input, out', input[next..]) else Stripped(input).None?
  {
    var codepoint, width;
    ok, codepoint, width := DecodeUtf8(input, offset);
    if !ok {
      StripStops(input, out, input[offset..]);
      return false, out, offset;
    }
    out' := if IsTagChar(codepoint) then out else out + input[offset..offset + width];
    next := offset + width;
    StripStep(input, out, offset, codepoint, width, out', next);
  }
}
