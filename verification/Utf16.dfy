/** The writer of UTF-16 whose text the converter reads (section 2.1 of RFC 2781). */
module Utf16 {
  import opened Wrappers
  import opened Utf
  import opened Utf8Text

  /** The high surrogate of a code point beyond the first plane. */
  function HighOf(cp: CodePoint): Unit
    requires 0x10000 <= cp <= 0x10FFFF
  {
    0xD800 | (((cp - 0x10000) >> 10) as bv16)
  }

  function LowOf(cp: CodePoint): Unit
    requires 0x10000 <= cp <= 0x10FFFF
  {
    0xDC00 | (((cp - 0x10000) & 0x3FF) as bv16)
  }

  function UnitsOf(cp: CodePoint): seq<Unit>
    requires IsScalar(cp)
  {
    if cp < 0x10000 then [cp as bv16] else [HighOf(cp), LowOf(cp)]
  }

  function Write(cps: seq<CodePoint>): seq<Unit>
    requires AllScalar(cps)
  {
    if cps == [] then [] else UnitsOf(cps[0]) + Write(cps[1..])
  }

  lemma SplitTen(t: CodePoint)
    requires t < 0x100000
    ensures t >> 10 <= 0x3FF && t & 0x3FF <= 0x3FF && ((t >> 10) << 10) + (t & 0x3FF) == t
  {
  }

  lemma HighReads(h: CodePoint)
    requires h <= 0x3FF
    ensures 0xD800 <= 0xD800 | (h as bv16) <= 0xDBFF && (0xD800 | (h as bv16)) as bv32 - 0xD800 == h
  {
    NarrowHigh(h as bv16);
    WidenBack(h);
  }

  lemma NarrowHigh(h: Unit)
    requires h <= 0x3FF
    ensures 0xD800 | h == 0xD800 + h && 0xD800 <= 0xD800 + h <= 0xDBFF
    ensures (0xD800 + h) as bv32 == 0xD800 + h as bv32
  {
  }

  lemma LowReads(l: CodePoint)
    requires l <= 0x3FF
    ensures 0xDC00 <= 0xDC00 | (l as bv16) <= 0xDFFF && (0xDC00 | (l as bv16)) as bv32 - 0xDC00 == l
  {
    NarrowLow(l as bv16);
    WidenBack(l);
  }

  lemma NarrowLow(l: Unit)
    requires l <= 0x3FF
    ensures 0xDC00 | l == 0xDC00 + l && 0xDC00 <= 0xDC00 + l <= 0xDFFF
    ensures (0xDC00 + l) as bv32 == 0xDC00 + l as bv32
  {
  }

  lemma WidenBack(v: CodePoint)
    requires v < 0x10000
    ensures (v as bv16) as bv32 == v
    ensures v <= 0x3FF ==> v as bv16 <= 0x3FF
  {
  }

  lemma PairReads(cp: CodePoint)
    requires 0x10000 <= cp <= 0x10FFFF
    ensures IsHigh(HighOf(cp)) && IsLow(LowOf(cp)) && PairValue(HighOf(cp), LowOf(cp)) == cp
  {
    var t := cp - 0x10000;
    SplitTen(t);
    HighReads(t >> 10);
    LowReads(t & 0x3FF);
  }

  lemma LoneReads(cp: CodePoint)
    requires IsScalar(cp) && cp < 0x10000
    ensures !IsHigh(cp as bv16) && !IsLow(cp as bv16) && Lone(cp as bv16) == cp
  {
    WidenBack(cp);
    Surrogates(cp as bv16);
  }

  lemma Surrogates(u: Unit)
    ensures IsHigh(u) || IsLow(u) ==> 0xD800 <= u as bv32 <= 0xDFFF
  {
  }

  /** Scalar values written as UTF-16 are read back. */
  lemma {:induction false} WriteRoundTrip(cps: seq<CodePoint>)
    requires AllScalar(cps)
    ensures CodePoints(Write(cps)) == cps
  {
    if cps != [] {
      var cp, rest := cps[0], Write(cps[1..]);
      WriteRoundTrip(cps[1..]);
      if cp < 0x10000 {
        LoneReads(cp);
        LoneInFront([cp as bv16] + rest, rest);
      } else {
        PairReads(cp);
        PairInFront([HighOf(cp), LowOf(cp)] + rest, rest);
      }
      assert [cp] + cps[1..] == cps;
    }
  }
}
