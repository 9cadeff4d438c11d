/** UTF-16 to UTF-8 conversion, UTF-8 decoding and the stripping of tag characters. */
module Utf {
  import opened Wrappers

  type Unit = bv16
  type Byte = bv8
  type CodePoint = bv32

  const REPLACEMENT: CodePoint := 0xFFFD

  predicate IsHigh(u: Unit) {
    0xD800 <= u <= 0xDBFF
  }

  predicate IsLow(u: Unit) {
    0xDC00 <= u <= 0xDFFF
  }

  /** Code points that are not surrogates (section 3 of RFC 3629). */
  predicate IsScalar(cp: CodePoint) {
    cp <= 0x10FFFF && !(0xD800 <= cp <= 0xDFFF)
  }

  // ---- Reference definitions ----

  /** The value of a surrogate pair (section 2.2 of RFC 2781). */
  function PairValue(hi: Unit, lo: Unit): CodePoint {
    0x10000 + (((hi as bv32 - 0xD800) << 10) + (lo as bv32 - 0xDC00))
  }

  /** What a unit that is not part of a pair stands for. */
  function Lone(u: Unit): CodePoint {
    if IsHigh(u) || IsLow(u) then REPLACEMENT else u as bv32
  }

  /** The code points of a UTF-16 sequence, each unpaired surrogate replaced. */
  function CodePoints(u: seq<Unit>): seq<CodePoint> {
    if u == [] then []
    else if IsHigh(u[0]) && |u| > 1 && IsLow(u[1]) then [PairValue(u[0], u[1])] + CodePoints(u[2..])
    else [Lone(u[0])] + CodePoints(u[1..])
  }

  predicate IsTail(b: Byte) {
    0x80 <= b <= 0xBF
  }

  /** The four forms of section 4 of RFC 3629. */
  predicate IsForm1(b: Byte) {
    b <= 0x7F
  }

  predicate IsForm2(a: Byte, b: Byte) {
    0xC2 <= a <= 0xDF && IsTail(b)
  }

  predicate IsForm3(a: Byte, b: Byte, c: Byte) {
    IsTail(c) && (|| (a == 0xE0 && 0xA0 <= b <= 0xBF)
                  || (0xE1 <= a <= 0xEC && IsTail(b))
                  || (a == 0xED && 0x80 <= b <= 0x9F)
                  || (0xEE <= a <= 0xEF && IsTail(b)))
  }

  predicate IsForm4(a: Byte, b: Byte, c: Byte, d: Byte) {
    IsTail(c) && IsTail(d) && (|| (a == 0xF0 && 0x90 <= b <= 0xBF)
                               || (0xF1 <= a <= 0xF3 && IsTail(b))
                               || (a == 0xF4 && 0x80 <= b <= 0x8F))
  }

  /** Some form stands at the front of `s`, and is `w` bytes wide. */
  predicate FormAt(s: seq<Byte>, w: nat) {
    || (w == 1 && |s| >= 1 && IsForm1(s[0]))
    || (w == 2 && |s| >= 2 && IsForm2(s[0], s[1]))
    || (w == 3 && |s| >= 3 && IsForm3(s[0], s[1], s[2]))
    || (w == 4 && |s| >= 4 && IsForm4(s[0], s[1], s[2], s[3]))
  }

  // ---- Encoding ----

  function Encode1(cp: CodePoint): Byte
    requires cp < 0x80
  {
    cp as bv8
  }

  function Lead2(cp: CodePoint): Byte
    requires cp < 0x800
  {
    (0xC0 | (cp >> 6)) as bv8
  }

  function Lead3(cp: CodePoint): Byte
    requires cp < 0x10000
  {
    (0xE0 | (cp >> 12)) as bv8
  }

  function Lead4(cp: CodePoint): Byte
    requires cp < 0x110000
  {
    (0xF0 | (cp >> 18)) as bv8
  }

  function Tail(cp: CodePoint, shift: bv6): Byte
    requires shift == 0 || shift == 6 || shift == 12
  {
    (0x80 | ((cp >> shift) & 0x3F)) as bv8
  }

  function Encode(cp: CodePoint): seq<Byte>
    requires IsScalar(cp)
  {
    if cp < 0x80 then [Encode1(cp)]
    else if cp < 0x800 then [Lead2(cp), Tail(cp, 0)]
    else if cp < 0x10000 then [Lead3(cp), Tail(cp, 6), Tail(cp, 0)]
    else [Lead4(cp), Tail(cp, 12), Tail(cp, 6), Tail(cp, 0)]
  }

  // ---- Decoding ----

  datatype Decoded = Decoded(codepoint: CodePoint, width: nat)

  function Join(acc: CodePoint, b: Byte): CodePoint {
    (acc << 6) | (b as bv32 & 0x3F)
  }

  function Width(first: Byte): nat {
    if first < 0x80 then 1
    else if first & 0xE0 == 0xC0 then 2
    else if first & 0xF0 == 0xE0 then 3
    else if first & 0xF8 == 0xF0 then 4
    else 0
  }

  predicate Illegal(w: nat, cp: CodePoint) {
    (w == 2 && cp < 0x80) || (w == 3 && cp < 0x800) || (w == 4 && cp < 0x10000) || cp > 0x10FFFF || (0xD800 <= cp <= 0xDFFF)
  }

  function Value2(a: Byte, b: Byte): CodePoint {
    Join(a as bv32 & 0x1F, b)
  }

  function Value3(a: Byte, b: Byte, c: Byte): CodePoint {
    Join(Join(a as bv32 & 0x0F, b), c)
  }

  function Value4(a: Byte, b: Byte, c: Byte, d: Byte): CodePoint {
    Join(Join(Join(a as bv32 & 0x07, b), c), d)
  }

  lemma Form2Iff(a: Byte, b: Byte)
    ensures IsForm2(a, b) <==> a & 0xE0 == 0xC0 && IsTailByte(b) && !Illegal(2, Value2(a, b))
  {
  }

  lemma Form3Iff(a: Byte, b: Byte, c: Byte)
    ensures IsForm3(a, b, c) <==> a & 0xF0 == 0xE0 && IsTailByte(b) && IsTailByte(c) && !Illegal(3, Value3(a, b, c))
  {
  }

  predicate IsTailByte(b: Byte) {
    b & 0xC0 == 0x80
  }

  /** The size of a four-byte value shows in its first two bytes. */
  lemma Value4Size(a: Byte, b: Byte, c: Byte, d: Byte)
    requires a & 0xF8 == 0xF0 && IsTailByte(b) && IsTailByte(c) && IsTailByte(d)
    ensures Value4(a, b, c, d) < 0x10000 <==> a == 0xF0 && b < 0x90
    ensures Value4(a, b, c, d) > 0x10FFFF <==> a > 0xF4 || (a == 0xF4 && b >= 0x90)
  {
  }

  lemma Form4Iff(a: Byte, b: Byte, c: Byte, d: Byte)
    ensures IsForm4(a, b, c, d)
            <==> && a & 0xF8 == 0xF0
                 && IsTailByte(b) && IsTailByte(c) && IsTailByte(d)
                 && !Illegal(4, Value4(a, b, c, d))
  {
    assert IsTail(b) <==> IsTailByte(b);
    assert IsTail(c) <==> IsTailByte(c);
    assert IsTail(d) <==> IsTailByte(d);
    if a & 0xF8 == 0xF0 && IsTailByte(b) && IsTailByte(c) && IsTailByte(d) {
      Value4Size(a, b, c, d);
    }
  }

  lemma Encode2Decodes(cp: CodePoint)
    requires 0x80 <= cp < 0x800
    ensures IsForm2(Lead2(cp), Tail(cp, 0)) && Value2(Lead2(cp), Tail(cp, 0)) == cp
  {
  }

  lemma TailsAreTails(cp: CodePoint)
    ensures IsTailByte(Tail(cp, 0)) && IsTailByte(Tail(cp, 6)) && IsTailByte(Tail(cp, 12))
  {
  }

  lemma Value3RoundTrip(cp: CodePoint)
    requires cp < 0x10000
    ensures Value3(Lead3(cp), Tail(cp, 6), Tail(cp, 0)) == cp && Lead3(cp) & 0xF0 == 0xE0
  {
  }

  lemma Encode3Decodes(cp: CodePoint)
    requires 0x800 <= cp < 0x10000 && IsScalar(cp)
    ensures IsForm3(Lead3(cp), Tail(cp, 6), Tail(cp, 0)) && Value3(Lead3(cp), Tail(cp, 6), Tail(cp, 0)) == cp
  {
    TailsAreTails(cp);
    Value3RoundTrip(cp);
    Form3Iff(Lead3(cp), Tail(cp, 6), Tail(cp, 0));
  }

  lemma Value4RoundTrip(cp: CodePoint)
    requires cp < 0x110000
    ensures Value4(Lead4(cp), Tail(cp, 12), Tail(cp, 6), Tail(cp, 0)) == cp && Lead4(cp) & 0xF8 == 0xF0
  {
  }

  lemma Encode4Decodes(cp: CodePoint)
    requires 0x10000 <= cp < 0x110000
    ensures IsForm4(Lead4(cp), Tail(cp, 12), Tail(cp, 6), Tail(cp, 0))
    ensures Value4(Lead4(cp), Tail(cp, 12), Tail(cp, 6), Tail(cp, 0)) == cp
  {
    TailsAreTails(cp);
    Value4RoundTrip(cp);
    Form4Iff(Lead4(cp), Tail(cp, 12), Tail(cp, 6), Tail(cp, 0));
  }

  lemma Form3Encodes(a: Byte, b: Byte, c: Byte)
    requires IsForm3(a, b, c)
    ensures var cp := Value3(a, b, c); 0x800 <= cp < 0x10000 && IsScalar(cp) && Lead3(cp) == a && Tail(cp, 6) == b && Tail(cp, 0) == c
  {
  }

  lemma Value4Bytes(a: Byte, b: Byte, c: Byte, d: Byte)
    requires a & 0xF8 == 0xF0 && IsTailByte(b) && IsTailByte(c) && IsTailByte(d) && Value4(a, b, c, d) < 0x110000
    ensures var cp := Value4(a, b, c, d); Lead4(cp) == a && Tail(cp, 12) == b && Tail(cp, 6) == c && Tail(cp, 0) == d
  {
  }

  lemma Form4Encodes(a: Byte, b: Byte, c: Byte, d: Byte)
    requires IsForm4(a, b, c, d)
    ensures var cp := Value4(a, b, c, d);
            && 0x10000 <= cp < 0x110000
            && Lead4(cp) == a && Tail(cp, 12) == b && Tail(cp, 6) == c && Tail(cp, 0) == d
  {
    Form4Iff(a, b, c, d);
    Value4Bytes(a, b, c, d);
  }

  lemma Form2Encodes(a: Byte, b: Byte)
    requires IsForm2(a, b)
    ensures var cp := Value2(a, b); 0x80 <= cp < 0x800 && Lead2(cp) == a && Tail(cp, 0) == b
  {
  }

  // ---- Decoding one code point ----

  function LeadBits(first: Byte): CodePoint {
    match Width(first)
    case 2 => first as bv32 & 0x1F
    case 3 => first as bv32 & 0x0F
    case 4 => first as bv32 & 0x07
    case _ => first as bv32
  }

  /** The value after the first `i` bytes. */
  function Partial(s: seq<Byte>, i: nat): CodePoint
    requires 1 <= i <= |s|
  {
    if i == 1 then LeadBits(s[0]) else Join(Partial(s, i - 1), s[i - 1])
  }

  predicate TailsTo(s: seq<Byte>, w: nat)
    requires w <= |s|
  {
    forall i :: 1 <= i < w ==> IsTailByte(s[i])
  }

  function DecodeAt(s: seq<Byte>): (r: Option<Decoded>)
    requires s != []
    ensures r.Some? ==> 1 <= r.value.width <= |s|
  {
    var w := Width(s[0]);
    if w == 0 || |s| < w || !TailsTo(s, w) || (w > 1 && Illegal(w, Partial(s, w))) then None
    else Some(Decoded(Partial(s, w), w))
  }

  method DecodeUtf8(input: seq<Byte>, offset: nat) returns (ok: bool, codepoint: CodePoint, width: nat)
    requires offset < |input|
    ensures ok <==> DecodeAt(input[offset..]).Some?
    ensures ok ==> DecodeAt(input[offset..]).value == Decoded(codepoint, width)
  {
    var first := input[offset];
    ghost var s := input[offset..];
    codepoint, width := LeadBits(first), Width(first);
    if width == 1 {
      return true, codepoint, width;
    }
    if width == 0 || offset + width > |input| {
      return false, codepoint, width;
    }
    for i := 1 to width
      invariant codepoint == Partial(s, i) && TailsTo(s, i)
    {
      var next := input[offset + i];
      assert next == s[i];
      if next & 0xC0 != 0x80 {
        return false, codepoint, width;
      }
      codepoint := Join(codepoint, next);
    }
    ok := !Illegal(width, codepoint);
  }

  // ---- It accepts exactly the forms ----

  lemma PartialValues(s: seq<Byte>)
    requires s != []
    ensures Width(s[0]) == 2 && |s| >= 2 ==> Partial(s, 2) == Value2(s[0], s[1])
    ensures Width(s[0]) == 3 && |s| >= 3 ==> Partial(s, 3) == Value3(s[0], s[1], s[2])
    ensures Width(s[0]) == 4 && |s| >= 4 ==> Partial(s, 4) == Value4(s[0], s[1], s[2], s[3])
  {
    if |s| >= 2 {
      assert Partial(s, 2) == Join(Partial(s, 1), s[1]);
    }
    if |s| >= 3 {
      assert Partial(s, 3) == Join(Partial(s, 2), s[2]);
    }
    if |s| >= 4 {
      assert Partial(s, 4) == Join(Partial(s, 3), s[3]);
    }
  }

  lemma TailsOf(s: seq<Byte>)
    ensures |s| >= 2 ==> (TailsTo(s, 2) <==> IsTailByte(s[1]))
    ensures |s| >= 3 ==> (TailsTo(s, 3) <==> IsTailByte(s[1]) && IsTailByte(s[2]))
    ensures |s| >= 4 ==> (TailsTo(s, 4) <==> IsTailByte(s[1]) && IsTailByte(s[2]) && IsTailByte(s[3]))
  {
  }

  lemma WidthBits(first: Byte)
    ensures Width(first) == 1 <==> first <= 0x7F
    ensures Width(first) == 2 <==> first & 0xE0 == 0xC0
    ensures Width(first) == 3 <==> first & 0xF0 == 0xE0
    ensures Width(first) == 4 <==> first & 0xF8 == 0xF0
  {
  }

  /** Decoding succeeds exactly on the sequences of section 4 of RFC 3629. */
  lemma DecodesIffForm(s: seq<Byte>, w: nat)
    requires s != []
    ensures FormAt(s, w) <==> DecodeAt(s).Some? && DecodeAt(s).value.width == w
  {
    PartialValues(s);
    TailsOf(s);
    WidthBits(s[0]);
    if |s| >= 2 {
      Form2Iff(s[0], s[1]);
    }
    if |s| >= 3 {
      Form3Iff(s[0], s[1], s[2]);
    }
    if |s| >= 4 {
      Form4Iff(s[0], s[1], s[2], s[3]);
    }
  }

  // ---- One code point, there and back ----

  lemma DecodeEncode(cp: CodePoint, rest: seq<Byte>)
    requires IsScalar(cp)
    ensures Encode(cp) != [] && DecodeAt(Encode(cp) + rest) == Some(Decoded(cp, |Encode(cp)|))
  {
    var s := Encode(cp) + rest;
    if cp < 0x80 {
      assert s[0] as bv32 == cp;
    } else if cp < 0x800 {
      Encode2Decodes(cp);
      assert FormAt(s, 2);
    } else if cp < 0x10000 {
      Encode3Decodes(cp);
      assert FormAt(s, 3);
    } else {
      Encode4Decodes(cp);
      assert FormAt(s, 4);
    }
    DecodesIffForm(s, |Encode(cp)|);
    PartialValues(s);
  }

  lemma EncodeDecode(s: seq<Byte>)
    requires s != [] && DecodeAt(s).Some?
    ensures var d := DecodeAt(s).value; IsScalar(d.codepoint) && Encode(d.codepoint) == s[..d.width]
  {
    var d := DecodeAt(s).value;
    DecodesIffForm(s, d.width);
    PartialValues(s);
    if d.width == 2 {
      Form2Encodes(s[0], s[1]);
    } else if d.width == 3 {
      Form3Encodes(s[0], s[1], s[2]);
    } else if d.width == 4 {
      Form4Encodes(s[0], s[1], s[2], s[3]);
    }
  }
}
