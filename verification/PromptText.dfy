/**
  How evidence is written into the prompt, and how it can be read back. A
  string is a sequence of bytes.
*/
module PromptText {
  import opened Wrappers

  // ---- Decimal numbers ----

  function Digit(d: nat): char
    requires d < 10
  {
    '0' + d as char
  }

  function Decimal(n: nat): (s: string)
    ensures s != [] && forall c :: c in s ==> '0' <= c <= '9'
  {
    if n < 10 then [Digit(n)] else Decimal(n / 10) + [Digit(n % 10)]
  }

  function ParseDecimal(s: string): nat {
    if s == [] then 0
    else
      var c := s[|s| - 1];
      10 * ParseDecimal(s[..|s| - 1]) + if '0' <= c <= '9' then (c - '0') as nat else 0
  }

  lemma {:induction false} DecimalRoundTrip(n: nat)
    ensures ParseDecimal(Decimal(n)) == n
  {
    if n >= 10 {
      DecimalRoundTrip(n / 10);
      assert Decimal(n)[..|Decimal(n)| - 1] == Decimal(n / 10);
    } else {
      assert Decimal(n)[..0] == [];
    }
  }

  lemma {:induction false} DecimalGrows(m: nat, n: nat)
    requires m <= n
    ensures |Decimal(m)| <= |Decimal(n)|
    decreases n
  {
    if m >= 10 {
      DecimalGrows(m / 10, n / 10);
    }
  }

  // ---- Escaping ----

  function EscapeChar(c: char): string {
    match c
    case '&' => "&amp;"
    case '<' => "&lt;"
    case '>' => "&gt;"
    case '"' => "&quot;"
    case _ => [c]
  }

  function Escape(text: string): (s: string)
    ensures '<' !in s && '>' !in s && '"' !in s
  {
    if text == [] then [] else EscapeChar(text[0]) + Escape(text[1..])
  }

  method EscapeText(text: string) returns (escaped: string)
    ensures escaped == Escape(text)
  {
    escaped := "";
    for i := 0 to |text|
      invariant escaped + Escape(text[i..]) == Escape(text)
    {
      assert text[i..][1..] == text[i + 1..];
      escaped := escaped + EscapeChar(text[i]);
    }
  }

  /** The entity at the front of `s`, and how many bytes it takes. */
  function Entity(s: string): (char, nat)
    requires s != []
  {
    if "&amp;" <= s then ('&', 5)
    else if "&lt;" <= s then ('<', 4)
    else if "&gt;" <= s then ('>', 4)
    else if "&quot;" <= s then ('"', 6)
    else (s[0], 1)
  }

  function Unescape(s: string): string {
    if s == [] then []
    else
      var (c, n) := Entity(s);
      [c] + Unescape(s[n..])
  }

  lemma EntityOfEscape(c: char, rest: string)
    ensures Entity(EscapeChar(c) + rest) == (c, |EscapeChar(c)|)
  {
    var s := EscapeChar(c) + rest;
    assert s[..|EscapeChar(c)|] == EscapeChar(c);
    if |EscapeChar(c)| == 1 {
      assert s[0] == c != '&';
    } else {
      assert EscapeChar(c) <= s;
      assert s[1] == EscapeChar(c)[1];
    }
  }

  lemma {:induction false} UnescapeEscape(text: string)
    ensures Unescape(Escape(text)) == text
  {
    if text != [] {
      var c, rest := text[0], text[1..];
      var s := EscapeChar(c) + Escape(rest);
      EntityOfEscape(c, Escape(rest));
      assert s[|EscapeChar(c)|..] == Escape(rest);
      UnescapeEscape(rest);
    }
  }

  // ---- Blocks ----

  datatype Endpoint = Endpoint(chunkId: string, text: string, heading: Option<string>, role: string)

  /** `confidence` is already in its two-decimal form. */
  datatype Relationship = Relationship(
    edgeId: string, edgeType: string, origin: string, reviewState: string, direction: string, confidence: string,
    endpoint0: Endpoint, endpoint1: Endpoint)

  /** A labelled block: a chunk, or a relationship between the chunks labelled `a` and `b`. */
  datatype Block =
    | Src(n: nat, id: string, text: string)
    | Rel(n: nat, rel: Relationship, a: nat, b: nat)

  const OPEN: string := "]\n<source>\n"
  const TAG: string := "<source>\n"
  const CLOSE: string := "</source>\n\n"

  function ChunkBlock(n: nat, text: string): string {
    "[SRC " + Decimal(n) + OPEN + Escape(text) + "\n" + CLOSE
  }

  function EndpointLine(side: string, n: nat, heading: Option<string>): string {
    if heading.Some? && heading.value != "" then
      "Endpoint " + side + " [SRC " + Decimal(n) + "], section \"" + Escape(heading.value) + "\"\n"
    else
      "Endpoint " + side + " [SRC " + Decimal(n) + "]\n"
  }

  predicate IsLeftRole(role: string) {
    role == "source" || role == "subject"
  }

  /** Which endpoint acts: the only one with an acting role, else the first. */
  predicate LeftIsFirst(r: Relationship) {
    !(IsLeftRole(r.endpoint1.role) && !IsLeftRole(r.endpoint0.role))
  }

  function Direction(r: Relationship, left: nat, right: nat): string {
    if r.direction == "symmetric" then "Direction: symmetric\n"
    else "Direction: [SRC " + Decimal(left) + "] " + Escape(r.edgeType) + " [SRC " + Decimal(right) + "]\n"
  }

  function Attribute(name: string, value: string): string {
    ", " + name + "=" + value
  }

  function Heading(n: nat, r: Relationship): string {
    "[REL " + Decimal(n) + ": " + Escape(r.edgeType)
    + (Attribute("origin", Escape(r.origin))
       + Attribute("review_state", Escape(r.reviewState))
       + Attribute("confidence", r.confidence))
    + "]\n"
  }

  function RelationshipBlock(n: nat, r: Relationship, a: nat, b: nat): string {
    var (left, right) := if LeftIsFirst(r) then (a, b) else (b, a);
    var (l, m) := if LeftIsFirst(r) then (r.endpoint0, r.endpoint1) else (r.endpoint1, r.endpoint0);
    Heading(n, r) + EndpointLine("A", left, l.heading) + EndpointLine("B", right, m.heading)
    + Direction(r, left, right) + "\n"
  }

  /** Turning a relationship round in storage, with its labels, does not change how it reads. */
  lemma OrientationFollowsRole(n: nat, r: Relationship, a: nat, b: nat)
    requires IsLeftRole(r.endpoint0.role) != IsLeftRole(r.endpoint1.role)
    ensures RelationshipBlock(n, r, a, b)
            == RelationshipBlock(n, r.(endpoint0 := r.endpoint1, endpoint1 := r.endpoint0), b, a)
  {
  }

  function Render(b: Block): string {
    match b
    case Src(n, _, text) => ChunkBlock(n, text)
    case Rel(n, r, a, b) => RelationshipBlock(n, r, a, b)
  }

  function RenderAll(blocks: seq<Block>): string {
    if blocks == [] then [] else Render(blocks[0]) + RenderAll(blocks[1..])
  }

  function QueryBlock(query: string): string {
    "Question: " + query + "\n\nAnswer:"
  }

  // ---- Reading back ----

  /** The first place of `c` in `s`, or the end. */
  function Find(c: char, s: string): (k: nat)
    ensures k <= |s|
    ensures k < |s| ==> s[k] == c
    ensures c !in s[..k]
  {
    if s == [] || s[0] == c then 0
    else
      var k := 1 + Find(c, s[1..]);
      assert s[..k] == [s[0]] + s[1..][..k - 1];
      k
  }

  lemma {:induction false} FindSplits(c: char, before: string, after: string)
    requires c !in before && after != [] && after[0] == c
    ensures Find(c, before + after) == |before|
  {
    if before == [] {
      assert before + after == after;
    } else {
      assert (before + after)[1..] == before[1..] + after;
      FindSplits(c, before[1..], after);
    }
  }

  /** What stands before the first `stop`, and after `close`, which must begin there. */
  function Field(stop: char, close: string, s: string): (r: Option<(string, string)>)
    ensures r.Some? ==> |r.value.1| + |close| <= |s|
  {
    var k := Find(stop, s);
    if close <= s[k..] then Some((s[..k], s[k + |close|..])) else None
  }

  lemma FieldReads(stop: char, close: string, before: string, rest: string)
    requires stop !in before && close != [] && close[0] == stop
    ensures Field(stop, close, before + (close + rest)) == Some((before, rest))
  {
    FindSplits(stop, before, close + rest);
    var s := before + (close + rest);
    assert s[|before|..] == close + rest;
    assert s[|before| + |close|..] == rest;
  }

  /** One chunk block at the front of `s`: its label, its text, and what follows. */
  function DecodeChunk(s: string): (r: Option<(nat, string, string)>)
    ensures r.Some? ==> |r.value.2| < |s|
  {
    if !("[SRC " <= s) then None
    else
      match Field(']', OPEN, s[5..])
      case None => None
      case Some((number, s2)) =>
        match Field('<', CLOSE, s2)
        case None => None
        case Some((body, rest)) =>
          if body == "" then None else Some((ParseDecimal(number), Unescape(body[..|body| - 1]), rest))
  }

  /** The labels and texts of the leading chunk blocks, and what follows them. */
  function DecodeChunks(s: string): (seq<(nat, string)>, string)
    decreases |s|
  {
    match DecodeChunk(s)
    case None => ([], s)
    case Some((n, text, rest)) =>
      var (more, tail) := DecodeChunks(rest);
      ([(n, text)] + more, tail)
  }

  /** How a block falls into pieces. */
  lemma Pieces(front: string, number: string, open: string, body: string, close: string, rest: string)
    ensures front + number + open + body + "\n" + close + rest
            == front + (number + (open + ((body + "\n") + (close + rest))))
  {
  }

  lemma DecodeOne(n: nat, text: string, rest: string)
    ensures DecodeChunk(ChunkBlock(n, text) + rest) == Some((n, text, rest))
  {
    var body := Escape(text) + "\n";
    var s2 := body + (CLOSE + rest);
    var s1 := Decimal(n) + (OPEN + s2);
    Pieces("[SRC ", Decimal(n), OPEN, Escape(text), CLOSE, rest);
    assert ("[SRC " + s1)[5..] == s1;
    FieldReads(']', OPEN, Decimal(n), s2);
    FieldReads('<', CLOSE, body, rest);
    assert body[..|body| - 1] == Escape(text);
    DecimalRoundTrip(n);
    UnescapeEscape(text);
  }

  /** The labels and texts a list of chunk blocks stands for. */
  function Labelled(blocks: seq<Block>): seq<(nat, string)>
    requires forall b :: b in blocks ==> b.Src?
  {
    if blocks == [] then [] else [(blocks[0].n, blocks[0].text)] + Labelled(blocks[1..])
  }

  /** A prompt made of chunks only can be read back: every label with its exact text, and the question. */
  lemma {:induction false} PromptDecodes(blocks: seq<Block>, query: string)
    requires forall b :: b in blocks ==> b.Src?
    ensures DecodeChunks(RenderAll(blocks) + QueryBlock(query)) == (Labelled(blocks), QueryBlock(query))
    ensures QueryBlock(query)[|"Question: "|..|QueryBlock(query)| - |"\n\nAnswer:"|] == query
  {
    if blocks == [] {
      var q := RenderAll(blocks) + QueryBlock(query);
      assert q == QueryBlock(query);
      assert q[0] == 'Q';
      assert DecodeChunk(q) == None;
    } else {
      var b := blocks[0];
      var rest := RenderAll(blocks[1..]) + QueryBlock(query);
      assert RenderAll(blocks) + QueryBlock(query) == ChunkBlock(b.n, b.text) + rest;
      DecodeOne(b.n, b.text, rest);
      PromptDecodes(blocks[1..], query);
    }
  }

  /** Two prompts made of chunks only that read the same have the same labels, texts and question. */
  lemma RenderIsInjective(xs: seq<Block>, q: string, ys: seq<Block>, r: string)
    requires forall b :: b in xs ==> b.Src?
    requires forall b :: b in ys ==> b.Src?
    requires RenderAll(xs) + QueryBlock(q) == RenderAll(ys) + QueryBlock(r)
    ensures Labelled(xs) == Labelled(ys) && q == r
  {
    PromptDecodes(xs, q);
    PromptDecodes(ys, r);
  }

  // ---- Source tags ----

  /** The texts between source tags, wherever they stand; None when the tags do not pair up. */
  function SourceTexts(s: string): Option<seq<string>>
    decreases |s|
  {
    if '<' !in s then Some([])
    else
      match Field('<', TAG, s)
      case None => None
      case Some((_, s1)) =>
        match Field('<', CLOSE, s1)
        case None => None
        case Some((body, s2)) =>
          if body == "" then None
          else
            match SourceTexts(s2)
            case None => None
            case Some(more) => Some([Unescape(body[..|body| - 1])] + more)
  }

  function Texts(blocks: seq<Block>): seq<string> {
    if blocks == [] then []
    else if blocks[0].Src? then [blocks[0].text] + Texts(blocks[1..])
    else Texts(blocks[1..])
  }

  lemma {:induction false} FindSkips(c: char, plain: string, s: string)
    requires c !in plain
    ensures Find(c, plain + s) == |plain| + Find(c, s)
  {
    if plain == [] {
      assert plain + s == s;
    } else {
      assert (plain + s)[1..] == plain[1..] + s;
      FindSkips(c, plain[1..], s);
    }
  }

  lemma DropMore(plain: string, s: string, k: nat)
    requires k <= |s|
    ensures (plain + s)[|plain| + k..] == s[k..]
  {
  }

  lemma FieldSkips(stop: char, close: string, plain: string, s: string)
    requires stop !in plain
    ensures Field(stop, close, plain + s).Some? <==> Field(stop, close, s).Some?
    ensures Field(stop, close, s).Some? ==> Field(stop, close, plain + s).value.1 == Field(stop, close, s).value.1
  {
    var k := Find(stop, s);
    FindSkips(stop, plain, s);
    DropMore(plain, s, k);
    if close <= s[k..] {
      DropMore(plain, s, k + |close|);
    }
  }

  lemma SkipPlain(plain: string, s: string)
    requires '<' !in plain
    ensures SourceTexts(plain + s) == SourceTexts(s)
  {
    if '<' in s {
      FieldSkips('<', TAG, plain, s);
    }
  }

  function Prepend(text: string, more: Option<seq<string>>): Option<seq<string>> {
    match more
    case None => None
    case Some(texts) => Some([text] + texts)
  }

  lemma ReadTag(front: string, text: string, s: string)
    requires '<' !in front
    ensures SourceTexts(front + (TAG + ((Escape(text) + "\n") + (CLOSE + s)))) == Prepend(text, SourceTexts(s))
  {
    var body := Escape(text) + "\n";
    var s1 := body + (CLOSE + s);
    FieldReads('<', TAG, front, s1);
    FieldReads('<', CLOSE, body, s);
    assert (front + (TAG + s1))[|front|] == '<';
    assert body[..|body| - 1] == Escape(text);
    UnescapeEscape(text);
  }

  lemma TagPieces(front: string, number: string, mid: string, tag: string, rest: string)
    ensures front + (number + ((mid + tag) + rest)) == (front + number + mid) + (tag + rest)
  {
  }

  lemma ReadSource(n: nat, text: string, s: string)
    ensures SourceTexts(ChunkBlock(n, text) + s) == Prepend(text, SourceTexts(s))
  {
    var s1 := (Escape(text) + "\n") + (CLOSE + s);
    Pieces("[SRC ", Decimal(n), OPEN, Escape(text), CLOSE, s);
    assert OPEN == "]\n" + TAG;
    TagPieces("[SRC ", Decimal(n), "]\n", TAG, s1);
    ReadTag("[SRC " + Decimal(n) + "]\n", text, s);
  }

  lemma ReadBlock(b: Block, s: string)
    requires b.Rel? ==> '<' !in b.rel.confidence
    ensures SourceTexts(Render(b) + s) == if b.Src? then Prepend(b.text, SourceTexts(s)) else SourceTexts(s)
  {
    match b
    case Src(n, _, text) =>
      ReadSource(n, text, s);
    case Rel(n, r, a, c) =>
      RelationshipIsPlain(n, r, a, c);
      SkipPlain(RelationshipBlock(n, r, a, c), s);
  }

  /** Whatever the evidence says, relationships included, the source tags enclose exactly the chunk texts. */
  lemma {:induction false} TagsEncloseTexts(blocks: seq<Block>)
    requires forall b :: b in blocks && b.Rel? ==> '<' !in b.rel.confidence
    ensures SourceTexts(RenderAll(blocks)) == Some(Texts(blocks))
  {
    if blocks != [] {
      TagsEncloseTexts(blocks[1..]);
      ReadBlock(blocks[0], RenderAll(blocks[1..]));
    }
  }

  predicate Plain(s: string) {
    '<' !in s
  }

  lemma PlainFour(a: string, b: string, c: string, d: string)
    requires Plain(a) && Plain(b) && Plain(c) && Plain(d)
    ensures Plain(a + b + c + d)
  {
  }

  lemma PlainTwo(a: string, b: string)
    requires Plain(a) && Plain(b)
    ensures Plain(a + b)
  {
  }

  lemma EndpointLineIsPlain(side: string, n: nat, heading: Option<string>)
    requires Plain(side)
    ensures Plain(EndpointLine(side, n, heading))
  {
    var front := "Endpoint " + side + " [SRC " + Decimal(n);
    PlainFour("Endpoint ", side, " [SRC ", Decimal(n));
    if heading.Some? && heading.value != "" {
      PlainFour(front, "], section \"", Escape(heading.value), "\"\n");
    } else {
      PlainTwo(front, "]\n");
    }
  }

  lemma HeadingIsPlain(n: nat, r: Relationship)
    requires Plain(r.confidence)
    ensures Plain(Heading(n, r))
  {
    var origin, state := Attribute("origin", Escape(r.origin)), Attribute("review_state", Escape(r.reviewState));
    var confidence := Attribute("confidence", r.confidence);
    PlainFour(", ", "origin", "=", Escape(r.origin));
    PlainFour(", ", "review_state", "=", Escape(r.reviewState));
    PlainFour(", ", "confidence", "=", r.confidence);
    PlainFour(origin, state, confidence, "");
    assert origin + state + confidence + "" == origin + state + confidence;
    PlainFour("[REL ", Decimal(n), ": ", Escape(r.edgeType));
  }

  lemma DirectionIsPlain(r: Relationship, left: nat, right: nat)
    ensures Plain(Direction(r, left, right))
  {
  }

  lemma RelationshipIsPlain(n: nat, r: Relationship, a: nat, b: nat)
    requires Plain(r.confidence)
    ensures Plain(RelationshipBlock(n, r, a, b))
  {
    var (left, right) := if LeftIsFirst(r) then (a, b) else (b, a);
    var (l, m) := if LeftIsFirst(r) then (r.endpoint0, r.endpoint1) else (r.endpoint1, r.endpoint0);
    HeadingIsPlain(n, r);
    EndpointLineIsPlain("A", left, l.heading);
    EndpointLineIsPlain("B", right, m.heading);
    DirectionIsPlain(r, left, right);
    PlainFour(Heading(n, r), EndpointLine("A", left, l.heading), EndpointLine("B", right, m.heading), Direction(r, left, right));
  }
}
