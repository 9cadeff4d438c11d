/**
  Reading a whole prompt back: sources and relationships, with their labels,
  their texts and headings, and which endpoint acts on which.
*/
module PromptReader {
  import opened Wrappers
  import opened PromptText

  // ---- Taking a string apart ----

  /** What follows `front`, which must be there. */
  function After(front: string, s: string): (r: Result<string, ()>)
    ensures r.Ok? ==> |r.value| + |front| == |s|
  {
    if front <= s then Ok(s[|front|..]) else Err(())
  }

  /** What stands before the first `stop`, and after `close`, which must begin there. */
  function Upto(stop: char, close: string, s: string): (r: Result<(string, string), ()>)
    ensures r.Ok? ==> |r.value.1| + |close| <= |s|
  {
    match Field(stop, close, s)
    case None => Err(())
    case Some(parts) => Ok(parts)
  }

  lemma AfterReads(front: string, s: string)
    ensures After(front, front + s) == Ok(s)
  {
  }

  lemma UptoReads(stop: char, close: string, before: string, rest: string)
    requires stop !in before && close != [] && close[0] == stop
    ensures Upto(stop, close, before + (close + rest)) == Ok((before, rest))
  {
    FieldReads(stop, close, before, rest);
  }

  /** What the line of an endpoint says: its label, and the heading of its section, if it has one. */
  datatype EndpointRead = EndpointRead(src: nat, heading: string)

  datatype HeadingRead = HeadingRead(n: nat, edgeType: string, origin: string, reviewState: string, confidence: string)

  /** The labels on either side of the arrow and the type between them. */
  datatype Arrow = Arrow(left: nat, edgeType: string, right: nat)

  datatype Item =
    | Source(n: nat, text: string)
    | Relation(heading: HeadingRead, a: EndpointRead, b: EndpointRead, arrow: Option<Arrow>)

  function ReadHeading(s: string): (r: Result<(HeadingRead, string), ()>)
    ensures r.Ok? ==> |r.value.1| < |s|
  {
    var s1 :- After("[REL ", s);
    var (number, s2) :- Upto(':', ": ", s1);
    var (edgeType, s3) :- Upto(',', ", origin=", s2);
    var (origin, s4) :- Upto(',', ", review_state=", s3);
    var (state, s5) :- Upto(',', ", confidence=", s4);
    var (confidence, rest) :- Upto(']', "]\n", s5);
    Ok((HeadingRead(ParseDecimal(number), Unescape(edgeType), Unescape(origin), Unescape(state), confidence), rest))
  }

  function ReadEndpoint(front: string, s: string): (r: Result<(EndpointRead, string), ()>)
    ensures r.Ok? ==> |r.value.1| <= |s|
  {
    var s1 :- After(front, s);
    var (number, s2) :- Upto(']', "]", s1);
    if "\n" <= s2 then Ok((EndpointRead(ParseDecimal(number), ""), s2[1..]))
    else
      var s3 :- After(", section \"", s2);
      var (heading, rest) :- Upto('"', "\"\n", s3);
      Ok((EndpointRead(ParseDecimal(number), Unescape(heading)), rest))
  }

  function ReadArrow(s: string): (r: Result<(Option<Arrow>, string), ()>)
    ensures r.Ok? ==> |r.value.1| <= |s|
  {
    if "Direction: symmetric\n" <= s then Ok((None, s[|"Direction: symmetric\n"|..]))
    else
      var s1 :- After("Direction: [SRC ", s);
      var (left, s2) :- Upto(']', "] ", s1);
      var (edgeType, s3) :- Upto(' ', " [SRC ", s2);
      var (right, rest) :- Upto(']', "]\n", s3);
      Ok((Some(Arrow(ParseDecimal(left), Unescape(edgeType), ParseDecimal(right))), rest))
  }

  function ReadA(s: string): (r: Result<(EndpointRead, string), ()>)
    ensures r.Ok? ==> |r.value.1| <= |s|
  {
    ReadEndpoint("Endpoint A [SRC ", s)
  }

  function ReadB(s: string): (r: Result<(EndpointRead, string), ()>)
    ensures r.Ok? ==> |r.value.1| <= |s|
  {
    ReadEndpoint("Endpoint B [SRC ", s)
  }

  function ReadEnds(s: string): (r: Result<((EndpointRead, EndpointRead), string), ()>)
    ensures r.Ok? ==> |r.value.1| <= |s|
  {
    var (a, s1) :- ReadA(s);
    var (b, rest) :- ReadB(s1);
    Ok(((a, b), rest))
  }

  function ReadTail(s: string): (r: Result<(Option<Arrow>, string), ()>)
    ensures r.Ok? ==> |r.value.1| <= |s|
  {
    var (arrow, s1) :- ReadArrow(s);
    var rest :- After("\n", s1);
    Ok((arrow, rest))
  }

  function ReadRelation(s: string): (r: Result<(Item, string), ()>)
    ensures r.Ok? ==> |r.value.1| < |s|
  {
    var (heading, s1) :- ReadHeading(s);
    var (ends, s2) :- ReadEnds(s1);
    var (arrow, rest) :- ReadTail(s2);
    Ok((Relation(heading, ends.0, ends.1, arrow), rest))
  }

  /** The leading blocks of a prompt, and what follows them. */
  function ReadAll(s: string): (seq<Item>, string)
    decreases |s|
  {
    match DecodeChunk(s)
    case Some((n, text, rest)) =>
      var (more, tail) := ReadAll(rest);
      ([Source(n, text)] + more, tail)
    case None =>
      match ReadRelation(s)
      case Ok((item, rest)) =>
        var (more, tail) := ReadAll(rest);
        ([item] + more, tail)
      case Err(_) => ([], s)
  }

  // ---- What should be read ----

  /** None of the separators that stand behind these fields occurs in them. */
  predicate Delimited(r: Relationship) {
    && ',' !in r.edgeType && ' ' !in r.edgeType && ',' !in r.origin && ',' !in r.reviewState && ']' !in r.confidence
  }

  function HeadingText(e: Endpoint): string {
    if e.heading.Some? then e.heading.value else ""
  }

  predicate Acts(e: Endpoint) {
    e.role == "source" || e.role == "subject"
  }

  /** The relationship from one endpoint, labelled `x`, to the other, labelled `y`. */
  function From(n: nat, r: Relationship, left: Endpoint, x: nat, right: Endpoint, y: nat): Item {
    Relation(HeadingRead(n, r.edgeType, r.origin, r.reviewState, r.confidence),
             EndpointRead(x, HeadingText(left)), EndpointRead(y, HeadingText(right)),
             if r.direction == "symmetric" then None else Some(Arrow(x, r.edgeType, y)))
  }

  /** A relationship runs from the only endpoint that acts; otherwise from the first. */
  function Meant(b: Block): Item {
    match b
    case Src(n, _, text) => Source(n, text)
    case Rel(n, r, x, y) =>
      if Acts(r.endpoint1) && !Acts(r.endpoint0) then From(n, r, r.endpoint1, y, r.endpoint0, x)
      else From(n, r, r.endpoint0, x, r.endpoint1, y)
  }

  function AllMeant(blocks: seq<Block>): seq<Item> {
    if blocks == [] then [] else [Meant(blocks[0])] + AllMeant(blocks[1..])
  }

  // ---- What is written is read ----

  /** Escaping brings in no separator. */
  lemma {:induction false} EscapeAvoids(c: char, text: string)
    requires c !in text && c != '&' && c != ';' && !('a' <= c <= 'z')
    ensures c !in Escape(text)
  {
    if text != [] {
      EscapeAvoids(c, text[1..]);
    }
  }

  lemma NumberAvoids(c: char, n: nat)
    requires !('0' <= c <= '9')
    ensures c !in Decimal(n)
  {
  }

  lemma Regroup(a: string, b: string, c: string)
    ensures (a + b) + c == a + (b + c)
  {
  }

  lemma Regroup4(a: string, b: string, c: string, d: string)
    ensures a + b + c + d == a + (b + (c + d))
  {
  }

  lemma {:induction false} ReadsArrow(r: Relationship, left: nat, right: nat, s: string)
    requires Delimited(r)
    ensures ReadArrow(Direction(r, left, right) + s)
            == Ok((if r.direction == "symmetric" then None else Some(Arrow(left, r.edgeType, right)), s))
  {
    if r.direction != "symmetric" {
      var edgeType := Escape(r.edgeType);
      ArrowPieces(Decimal(left), edgeType, Decimal(right), s);
      var s3 := Decimal(right) + ("]\n" + s);
      var s2 := edgeType + (" [SRC " + s3);
      var s1 := Decimal(left) + ("] " + s2);
      NumberAvoids(']', left);
      NumberAvoids(']', right);
      EscapeAvoids(' ', r.edgeType);
      assert ("Direction: [SRC " + s1)[11] == '[';
      assert "Direction: symmetric\n"[11] == 's';
      AfterReads("Direction: [SRC ", s1);
      UptoReads(']', "] ", Decimal(left), s2);
      UptoReads(' ', " [SRC ", edgeType, s3);
      UptoReads(']', "]\n", Decimal(right), s);
      DecimalRoundTrip(left);
      DecimalRoundTrip(right);
      UnescapeEscape(r.edgeType);
    }
  }

  lemma ArrowPieces(left: string, edgeType: string, right: string, s: string)
    ensures "Direction: [SRC " + left + "] " + edgeType + " [SRC " + right + "]\n" + s
            == "Direction: [SRC " + (left + ("] " + (edgeType + (" [SRC " + (right + ("]\n" + s))))))
  {
  }

  lemma {:induction false} ReadsEndpoint(side: string, front: string, n: nat, e: Endpoint, s: string)
    requires front == "Endpoint " + side + " [SRC "
    ensures ReadEndpoint(front, EndpointLine(side, n, e.heading) + s) == Ok((EndpointRead(n, HeadingText(e)), s))
  {
    NumberAvoids(']', n);
    DecimalRoundTrip(n);
    if e.heading.Some? && e.heading.value != "" {
      var heading := Escape(e.heading.value);
      var s3 := heading + ("\"\n" + s);
      var s2 := ", section \"" + s3;
      LinePieces(front, Decimal(n), heading, s);
      AfterReads(front, Decimal(n) + ("]" + s2));
      UptoReads(']', "]", Decimal(n), s2);
      assert s2[0] == ',';
      AfterReads(", section \"", s3);
      UptoReads('"', "\"\n", heading, s);
      UnescapeEscape(e.heading.value);
    } else {
      BareLinePieces(front, Decimal(n), s);
      AfterReads(front, Decimal(n) + ("]" + ("\n" + s)));
      UptoReads(']', "]", Decimal(n), "\n" + s);
      assert ("\n" + s)[1..] == s;
    }
  }

  lemma LinePieces(front: string, number: string, heading: string, s: string)
    ensures front + number + "], section \"" + heading + "\"\n" + s
            == front + (number + ("]" + (", section \"" + (heading + ("\"\n" + s)))))
  {
    assert "], section \"" == "]" + ", section \"";
  }

  lemma BareLinePieces(front: string, number: string, s: string)
    ensures front + number + "]\n" + s == front + (number + ("]" + ("\n" + s)))
  {
    assert "]\n" == "]" + "\n";
  }

  lemma {:induction false} ReadsHeading(n: nat, r: Relationship, s: string)
    requires Delimited(r)
    ensures ReadHeading(Heading(n, r) + s)
            == Ok((HeadingRead(n, r.edgeType, r.origin, r.reviewState, r.confidence), s))
  {
    var edgeType, origin, state := Escape(r.edgeType), Escape(r.origin), Escape(r.reviewState);
    var s5 := r.confidence + ("]\n" + s);
    var s4 := state + (", confidence=" + s5);
    var s3 := origin + (", review_state=" + s4);
    var s2 := edgeType + (", origin=" + s3);
    var s1 := Decimal(n) + (": " + s2);
    HeadingPieces(Decimal(n), edgeType, origin, state, r.confidence, s);
    NumberAvoids(':', n);
    EscapeAvoids(',', r.edgeType);
    EscapeAvoids(',', r.origin);
    EscapeAvoids(',', r.reviewState);
    AfterReads("[REL ", s1);
    UptoReads(':', ": ", Decimal(n), s2);
    UptoReads(',', ", origin=", edgeType, s3);
    UptoReads(',', ", review_state=", origin, s4);
    UptoReads(',', ", confidence=", state, s5);
    UptoReads(']', "]\n", r.confidence, s);
    DecimalRoundTrip(n);
    UnescapeEscape(r.edgeType);
    UnescapeEscape(r.origin);
    UnescapeEscape(r.reviewState);
  }

  lemma HeadingPieces(n: string, edgeType: string, origin: string, state: string, confidence: string, s: string)
    ensures "[REL " + n + ": " + edgeType
            + (Attribute("origin", origin) + Attribute("review_state", state) + Attribute("confidence", confidence)) + "]\n" + s
            == "[REL " + (n + (": " + (edgeType + (", origin=" + (origin + (", review_state=" + (state
               + (", confidence=" + (confidence + ("]\n" + s))))))))))
  {
    AttributePieces(origin, state, confidence, "]\n" + s);
    Regroup4("[REL ", n, ": ", edgeType);
    var front := "[REL " + n + ": " + edgeType;
    var attributes := Attribute("origin", origin) + Attribute("review_state", state) + Attribute("confidence", confidence);
    assert front + attributes + "]\n" + s == front + (attributes + ("]\n" + s));
    var rest := attributes + ("]\n" + s);
    assert front + rest == "[REL " + (n + (": " + (edgeType + rest)));
  }

  lemma AttributePieces(origin: string, state: string, confidence: string, s: string)
    ensures Attribute("origin", origin) + Attribute("review_state", state) + Attribute("confidence", confidence) + s
            == ", origin=" + (origin + (", review_state=" + (state + (", confidence=" + (confidence + s)))))
  {
    assert Attribute("origin", origin) == ", origin=" + origin;
    assert Attribute("review_state", state) == ", review_state=" + state;
    assert Attribute("confidence", confidence) == ", confidence=" + confidence;
    SixPieces(", origin=", origin, ", review_state=", state, ", confidence=", confidence, s);
  }

  lemma SixPieces(a: string, b: string, c: string, d: string, e: string, f: string, s: string)
    ensures (a + b) + (c + d) + (e + f) + s == a + (b + (c + (d + (e + (f + s)))))
  {
  }

  lemma {:induction false} ReadsEnds(left: Endpoint, x: nat, right: Endpoint, y: nat, s: string)
    ensures ReadEnds(EndpointLine("A", x, left.heading) + (EndpointLine("B", y, right.heading) + s))
            == Ok(((EndpointRead(x, HeadingText(left)), EndpointRead(y, HeadingText(right))), s))
  {
    ReadsA(x, left, EndpointLine("B", y, right.heading) + s);
    ReadsB(y, right, s);
    EndsParts(EndpointLine("A", x, left.heading) + (EndpointLine("B", y, right.heading) + s), EndpointLine("B", y, right.heading) + s, s,
              EndpointRead(x, HeadingText(left)), EndpointRead(y, HeadingText(right)));
  }

  lemma {:induction false} ReadsA(n: nat, e: Endpoint, s: string)
    ensures ReadA(EndpointLine("A", n, e.heading) + s) == Ok((EndpointRead(n, HeadingText(e)), s))
  {
    ReadsEndpoint("A", "Endpoint A [SRC ", n, e, s);
  }

  lemma {:induction false} ReadsB(n: nat, e: Endpoint, s: string)
    ensures ReadB(EndpointLine("B", n, e.heading) + s) == Ok((EndpointRead(n, HeadingText(e)), s))
  {
    ReadsEndpoint("B", "Endpoint B [SRC ", n, e, s);
  }

  lemma EndsParts(block: string, s1: string, s: string, a: EndpointRead, b: EndpointRead)
    requires ReadA(block) == Ok((a, s1)) && ReadB(s1) == Ok((b, s))
    ensures ReadEnds(block) == Ok(((a, b), s))
  {
  }

  lemma {:induction false} ReadsTail(r: Relationship, x: nat, y: nat, s: string)
    requires Delimited(r)
    ensures ReadTail(Direction(r, x, y) + ("\n" + s))
            == Ok((if r.direction == "symmetric" then None else Some(Arrow(x, r.edgeType, y)), s))
  {
    ReadsArrow(r, x, y, "\n" + s);
    AfterReads("\n", s);
  }

  lemma ReadsParts(
    block: string, s1: string, s2: string, s: string, heading: HeadingRead, a: EndpointRead, b: EndpointRead, arrow: Option<Arrow>)
    requires ReadHeading(block) == Ok((heading, s1)) && ReadEnds(s1) == Ok(((a, b), s2)) && ReadTail(s2) == Ok((arrow, s))
    ensures ReadRelation(block) == Ok((Relation(heading, a, b, arrow), s))
  {
  }

  lemma {:induction false} ReadsFrom(n: nat, r: Relationship, left: Endpoint, x: nat, right: Endpoint, y: nat, block: string, s: string)
    requires Delimited(r)
    requires block == Heading(n, r) + (EndpointLine("A", x, left.heading) + (EndpointLine("B", y, right.heading) + (Direction(r, x, y) + ("\n" + s))))
    ensures ReadRelation(block) == Ok((From(n, r, left, x, right, y), s))
  {
    var s2 := Direction(r, x, y) + ("\n" + s);
    var s1 := EndpointLine("A", x, left.heading) + (EndpointLine("B", y, right.heading) + s2);
    ReadsHeading(n, r, s1);
    ReadsEnds(left, x, right, y, s2);
    ReadsTail(r, x, y, s);
    ReadsParts(block, s1, s2, s, HeadingRead(n, r.edgeType, r.origin, r.reviewState, r.confidence),
               EndpointRead(x, HeadingText(left)), EndpointRead(y, HeadingText(right)),
               if r.direction == "symmetric" then None else Some(Arrow(x, r.edgeType, y)));
  }

  /** A relationship block is read as it is meant, whatever follows. */
  lemma ReadsRelation(n: nat, r: Relationship, x: nat, y: nat, s: string)
    requires Delimited(r)
    ensures ReadRelation(RelationshipBlock(n, r, x, y) + s) == Ok((Meant(Rel(n, r, x, y)), s))
  {
    var block := RelationshipBlock(n, r, x, y) + s;
    if LeftIsFirst(r) {
      BlockPieces(Heading(n, r), EndpointLine("A", x, r.endpoint0.heading), EndpointLine("B", y, r.endpoint1.heading), Direction(r, x, y), s);
      ReadsFrom(n, r, r.endpoint0, x, r.endpoint1, y, block, s);
    } else {
      BlockPieces(Heading(n, r), EndpointLine("A", y, r.endpoint1.heading), EndpointLine("B", x, r.endpoint0.heading), Direction(r, y, x), s);
      ReadsFrom(n, r, r.endpoint1, y, r.endpoint0, x, block, s);
    }
  }

  lemma BlockPieces(a: string, b: string, c: string, d: string, s: string)
    ensures a + b + c + d + "\n" + s == a + (b + (c + (d + ("\n" + s))))
  {
  }

  /** A relationship block is not taken for a source. */
  lemma RelationIsNoSource(n: nat, r: Relationship, rest: string, block: string)
    requires block == Heading(n, r) + rest
    ensures DecodeChunk(block) == None
  {
    HeadingFront(n, r);
    assert block[1] == Heading(n, r)[1];
    NoSource(block);
  }

  lemma RelationInFront(n: nat, r: Relationship, x: nat, y: nat, s: string)
    ensures DecodeChunk(RelationshipBlock(n, r, x, y) + s) == None
  {
    var (left, right) := if LeftIsFirst(r) then (x, y) else (y, x);
    var (l, m) := if LeftIsFirst(r) then (r.endpoint0, r.endpoint1) else (r.endpoint1, r.endpoint0);
    BlockPieces(Heading(n, r), EndpointLine("A", left, l.heading), EndpointLine("B", right, m.heading), Direction(r, left, right), s);
    RelationIsNoSource(n, r, EndpointLine("A", left, l.heading) + (EndpointLine("B", right, m.heading) + (Direction(r, left, right) + ("\n" + s))),
                       RelationshipBlock(n, r, x, y) + s);
  }

  lemma NoSource(block: string)
    requires |block| > 1 && block[1] == 'R'
    ensures DecodeChunk(block) == None
  {
    assert "[SRC "[1] == 'S';
  }

  lemma HeadingFront(n: nat, r: Relationship)
    ensures |Heading(n, r)| > 1 && Heading(n, r)[1] == 'R'
  {
    assert "[REL "[1] == 'R';
  }

  lemma QueryIsNoBlock(query: string)
    ensures DecodeChunk(QueryBlock(query)) == None && ReadRelation(QueryBlock(query)) == Err(())
  {
    assert QueryBlock(query)[0] == 'Q';
  }

  /** Whatever the chunks, headings and question say, a whole prompt reads as it is meant. */
  lemma {:induction false} PromptReads(blocks: seq<Block>, query: string)
    requires forall b :: b in blocks && b.Rel? ==> Delimited(b.rel)
    ensures ReadAll(RenderAll(blocks) + QueryBlock(query)) == (AllMeant(blocks), QueryBlock(query))
  {
    if blocks == [] {
      assert RenderAll(blocks) + QueryBlock(query) == QueryBlock(query);
      QueryIsNoBlock(query);
    } else {
      var b, rest := blocks[0], RenderAll(blocks[1..]) + QueryBlock(query);
      Regroup(Render(b), RenderAll(blocks[1..]), QueryBlock(query));
      PromptReads(blocks[1..], query);
      if b.Src? {
        DecodeOne(b.n, b.text, rest);
      } else {
        RelationInFront(b.n, b.rel, b.a, b.b, rest);
        ReadsRelation(b.n, b.rel, b.a, b.b, rest);
      }
    }
  }

  // ---- Why the separators matter ----

  lemma {:induction false} EscapeConcat(s: string, t: string)
    ensures Escape(s + t) == Escape(s) + Escape(t)
  {
    if s == [] {
      assert s + t == t;
    } else {
      assert (s + t)[1..] == s[1..] + t;
      EscapeConcat(s[1..], t);
    }
  }

  lemma {:induction false} PlainStays(s: string)
    requires forall c :: c in s ==> EscapeChar(c) == [c]
    ensures Escape(s) == s
  {
    if s != [] {
      PlainStays(s[1..]);
    }
  }

  lemma EscapeAround(s: string, mid: string, t: string)
    requires forall c :: c in mid ==> EscapeChar(c) == [c]
    ensures Escape(s + mid + t) == Escape(s) + mid + Escape(t)
  {
    EscapeConcat(s + mid, t);
    EscapeConcat(s, mid);
    PlainStays(mid);
  }

  lemma SeparatorsMeet(t: string, o: string, p: string, mid: string)
    requires forall c :: c in mid ==> EscapeChar(c) == [c]
    ensures Escape(t + mid + o) + (mid + Escape(p)) == Escape(t) + (mid + Escape(o + mid + p))
  {
    EscapeAround(t, mid, o);
    EscapeAround(o, mid, p);
    FiveParts(Escape(t), mid, Escape(o), Escape(p));
  }

  lemma FiveParts(t: string, mid: string, o: string, p: string)
    ensures t + mid + o + (mid + p) == t + (mid + (o + mid + p))
  {
  }

  lemma HeadingParts(n: nat, r: Relationship, front: string, mid: string, tail: string)
    requires front == "[REL " + Decimal(n) + ": " && mid == ", " + "origin" + "="
    requires tail == Attribute("review_state", Escape(r.reviewState)) + Attribute("confidence", r.confidence)
    ensures Heading(n, r) == front + (Escape(r.edgeType) + (mid + Escape(r.origin))) + tail + "]\n"
  {
    Regroups(front, Escape(r.edgeType), mid, Escape(r.origin), Attribute("review_state", Escape(r.reviewState)),
             Attribute("confidence", r.confidence), "]\n");
  }

  lemma Regroups(front: string, t: string, mid: string, o: string, state: string, confidence: string, close: string)
    ensures front + t + (mid + o + state + confidence) + close == front + (t + (mid + o)) + (state + confidence) + close
  {
  }

  lemma SameHeading(n: nat, r1: Relationship, r2: Relationship, mid: string)
    requires mid == ", " + "origin" + "=" && r1.reviewState == r2.reviewState && r1.confidence == r2.confidence
    requires Escape(r1.edgeType) + (mid + Escape(r1.origin)) == Escape(r2.edgeType) + (mid + Escape(r2.origin))
    ensures Heading(n, r1) == Heading(n, r2)
  {
    var front := "[REL " + Decimal(n) + ": ";
    var tail := Attribute("review_state", Escape(r1.reviewState)) + Attribute("confidence", r1.confidence);
    HeadingParts(n, r1, front, mid, tail);
    HeadingParts(n, r2, front, mid, tail);
  }

  lemma SameBlock(n: nat, r1: Relationship, r2: Relationship, x: nat, y: nat)
    requires Heading(n, r1) == Heading(n, r2) && r1.direction == r2.direction == "symmetric"
    requires r1.endpoint0 == r2.endpoint0 && r1.endpoint1 == r2.endpoint1
    ensures RelationshipBlock(n, r1, x, y) == RelationshipBlock(n, r2, x, y)
  {
  }

  /** With a separator inside a field two different relationships are written alike. */
  lemma SeparatorsMatter(n: nat, r: Relationship, x: nat, y: nat, t: string, o: string, p: string, mid: string)
    requires r.direction == "symmetric" && mid == ", " + "origin" + "="
    ensures t != t + mid + o
    ensures RelationshipBlock(n, r.(edgeType := t + mid + o, origin := p), x, y)
            == RelationshipBlock(n, r.(edgeType := t, origin := o + mid + p), x, y)
  {
    var r1, r2 := r.(edgeType := t + mid + o, origin := p), r.(edgeType := t, origin := o + mid + p);
    assert |t + mid + o| > |t|;
    SeparatorsMeet(t, o, p, mid);
    SameHeading(n, r1, r2, mid);
    SameBlock(n, r1, r2, x, y);
  }
}
