/** Ordinary formatted text makes the round trip, said of the bytes and styles it is made of. */
module IrcPlain {
  import opened IrcFmt

  /** A byte of ordinary text: a tab, or nothing a terminal or the wire takes for a control. */
  predicate Ordinary(b: byte) { b == 0x09 || (b >= 0x20 && b != 0x7f) }

  /** Ordinary bytes that do not begin with a comma, and no 0xc2 that would make a C1 control
      with the byte behind it, in this text or the next. */
  predicate OrdinaryText(text: seq<byte>) {
    && (forall k | 0 <= k < |text| :: Ordinary(text[k]))
    && (forall k | 0 <= k < |text| - 1 :: text[k] == 0xc2 ==> text[k + 1] > 0x9f)
    && (text != [] ==> text[0] != 0x2c && text[|text| - 1] != 0xc2)
  }

  predicate Coloured(c: Colour) { c == None || c.value < 99 }

  predicate OrdinarySpan(span: Span) {
    OrdinaryText(span.text) && Coloured(span.attrs.fg) && Coloured(span.attrs.bg)
  }

  predicate OrdinaryLine(line: Line) { forall k | 0 <= k < |line| :: OrdinarySpan(line[k]) }

  /** What is written: each byte in its span's own style, and a break between lines. */
  function Said(line: Line): seq<Cell> {
    if line == [] then []
    else
      var text, a := line[0].text, line[0].attrs;
      seq(|text|, k requires 0 <= k < |text| => Cell(text[k], a)) + Said(line[1..])
  }

  function SaidTail(lines: seq<Line>): seq<Cell> {
    if lines == [] then [] else [Break] + Said(lines[0]) + SaidTail(lines[1..])
  }

  function SaidOn(doc: seq<Line>): seq<Cell> { if doc == [] then [] else Said(doc[0]) + SaidTail(doc[1..]) }

  // ----- What is said is what is meant -----

  lemma {:induction false} CellsAre(text: seq<byte>, a: Attrs)
    ensures Cells(text, a) == seq(|text|, k requires 0 <= k < |text| => Cell(text[k], a))
  {
    if text != [] {
      CellsAre(text[1..], a);
    }
  }

  lemma {:induction false} LineIsSaid(line: Line)
    requires OrdinaryLine(line)
    ensures LineCells(line) == Said(line)
  {
    if line != [] {
      assert OrdinarySpan(line[0]);
      CellsAre(line[0].text, line[0].attrs);
      LineIsSaid(line[1..]);
    }
  }

  lemma {:induction false} TailIsSaid(lines: seq<Line>)
    requires forall line | line in lines :: OrdinaryLine(line)
    ensures MeaningTail(lines) == SaidTail(lines)
  {
    hide OrdinaryLine;
    if lines != [] {
      LineIsSaid(lines[0]);
      TailIsSaid(lines[1..]);
    }
  }

  // ----- Ordinary text is safe -----

  lemma JoinedIsOrdinary(a: seq<byte>, b: seq<byte>)
    requires OrdinaryText(a) && OrdinaryText(b) && a != [] && b != []
    ensures OrdinaryText(a + b)
  {
    var t := a + b;
    forall k | 0 <= k < |t| - 1 && t[k] == 0xc2
      ensures t[k + 1] > 0x9f
    {
      if k >= |a| {
        assert b[k - |a|] == 0xc2 && b[k - |a| + 1] == t[k + 1];
      } else {
        assert a[k] == 0xc2 && a[k + 1] == t[k + 1];
      }
    }
  }

  lemma {:induction false} NormalIsOrdinary(line: Line)
    requires OrdinaryLine(line)
    ensures OrdinaryLine(NormaliseLine(line))
  {
    if line != [] {
      var rest := NormaliseLine(line[1..]);
      NormalIsOrdinary(line[1..]);
      hide OrdinaryText;
      if line[0].text != [] && rest != [] && rest[0].attrs == line[0].attrs {
        JoinedIsOrdinary(line[0].text, rest[0].text);
      }
    }
  }

  lemma OrdinaryIsSafe(span: Span, from: Attrs)
    requires OrdinarySpan(span)
    ensures SpanSafe(from, span)
  {
    assert forall k | 0 <= k < |span.text| :: Ordinary(span.text[k]);
  }

  lemma {:induction false} OrdinaryLineIsSafe(line: Line, from: Attrs)
    requires OrdinaryLine(line)
    ensures LineSafe(line, from)
  {
    hide OrdinarySpan, SpanSafe;
    if line != [] {
      OrdinaryIsSafe(line[0], from);
      OrdinaryLineIsSafe(line[1..], line[0].attrs);
    }
  }

  lemma {:induction false} OrdinaryLinesAreSafe(lines: seq<Line>)
    requires forall line | line in lines :: OrdinaryLine(line)
    ensures LinesSafe(NormaliseLines(lines))
  {
    hide OrdinaryLine, LineSafe;
    if lines != [] {
      NormalIsOrdinary(lines[0]);
      OrdinaryLineIsSafe(NormaliseLine(lines[0]), PLAIN);
      OrdinaryLinesAreSafe(lines[1..]);
    }
  }

  lemma EmptyIsSafe()
    ensures LinesSafe([[]])
  {
  }

  /** Ordinary text in any styles is read back as it was written. */
  lemma OrdinaryTextRoundTrips(doc: seq<Line>)
    requires forall line | line in doc :: OrdinaryLine(line)
    ensures Read(EncodeLines(Normalise(doc)), 0, PLAIN) == SaidOn(doc)
  {
    hide Read, EncodeLines, OrdinaryLine, NormaliseLine, LineSafe;
    OrdinaryLinesAreSafe(doc);
    if doc == [] {
      EmptyIsSafe();
    } else {
      LineIsSaid(doc[0]);
      TailIsSaid(doc[1..]);
    }
    RoundTripsExactlyWhenSafe(doc);
  }
}
