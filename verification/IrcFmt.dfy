/** IRC formatting codes: the wire reader `Parse`, the printer `Encode`, and exactly
    which documents survive the trip through both. */
module IrcFmt {
  newtype byte = x: int | 0 <= x < 256

  const BOLD: byte := 0x02
  const COLOUR: byte := 0x03
  const RESET: byte := 0x0f
  const REVERSE: byte := 0x16
  const ITALIC: byte := 0x1d
  const STRIKE: byte := 0x1e
  const UNDERLINE: byte := 0x1f
  const NEWLINE: byte := 0x0a
  const TAB: byte := 0x09
  const COMMA: byte := 0x2c
  const DEFAULT_COLOUR: byte := 99

  datatype Colour = None | Index(value: byte)

  datatype Attrs = Attrs(bold: bool, italic: bool, underline: bool, reverse: bool, strike: bool, fg: Colour, bg: Colour)

  const PLAIN := Attrs(false, false, false, false, false, None, None)

  datatype Span = Span(text: seq<byte>, attrs: Attrs)
  type Line = seq<Span>

  // ----- What a document says: its bytes, each with the style it is shown in, and its line breaks -----

  datatype Cell = Cell(text: byte, attrs: Attrs) | Break

  function NormaliseColour(c: Colour): Colour {
    if c == Index(DEFAULT_COLOUR) then None else c
  }

  /** The style a reader of the wire sees: colour 99 and no colour are one thing. */
  function Shown(a: Attrs): Attrs {
    a.(fg := NormaliseColour(a.fg), bg := NormaliseColour(a.bg))
  }

  function Cells(text: seq<byte>, a: Attrs): (r: seq<Cell>)
    ensures |r| == |text|
  {
    if text == [] then [] else [Cell(text[0], a)] + Cells(text[1..], a)
  }

  function LineCells(line: Line): seq<Cell> {
    if line == [] then [] else Cells(line[0].text, Shown(line[0].attrs)) + LineCells(line[1..])
  }

  function MeaningTail(lines: seq<Line>): seq<Cell> {
    if lines == [] then [] else [Break] + LineCells(lines[0]) + MeaningTail(lines[1..])
  }

  /** What a document means to a reader; an empty document is one empty line. */
  function Meaning(doc: seq<Line>): seq<Cell> {
    if doc == [] then [] else LineCells(doc[0]) + MeaningTail(doc[1..])
  }

  // ----- Normal form, which a document is brought to before it is encoded -----

  function NormaliseLine(line: Line): (r: Line)
    ensures NormalLine(r)
  {
    if line == [] then []
    else
      var rest := NormaliseLine(line[1..]);
      if line[0].text == [] then rest
      else if rest != [] && rest[0].attrs == line[0].attrs then
        [Span(line[0].text + rest[0].text, line[0].attrs)] + rest[1..]
      else [line[0]] + rest
  }

  function NormaliseLines(lines: seq<Line>): (r: seq<Line>)
    ensures |r| == |lines| && NormalLines(r)
  {
    if lines == [] then [] else [NormaliseLine(lines[0])] + NormaliseLines(lines[1..])
  }

  function Normalise(doc: seq<Line>): (r: seq<Line>)
    ensures |r| > 0 && NormalLines(r)
  {
    if doc == [] then [[]] else NormaliseLines(doc)
  }

  predicate NormalLine(line: Line) {
    && (forall i | 0 <= i < |line| :: line[i].text != [])
    && (forall i | 0 < i < |line| :: line[i - 1].attrs != line[i].attrs)
  }

  predicate NormalLines(lines: seq<Line>) {
    lines != [] ==> NormalLine(lines[0]) && NormalLines(lines[1..])
  }

  lemma {:induction false} CellsConcat(s: seq<byte>, t: seq<byte>, a: Attrs)
    ensures Cells(s + t, a) == Cells(s, a) + Cells(t, a)
  {
    if s == [] {
      assert s + t == t;
    } else {
      CellsConcat(s[1..], t, a);
      assert (s + t)[1..] == s[1..] + t;
    }
  }

  lemma CellsAppend(s: seq<byte>, b: byte, a: Attrs)
    ensures Cells(s + [b], a) == Cells(s, a) + [Cell(b, a)]
  {
    CellsConcat(s, [b], a);
  }

  lemma {:induction false} NormaliseLineKeepsCells(line: Line)
    ensures LineCells(NormaliseLine(line)) == LineCells(line)
  {
    if line != [] {
      NormaliseLineKeepsCells(line[1..]);
      var rest := NormaliseLine(line[1..]);
      if line[0].text != [] && rest != [] && rest[0].attrs == line[0].attrs {
        CellsConcat(line[0].text, rest[0].text, Shown(line[0].attrs));
      }
    }
  }

  lemma {:induction false} NormaliseKeepsTail(lines: seq<Line>)
    ensures MeaningTail(NormaliseLines(lines)) == MeaningTail(lines)
  {
    if lines != [] {
      NormaliseLineKeepsCells(lines[0]);
      NormaliseKeepsTail(lines[1..]);
    }
  }

  /** Dropping empty spans and merging equal neighbours changes nothing a reader sees. */
  lemma NormaliseKeepsMeaning(doc: seq<Line>)
    ensures Meaning(Normalise(doc)) == Meaning(doc)
  {
    if doc != [] {
      NormaliseLineKeepsCells(doc[0]);
      NormaliseKeepsTail(doc[1..]);
    }
  }

  // ----- The wire format, as a reader that consumes one code or byte at a time -----

  predicate IsDigit(b: byte) { 0x30 <= b <= 0x39 }

  predicate IsControl(b: byte) { (b < 0x20 || b == 0x7f) && b != TAB }

  predicate IsFormat(b: byte) {
    b == BOLD || b == ITALIC || b == UNDERLINE || b == REVERSE || b == STRIKE || b == RESET
  }

  /** The two-byte UTF-8 form of a C1 control at position `i`. */
  predicate IsC1(s: seq<byte>, i: nat) {
    i + 1 < |s| && s[i] == 0xc2 && 0x80 <= s[i + 1] <= 0x9f
  }

  function StripLen(s: seq<byte>, i: nat): nat
    requires i < |s|
  {
    if IsControl(s[i]) then 1 else if IsC1(s, i) then 2 else 0
  }

  function Apply(a: Attrs, code: byte): Attrs {
    if code == BOLD then a.(bold := !a.bold)
    else if code == ITALIC then a.(italic := !a.italic)
    else if code == UNDERLINE then a.(underline := !a.underline)
    else if code == REVERSE then a.(reverse := !a.reverse)
    else if code == STRIKE then a.(strike := !a.strike)
    else if code == RESET then PLAIN
    else a
  }

  datatype Code = NoCode | Code(next: nat, value: byte)

  predicate DigitAt(s: seq<byte>, i: nat) { i < |s| && IsDigit(s[i]) }

  /** One or two digits at position `i`. */
  function ParseColourCode(s: seq<byte>, i: nat): (c: Code)
    ensures c.Code? ==> i < c.next <= i + 2 && c.next <= |s| && c.value <= 99
  {
    if !DigitAt(s, i) then NoCode
    else if DigitAt(s, i + 1) then Code(i + 2, 10 * (s[i] - 0x30) + (s[i + 1] - 0x30))
    else Code(i + 1, s[i] - 0x30)
  }

  datatype Colours = Colours(next: nat, fg: Colour, bg: Colour)

  /** The colours named from position `i` on, and where the naming ends. */
  function ParseColours(s: seq<byte>, i: nat): (c: Colours)
    requires i <= |s|
    ensures i <= c.next <= |s| && ShowableColour(c.fg) && ShowableColour(c.bg)
  {
    var first := ParseColourCode(s, i);
    if first.NoCode? then Colours(i, None, None)
    else
      var fg := NormaliseColour(Index(first.value));
      if first.next < |s| && s[first.next] == COMMA && ParseColourCode(s, first.next + 1).Code? then
        var second := ParseColourCode(s, first.next + 1);
        Colours(second.next, fg, NormaliseColour(Index(second.value)))
      else Colours(first.next, fg, None)
  }

  /** One step of reading: where it ends, the style in force afterwards, and what is shown. */
  datatype Token = Token(next: nat, attrs: Attrs, out: seq<Cell>)

  function Next(s: seq<byte>, i: nat, a: Attrs): (t: Token)
    requires i < |s|
    ensures i < t.next <= |s|
  {
    if s[i] == NEWLINE then Token(i + 1, a, [Break])
    else if IsFormat(s[i]) then Token(i + 1, Apply(a, s[i]), [])
    else if s[i] == COLOUR then
      var c := ParseColours(s, i + 1);
      Token(c.next, a.(fg := c.fg, bg := c.bg), [])
    else if StripLen(s, i) > 0 then Token(i + StripLen(s, i), a, [])
    else Token(i + 1, a, [Cell(s[i], a)])
  }

  /** What `s` says from position `i` on, when the style in force is `a`. */
  function Read(s: seq<byte>, i: nat, a: Attrs): seq<Cell>
    requires i <= |s|
    decreases |s| - i
  {
    if i == |s| then []
    else
      var t := Next(s, i, a);
      t.out + Read(s, t.next, t.attrs)
  }

  predicate ShowableColour(c: Colour) { c.Index? ==> c.value < DEFAULT_COLOUR }

  predicate Showable(a: Attrs) { ShowableColour(a.fg) && ShowableColour(a.bg) }

  predicate Displayable(c: Cell) { c.Cell? ==> !IsControl(c.text) && Showable(c.attrs) }

  lemma NextIsDisplayable(s: seq<byte>, i: nat, a: Attrs)
    requires i < |s| && Showable(a)
    ensures Showable(Next(s, i, a).attrs)
    ensures forall k | 0 <= k < |Next(s, i, a).out| :: Displayable(Next(s, i, a).out[k])
  {
  }

  /** Nothing read off the wire is a C0 control, a colour out of range, or the default-colour sentinel. */
  lemma {:induction false} ReadIsDisplayable(s: seq<byte>, i: nat, a: Attrs)
    requires i <= |s| && Showable(a)
    ensures forall k | 0 <= k < |Read(s, i, a)| :: Displayable(Read(s, i, a)[k])
    decreases |s| - i
  {
    if i < |s| {
      var t := Next(s, i, a);
      NextIsDisplayable(s, i, a);
      ReadIsDisplayable(s, t.next, t.attrs);
      hide Next, Displayable;
    }
  }

  // ----- Parse -----

  function RawLineCells(line: Line): seq<Cell> {
    if line == [] then [] else RawLineCells(line[..|line| - 1]) + Cells(line[|line| - 1].text, line[|line| - 1].attrs)
  }

  /** What parsed lines hold, span by span, exactly as stored. */
  function Stored(lines: seq<Line>): seq<Cell>
    requires |lines| > 0
  {
    if |lines| == 1 then RawLineCells(lines[0])
    else Stored(lines[..|lines| - 1]) + [Break] + RawLineCells(lines[|lines| - 1])
  }

  predicate NoEmptySpan(lines: seq<Line>) {
    forall line, span | line in lines && span in line :: span.text != []
  }

  method FlushSpan(lines: seq<Line>, text: seq<byte>, a: Attrs) returns (r: seq<Line>)
    requires |lines| > 0
    ensures |r| == |lines| && Stored(r) == Stored(lines) + Cells(text, a)
    ensures NoEmptySpan(lines) ==> NoEmptySpan(r)
  {
    r := lines;
    if text != [] {
      var n := |lines| - 1;
      r := lines[..n] + [lines[n] + [Span(text, a)]];
      assert r[n][..|lines[n]|] == lines[n];
      assert r[..n] == lines[..n];
    }
  }

  lemma NewLineKeeps(lines: seq<Line>)
    requires |lines| > 0
    ensures Stored(lines + [[]]) == Stored(lines) + [Break]
    ensures NoEmptySpan(lines) ==> NoEmptySpan(lines + [[]])
  {
    assert (lines + [[]])[..|lines|] == lines;
  }

  lemma ReadStep(raw: seq<byte>, i: nat, a: Attrs, shown: seq<Cell>)
    requires i < |raw|
    ensures var t := Next(raw, i, a); shown + t.out + Read(raw, t.next, t.attrs) == shown + Read(raw, i, a)
  {
    var t := Next(raw, i, a);
    assert Read(raw, i, a) == t.out + Read(raw, t.next, t.attrs);
    hide Next, Read;
  }

  /** One turn of the scan: a code closes the pending span, a stripped control
      is skipped, and any other byte joins the pending span. */
  method ScanStep(raw: seq<byte>, index: nat, lines: seq<Line>, text: seq<byte>, current: Attrs)
    returns (next: nat, lines': seq<Line>, text': seq<byte>, current': Attrs)
    requires index < |raw| && |lines| > 0
    ensures |lines'| > 0 && (NoEmptySpan(lines) ==> NoEmptySpan(lines'))
    ensures var t := Next(raw, index, current);
      && next == t.next && current' == t.attrs
      && Stored(lines') + Cells(text', current') == Stored(lines) + Cells(text, current) + t.out
  {
    var r := raw[index];
    next, lines', text', current' := index + 1, lines, [], current;
    if r == NEWLINE {
      lines' := FlushSpan(lines, text, current);
      NewLineKeeps(lines');
      lines' := lines' + [[]];
    } else if IsFormat(r) {
      lines' := FlushSpan(lines, text, current);
      current' := Apply(current, r);
    } else if r == COLOUR {
      lines' := FlushSpan(lines, text, current);
      var c := ParseColours(raw, index + 1);
      next, current' := c.next, current.(fg := c.fg, bg := c.bg);
    } else if StripLen(raw, index) > 0 {
      next, text' := index + StripLen(raw, index), text;
    } else {
      CellsAppend(text, r, current);
      text' := text + [r];
    }
  }

  /** Scans the wire once, closing a span at every code and a line at every newline. */
  method Parse(raw: seq<byte>) returns (lines: seq<Line>)
    ensures |lines| > 0 && Stored(lines) == Read(raw, 0, PLAIN)
    ensures NoEmptySpan(lines)
  {
    lines := [[]];
    var current := PLAIN;
    var spanText: seq<byte> := [];
    var index := 0;
    while index < |raw|
      invariant 0 <= index <= |raw| && |lines| > 0
      invariant Stored(lines) + Cells(spanText, current) + Read(raw, index, current) == Read(raw, 0, PLAIN)
      invariant NoEmptySpan(lines)
    {
      ReadStep(raw, index, current, Stored(lines) + Cells(spanText, current));
      index, lines, spanText, current := ScanStep(raw, index, lines, spanText, current);
    }
    lines := FlushSpan(lines, spanText, current);
  }

  // ----- Encode -----

  function FormatInt(n: byte): seq<byte>
    requires n < 100
  {
    if n < 10 then [0x30 + n] else [0x30 + n / 10, 0x30 + n % 10]
  }

  function FormatColour(c: byte): seq<byte> {
    FormatInt(c / 10) + FormatInt(c % 10)
  }

  /** Foreground digits are always written, with 99 standing for no foreground. */
  function ColourCodes(fg: Colour, bg: Colour): seq<byte> {
    FormatColour(if NormaliseColour(fg).Index? then fg.value else DEFAULT_COLOUR)
    + if NormaliseColour(bg).Index? then [COMMA] + FormatColour(bg.value) else []
  }

  predicate NeedsReset(from: Attrs, to: Attrs) {
    || (from.bold && !to.bold) || (from.italic && !to.italic) || (from.underline && !to.underline)
    || (from.reverse && !to.reverse) || (from.strike && !to.strike)
  }

  /** The style the toggles of a transition start from. */
  function Base(from: Attrs, to: Attrs): Attrs {
    if NeedsReset(from, to) then PLAIN else from
  }

  function Opt(wanted: bool, code: byte): seq<byte> { if wanted then [code] else [] }

  predicate ChangesColour(from: Attrs, to: Attrs) {
    Base(from, to).fg != to.fg || Base(from, to).bg != to.bg
  }

  function FormatCodes(from: Attrs, to: Attrs): seq<byte> {
    var b := Base(from, to);
    Opt(NeedsReset(from, to), RESET)
    + Opt(b.bold != to.bold, BOLD) + Opt(b.italic != to.italic, ITALIC) + Opt(b.underline != to.underline, UNDERLINE)
    + Opt(b.reverse != to.reverse, REVERSE) + Opt(b.strike != to.strike, STRIKE)
  }

  function ColourPart(from: Attrs, to: Attrs): seq<byte> {
    if ChangesColour(from, to) then [COLOUR] + ColourCodes(to.fg, to.bg) else []
  }

  /** The codes that take a reader from one style to another. */
  function Transition(from: Attrs, to: Attrs): seq<byte> {
    FormatCodes(from, to) + ColourPart(from, to)
  }

  function EncodeLine(line: Line, from: Attrs): seq<byte> {
    if line == [] then Opt(from != PLAIN, RESET)
    else Transition(from, line[0].attrs) + line[0].text + EncodeLine(line[1..], line[0].attrs)
  }

  function EncodeTail(lines: seq<Line>): seq<byte> {
    if lines == [] then [] else [NEWLINE] + EncodeLine(lines[0], PLAIN) + EncodeTail(lines[1..])
  }

  function EncodeLines(lines: seq<Line>): seq<byte>
    requires lines != []
  {
    EncodeLine(lines[0], PLAIN) + EncodeTail(lines[1..])
  }

  /** Writes one code if it is wanted. */
  method WriteIf(wanted: bool, code: byte, builder: seq<byte>) returns (out: seq<byte>)
    ensures out == builder + Opt(wanted, code)
  {
    out := if wanted then builder + [code] else builder;
  }

  method WriteFormats(from: Attrs, to: Attrs) returns (codes: seq<byte>, now: Attrs)
    ensures codes == FormatCodes(from, to) && now == to.(fg := now.fg, bg := now.bg)
    ensures now.fg == Base(from, to).fg && now.bg == Base(from, to).bg
  {
    now := from;
    codes := [];
    codes := WriteIf(NeedsReset(from, to), RESET, codes);
    if NeedsReset(from, to) {
      now := PLAIN;
    }
    codes := WriteIf(now.bold != to.bold, BOLD, codes);
    codes := WriteIf(now.italic != to.italic, ITALIC, codes);
    codes := WriteIf(now.underline != to.underline, UNDERLINE, codes);
    codes := WriteIf(now.reverse != to.reverse, REVERSE, codes);
    codes := WriteIf(now.strike != to.strike, STRIKE, codes);
    now := Attrs(to.bold, to.italic, to.underline, to.reverse, to.strike, now.fg, now.bg);
  }

  method WriteTransition(builder: seq<byte>, from: Attrs, to: Attrs) returns (out: seq<byte>, now: Attrs)
    ensures out == builder + Transition(from, to) && now == to
  {
    if from == to {
      return builder, from;
    }
    var codes;
    codes, now := WriteFormats(from, to);
    if now.fg != to.fg || now.bg != to.bg {
      codes, now := codes + ([COLOUR] + ColourCodes(to.fg, to.bg)), now.(fg := to.fg, bg := to.bg);
    }
    assert codes == Transition(from, to);
    out := builder + codes;
  }

  method WriteLine(builder: seq<byte>, line: Line) returns (out: seq<byte>)
    ensures out == builder + EncodeLine(line, PLAIN)
  {
    out := builder;
    var current := PLAIN;
    var j := 0;
    assert line[0..] == line;
    while j < |line|
      invariant 0 <= j <= |line|
      invariant out + EncodeLine(line[j..], current) == builder + EncodeLine(line, PLAIN)
    {
      EncodeLineStep(out, line[j..], current);
      assert line[j..][1..] == line[j + 1..];
      out, current := WriteTransition(out, current, line[j].attrs);
      out := out + line[j].text;
      j := j + 1;
    }
    out := WriteIf(current != PLAIN, RESET, out);
  }

  lemma EncodeLineStep(out: seq<byte>, line: Line, from: Attrs)
    requires line != []
    ensures out + EncodeLine(line, from)
      == out + Transition(from, line[0].attrs) + line[0].text + EncodeLine(line[1..], line[0].attrs)
  {
    hide Transition;
  }

  lemma EncodeTailStep(out: seq<byte>, lines: seq<Line>, i: nat)
    requires i < |lines|
    ensures out + EncodeTail(lines[i..]) == out + [NEWLINE] + EncodeLine(lines[i], PLAIN) + EncodeTail(lines[i + 1..])
  {
    assert lines[i..][1..] == lines[i + 1..];
    hide EncodeLine;
  }

  method Encode(doc: seq<Line>) returns (out: seq<byte>)
    ensures out == EncodeLines(Normalise(doc))
  {
    hide NormalLine, EncodeLine;
    var lines := Normalise(doc);
    out := WriteLine([], lines[0]);
    var i := 1;
    while i < |lines|
      invariant 1 <= i <= |lines|
      invariant out + EncodeTail(lines[i..]) == EncodeLines(lines)
    {
      EncodeTailStep(out, lines, i);
      out := WriteLine(out + [NEWLINE], lines[i]);
      i := i + 1;
    }
  }

  // ----- Reading back what was written -----

  /** `piece` stands in `s` at position `i`. */
  predicate At(s: seq<byte>, i: nat, piece: seq<byte>) {
    i + |piece| <= |s| && s[i..i + |piece|] == piece
  }

  lemma AtSplit(s: seq<byte>, i: nat, x: seq<byte>, y: seq<byte>)
    requires At(s, i, x + y)
    ensures At(s, i, x) && At(s, i + |x|, y)
  {
    assert x == (x + y)[..|x|];
    assert y == (x + y)[|x|..];
  }

  function ApplyAll(a: Attrs, codes: seq<byte>): Attrs {
    if codes == [] then a else Apply(ApplyAll(a, codes[..|codes| - 1]), codes[|codes| - 1])
  }

  lemma ReadFormat(s: seq<byte>, i: nat, a: Attrs)
    requires i < |s| && IsFormat(s[i])
    ensures Read(s, i, a) == Read(s, i + 1, Apply(a, s[i]))
  {
  }

  predicate AllFormats(codes: seq<byte>) {
    forall k | 0 <= k < |codes| :: IsFormat(codes[k])
  }

  lemma {:induction false} ReadFormats(s: seq<byte>, i: nat, codes: seq<byte>, a: Attrs)
    requires At(s, i, codes) && AllFormats(codes)
    ensures Read(s, i, a) == Read(s, i + |codes|, ApplyAll(a, codes))
  {
    if codes != [] {
      var n := |codes| - 1;
      assert s[i + n] == s[i..i + n + 1][n] == codes[n];
      assert At(s, i, codes[..n]) by {
        assert s[i..i + n] == s[i..i + n + 1][..n];
      }
      ReadFormats(s, i, codes[..n], a);
      ReadFormat(s, i + n, ApplyAll(a, codes[..n]));
    }
    hide Read, Apply, IsFormat;
  }

  lemma ApplyOpt(a: Attrs, codes: seq<byte>, wanted: bool, code: byte)
    ensures ApplyAll(a, codes + Opt(wanted, code)) ==
            if wanted then Apply(ApplyAll(a, codes), code) else ApplyAll(a, codes)
  {
    if wanted {
      assert (codes + [code])[..|codes|] == codes;
    } else {
      assert codes + [] == codes;
    }
  }

  function ApplyIf(a: Attrs, wanted: bool, code: byte): Attrs { if wanted then Apply(a, code) else a }

  lemma ApplyToggles(a: Attrs, c: seq<byte>, bold: bool, italic: bool, underline: bool, reverse: bool, strike: bool)
    ensures ApplyAll(a, c + Opt(bold, BOLD) + Opt(italic, ITALIC) + Opt(underline, UNDERLINE)
                        + Opt(reverse, REVERSE) + Opt(strike, STRIKE))
      == ApplyIf(ApplyIf(ApplyIf(ApplyIf(ApplyIf(ApplyAll(a, c), bold, BOLD), italic, ITALIC), underline, UNDERLINE),
                         reverse, REVERSE),
                 strike, STRIKE)
  {
    ApplyOpt(a, c, bold, BOLD);
    var c1 := c + Opt(bold, BOLD);
    ApplyOpt(a, c1, italic, ITALIC);
    var c2 := c1 + Opt(italic, ITALIC);
    ApplyOpt(a, c2, underline, UNDERLINE);
    var c3 := c2 + Opt(underline, UNDERLINE);
    ApplyOpt(a, c3, reverse, REVERSE);
    ApplyOpt(a, c3 + Opt(reverse, REVERSE), strike, STRIKE);
    hide ApplyAll, Opt, Apply;
  }

  lemma ResetReaches(from: Attrs, to: Attrs)
    ensures ApplyAll(Shown(from), Opt(NeedsReset(from, to), RESET)) == Shown(Base(from, to))
  {
    ApplyOpt(Shown(from), [], NeedsReset(from, to), RESET);
    assert [] + Opt(NeedsReset(from, to), RESET) == Opt(NeedsReset(from, to), RESET);
  }

  lemma TogglesReach(b: Attrs, to: Attrs)
    ensures ApplyIf(ApplyIf(ApplyIf(ApplyIf(ApplyIf(Shown(b), b.bold != to.bold, BOLD), b.italic != to.italic, ITALIC),
        b.underline != to.underline, UNDERLINE), b.reverse != to.reverse, REVERSE), b.strike != to.strike, STRIKE)
      == Shown(to.(fg := b.fg, bg := b.bg))
  {
  }

  /** The toggles of a transition bring the reader to the target's styles, whatever it had on. */
  lemma FormatCodesReach(from: Attrs, to: Attrs)
    ensures ApplyAll(Shown(from), FormatCodes(from, to)) == Shown(Mid(from, to))
  {
    hide ApplyAll, Opt, NeedsReset, Base, Shown, ApplyIf;
    var b := Base(from, to);
    ResetReaches(from, to);
    ApplyToggles(Shown(from), Opt(NeedsReset(from, to), RESET), b.bold != to.bold, b.italic != to.italic,
      b.underline != to.underline, b.reverse != to.reverse, b.strike != to.strike);
    TogglesReach(b, to);
  }

  lemma FormatCodesAreFormats(from: Attrs, to: Attrs)
    ensures AllFormats(FormatCodes(from, to))
  {
    hide Base, NeedsReset;
  }

  predicate InRange(a: Attrs) {
    (a.fg.Index? ==> a.fg.value <= DEFAULT_COLOUR) && (a.bg.Index? ==> a.bg.value <= DEFAULT_COLOUR)
  }

  lemma ReadColourCode(s: seq<byte>, i: nat, c: byte)
    requires c <= DEFAULT_COLOUR && At(s, i, FormatColour(c))
    ensures |FormatColour(c)| == 2 && ParseColourCode(s, i) == Code(i + 2, c)
  {
    assert FormatColour(c) == [0x30 + c / 10, 0x30 + c % 10];
    assert s[i] == s[i..i + 2][0] && s[i + 1] == s[i..i + 2][1];
  }

  /** Digits of the text that follows a foreground-only code and would be read as a background. */
  function Swallow(s: seq<byte>, i: nat): (n: nat)
    ensures n == 0 || (n > 1 && i + n <= |s|)
  {
    if i < |s| && s[i] == COMMA && DigitAt(s, i + 1) then if DigitAt(s, i + 2) then 3 else 2 else 0
  }

  lemma ReadColours(s: seq<byte>, i: nat, fg: Colour, bg: Colour)
    requires InRange(PLAIN.(fg := fg, bg := bg)) && At(s, i, ColourCodes(fg, bg))
    ensures var n := i + |ColourCodes(fg, bg)|;
      var c := ParseColours(s, i);
      && (NormaliseColour(bg) == None ==> c.next == n + Swallow(s, n))
      && (NormaliseColour(bg) != None || Swallow(s, n) == 0 ==>
            c == Colours(n, NormaliseColour(fg), NormaliseColour(bg)))
  {
    var f := if NormaliseColour(fg).Index? then fg.value else DEFAULT_COLOUR;
    var rest := if NormaliseColour(bg).Index? then [COMMA] + FormatColour(bg.value) else [];
    AtSplit(s, i, FormatColour(f), rest);
    ReadColourCode(s, i, f);
    if NormaliseColour(bg).Index? {
      AtSplit(s, i + 2, [COMMA], FormatColour(bg.value));
      assert s[i + 2] == s[i + 2..i + 3][0];
      ReadColourCode(s, i + 3, bg.value);
    }
    hide FormatColour;
  }

  /** Digits at the head of a span's text that a reader takes into the colour code written just before it. */
  function Swallowed(from: Attrs, to: Attrs, text: seq<byte>): nat {
    if ChangesColour(from, to) && NormaliseColour(to.bg) == None then Swallow(text, 0) else 0
  }

  /** The style half way through a transition: the toggles are done and the colours are not. */
  function Mid(from: Attrs, to: Attrs): Attrs {
    to.(fg := Base(from, to).fg, bg := Base(from, to).bg)
  }

  /** The simulation step: a reader in the style shown for `from` is, after the
      codes of a transition, in the style shown for `to`. */
  lemma ReadTransition(s: seq<byte>, i: nat, from: Attrs, to: Attrs)
    requires At(s, i, Transition(from, to)) && InRange(to)
    requires ChangesColour(from, to) && NormaliseColour(to.bg) == None ==> Swallow(s, i + |Transition(from, to)|) == 0
    ensures Read(s, i, Shown(from)) == Read(s, i + |Transition(from, to)|, Shown(to))
  {
    hide Read, FormatCodes, ColourPart, Swallow, At, Shown, Mid, ChangesColour, InRange;
    ReadTransitionFormats(s, i, from, to);
    if ChangesColour(from, to) {
      ReadTransitionColours(s, i + |FormatCodes(from, to)|, from, to);
    } else {
      NoColourPart(from, to);
    }
  }

  lemma NoColourPart(from: Attrs, to: Attrs)
    requires !ChangesColour(from, to)
    ensures Mid(from, to) == to && ColourPart(from, to) == []
  {
  }

  lemma ReadTransitionFormats(s: seq<byte>, i: nat, from: Attrs, to: Attrs)
    requires At(s, i, Transition(from, to))
    ensures i + |FormatCodes(from, to)| <= |s| && At(s, i + |FormatCodes(from, to)|, ColourPart(from, to))
    ensures Read(s, i, Shown(from)) == Read(s, i + |FormatCodes(from, to)|, Shown(Mid(from, to)))
  {
    hide Read, FormatCodes, ColourPart, ApplyAll, AllFormats, Shown, Mid;
    AtSplit(s, i, FormatCodes(from, to), ColourPart(from, to));
    FormatCodesAreFormats(from, to);
    FormatCodesReach(from, to);
    ReadFormats(s, i, FormatCodes(from, to), Shown(from));
  }

  lemma ReadTransitionColours(s: seq<byte>, n: nat, from: Attrs, to: Attrs)
    requires ChangesColour(from, to) && InRange(to) && At(s, n, ColourPart(from, to))
    requires NormaliseColour(to.bg) == None ==> Swallow(s, n + |ColourPart(from, to)|) == 0
    ensures Read(s, n, Shown(Mid(from, to))) == Read(s, n + |ColourPart(from, to)|, Shown(to))
  {
    hide Read, ColourCodes, Swallow, Base, ParseColours, ChangesColour;
    AtSplit(s, n, [COLOUR], ColourCodes(to.fg, to.bg));
    assert s[n] == s[n..n + 1][0];
    ReadColours(s, n + 1, to.fg, to.bg);
    ReadColour(s, n, Shown(Mid(from, to)));
  }

  lemma ReadColour(s: seq<byte>, i: nat, a: Attrs)
    requires i < |s| && s[i] == COLOUR
    ensures var c := ParseColours(s, i + 1); Read(s, i, a) == Read(s, c.next, a.(fg := c.fg, bg := c.bg))
  {
  }

  /** The text a reader keeps: everything but C1 controls. */
  function Kept(text: seq<byte>): (r: seq<byte>)
    ensures |r| <= |text|
  {
    if text == [] then []
    else if IsC1(text, 0) then Kept(text[2..])
    else [text[0]] + Kept(text[1..])
  }

  predicate NoControl(text: seq<byte>) { forall k | 0 <= k < |text| :: !IsControl(text[k]) }

  predicate NoC1(text: seq<byte>) { forall k | 0 <= k < |text| :: !IsC1(text, k) }

  lemma {:induction false} KeptIsAll(text: seq<byte>)
    ensures NoC1(text) ==> Kept(text) == text
    ensures !NoC1(text) ==> |Kept(text)| < |text|
  {
    if text != [] && !IsC1(text, 0) {
      KeptIsAll(text[1..]);
      assert forall k | 0 <= k < |text[1..]| :: IsC1(text[1..], k) == IsC1(text, k + 1);
      if !NoC1(text) {
        var k :| 0 <= k < |text| && IsC1(text, k);
        assert IsC1(text[1..], k - 1);
      }
    }
  }

  /** The end of the wire, or a control byte: what can follow the text of a span. */
  predicate Stops(s: seq<byte>, i: nat) { i >= |s| || IsControl(s[i]) }

  lemma {:induction false} ReadText(s: seq<byte>, i: nat, text: seq<byte>, a: Attrs)
    requires At(s, i, text) && NoControl(text) && Stops(s, i + |text|)
    ensures Read(s, i, a) == Cells(Kept(text), a) + Read(s, i + |text|, a)
    decreases |text|
  {
    if text == [] {
      assert Kept(text) == [];
    } else {
      hide Read, IsControl, At;
      var n := if IsC1(text, 0) then 2 else 1;
      TextParts(s, i, text, n);
      ReadText(s, i + n, text[n..], a);
      ReadTextStep(s, i, a);
    }
  }

  lemma TextParts(s: seq<byte>, i: nat, text: seq<byte>, n: nat)
    requires At(s, i, text) && 0 < n <= |text| && Stops(s, i + |text|)
    ensures At(s, i + n, text[n..]) && s[i] == text[0] && IsC1(s, i) == IsC1(text, 0)
  {
    var t := s[i..i + |text|];
    assert text == text[..n] + text[n..];
    AtSplit(s, i, text[..n], text[n..]);
    assert s[i] == t[0] && (|text| > 1 ==> s[i + 1] == t[1]);
  }

  lemma ReadTextStep(s: seq<byte>, i: nat, a: Attrs)
    requires i < |s| && !IsControl(s[i])
    ensures Read(s, i, a) == if IsC1(s, i) then Read(s, i + 2, a) else [Cell(s[i], a)] + Read(s, i + 1, a)
  {
  }

  // ----- Which documents survive -----

  /** A span whose text reads back as itself after a transition from `from`. */
  predicate SpanSafe(from: Attrs, span: Span) {
    && NoControl(span.text) && NoC1(span.text) && InRange(span.attrs)
    && Swallowed(from, span.attrs, span.text) == 0
  }

  predicate LineSafe(line: Line, from: Attrs) {
    line != [] ==> SpanSafe(from, line[0]) && LineSafe(line[1..], line[0].attrs)
  }

  /** What can be checked before encoding: no control byte in the text, no
      colour above 99, and no text that opens with a comma and a digit right
      where the encoder writes a foreground and no background. */
  predicate Safe(doc: seq<Line>) {
    LinesSafe(Normalise(doc))
  }

  predicate LinesSafe(lines: seq<Line>) {
    lines != [] ==> LineSafe(lines[0], PLAIN) && LinesSafe(lines[1..])
  }

  predicate Representable(line: Line) {
    forall k | 0 <= k < |line| :: NoControl(line[k].text) && InRange(line[k].attrs)
  }

  predicate AllRepresentable(lines: seq<Line>) {
    lines != [] ==> Representable(lines[0]) && AllRepresentable(lines[1..])
  }

  predicate FollowsOn(line: Line, from: Attrs) {
    NormalLine(line) && (line != [] ==> line[0].attrs != from)
  }

  lemma TransitionStarts(from: Attrs, to: Attrs)
    requires from != to
    ensures Transition(from, to) != [] && IsControl(Transition(from, to)[0])
  {
    FormatCodesAreFormats(from, to);
    if FormatCodes(from, to) == [] {
      assert !NeedsReset(from, to);
      assert ChangesColour(from, to) by {
        assert Base(from, to) == from;
      }
    }
  }

  lemma LineTailStops(s: seq<byte>, i: nat, line: Line, from: Attrs)
    requires FollowsOn(line, from) && At(s, i, EncodeLine(line, from)) && Stops(s, i + |EncodeLine(line, from)|)
    ensures Stops(s, i)
  {
    if line != [] {
      TransitionStarts(from, line[0].attrs);
      hide Transition;
      assert EncodeLine(line, from)[0] == Transition(from, line[0].attrs)[0];
    }
    if EncodeLine(line, from) != [] {
      assert s[i] == s[i..i + |EncodeLine(line, from)|][0];
    }
  }

  lemma LineParts(s: seq<byte>, i: nat, line: Line, from: Attrs)
    requires line != [] && NormalLine(line) && At(s, i, EncodeLine(line, from))
             && Stops(s, i + |EncodeLine(line, from)|)
    ensures var t := i + |Transition(from, line[0].attrs)|;
      var n := t + |line[0].text|;
      && At(s, i, Transition(from, line[0].attrs)) && At(s, t, line[0].text)
      && At(s, n, EncodeLine(line[1..], line[0].attrs))
      && n + |EncodeLine(line[1..], line[0].attrs)| == i + |EncodeLine(line, from)|
      && NormalLine(line[1..]) && Stops(s, n)
  {
    hide Transition, NoControl;
    var a := line[0].attrs;
    AtSplit(s, i, Transition(from, a) + line[0].text, EncodeLine(line[1..], a));
    AtSplit(s, i, Transition(from, a), line[0].text);
    LineTailStops(s, i + |Transition(from, a)| + |line[0].text|, line[1..], a);
  }

  lemma SwallowInText(s: seq<byte>, i: nat, text: seq<byte>)
    requires At(s, i, text) && text != [] && Stops(s, i + |text|)
    ensures Swallow(s, i) == Swallow(text, 0)
  {
    var t := s[i..i + |text|];
    assert s[i] == t[0] && (|text| > 1 ==> s[i + 1] == t[1]) && (|text| > 2 ==> s[i + 2] == t[2]);
    assert s[i] == text[0] && (|text| > 1 ==> s[i + 1] == text[1]) && (|text| > 2 ==> s[i + 2] == text[2]);
  }

  /** Reading one line back, when nothing in it is lost. */
  lemma {:induction false} ReadLine(s: seq<byte>, i: nat, line: Line, from: Attrs)
    requires NormalLine(line) && LineSafe(line, from)
    requires At(s, i, EncodeLine(line, from)) && Stops(s, i + |EncodeLine(line, from)|)
    ensures Read(s, i, Shown(from)) == LineCells(line) + Read(s, i + |EncodeLine(line, from)|, PLAIN)
    decreases |line|
  {
    hide Read, Transition, Stops, Swallow, NoControl, NoC1, Shown, ChangesColour, InRange, At;
    if line == [] {
      ReadLineEnd(s, i, from);
    } else {
      var a := line[0].attrs;
      LineParts(s, i, line, from);
      var t := i + |Transition(from, a)|;
      SwallowInText(s, t, line[0].text);
      ReadTransition(s, i, from, a);
      ReadText(s, t, line[0].text, Shown(a));
      KeptIsAll(line[0].text);
      ReadLine(s, t + |line[0].text|, line[1..], a);
    }
  }

  lemma ReadLineEnd(s: seq<byte>, i: nat, from: Attrs)
    requires At(s, i, Opt(from != PLAIN, RESET))
    ensures i <= |s| && Read(s, i, Shown(from)) == Read(s, i + |Opt(from != PLAIN, RESET)|, PLAIN)
  {
    if from != PLAIN {
      assert s[i] == s[i..i + 1][0];
      ReadFormat(s, i, Shown(from));
    }
  }

  /** How much is read does not depend on the style in force. */
  lemma {:induction false} CountIgnoresStyle(s: seq<byte>, i: nat, a: Attrs, b: Attrs)
    requires i <= |s|
    ensures |Read(s, i, a)| == |Read(s, i, b)|
    decreases |s| - i
  {
    if i < |s| {
      CountIgnoresStyle(s, Next(s, i, a).next, Next(s, i, a).attrs, Next(s, i, b).attrs);
      hide Apply, ParseColours, StripLen;
    }
  }

  /** Counting past a transition: the bytes swallowed by a foreground-only code are gone. */
  lemma CountTransition(s: seq<byte>, i: nat, from: Attrs, to: Attrs)
    requires At(s, i, Transition(from, to)) && InRange(to)
    ensures var t := i + |Transition(from, to)|;
      var k := if ChangesColour(from, to) && NormaliseColour(to.bg) == None then Swallow(s, t) else 0;
      t + k <= |s| && |Read(s, i, PLAIN)| == |Read(s, t + k, PLAIN)|
  {
    hide Read, FormatCodes, ColourPart, Swallow, Shown, ChangesColour, Mid, InRange;
    CountIgnoresStyle(s, i, PLAIN, Shown(from));
    var t := i + |Transition(from, to)|;
    if ChangesColour(from, to) && NormaliseColour(to.bg) == None {
      ReadTransitionFormats(s, i, from, to);
      CountColours(s, i + |FormatCodes(from, to)|, from, to);
    } else {
      ReadTransition(s, i, from, to);
      CountIgnoresStyle(s, t, PLAIN, Shown(to));
    }
  }

  lemma CountColours(s: seq<byte>, n: nat, from: Attrs, to: Attrs)
    requires ChangesColour(from, to) && NormaliseColour(to.bg) == None && InRange(to) && At(s, n, ColourPart(from, to))
    ensures var t := n + |ColourPart(from, to)|;
      t + Swallow(s, t) <= |s| && |Read(s, n, Shown(Mid(from, to)))| == |Read(s, t + Swallow(s, t), PLAIN)|
  {
    hide Read, ColourCodes, Base, ParseColours, ChangesColour;
    AtSplit(s, n, [COLOUR], ColourCodes(to.fg, to.bg));
    assert s[n] == s[n..n + 1][0];
    ReadColours(s, n + 1, to.fg, to.bg);
    var a := Shown(Mid(from, to));
    ReadColour(s, n, a);
    var c := ParseColours(s, n + 1);
    CountIgnoresStyle(s, c.next, a.(fg := c.fg, bg := c.bg), PLAIN);
  }

  lemma CountText(s: seq<byte>, i: nat, text: seq<byte>, k: nat)
    requires At(s, i, text) && NoControl(text) && Stops(s, i + |text|) && k <= |text|
    ensures |Read(s, i + k, PLAIN)| <= |text| + |Read(s, i + |text|, PLAIN)|
    ensures k > 0 || !NoC1(text) ==> |Read(s, i + k, PLAIN)| < |text| + |Read(s, i + |text|, PLAIN)|
  {
    hide Read, Stops, NoC1, IsControl;
    assert text == text[..k] + text[k..];
    AtSplit(s, i, text[..k], text[k..]);
    ReadText(s, i + k, text[k..], PLAIN);
    KeptIsAll(text);
    assert k == 0 ==> text[k..] == text;
  }

  /** A line never reads back longer, and reads back shorter when it is unsafe. */
  lemma {:induction false} CountLine(s: seq<byte>, i: nat, line: Line, from: Attrs)
    requires NormalLine(line) && Representable(line)
    requires At(s, i, EncodeLine(line, from)) && Stops(s, i + |EncodeLine(line, from)|)
    ensures |Read(s, i, PLAIN)| <= |LineCells(line)| + |Read(s, i + |EncodeLine(line, from)|, PLAIN)|
    ensures !LineSafe(line, from) ==>
              |Read(s, i, PLAIN)| < |LineCells(line)| + |Read(s, i + |EncodeLine(line, from)|, PLAIN)|
    decreases |line|
  {
    hide Read, Transition, Stops, NoControl, NoC1, Shown, ChangesColour, InRange, At, Swallow;
    if line == [] {
      ReadLineEnd(s, i, from);
      CountIgnoresStyle(s, i, PLAIN, Shown(from));
    } else {
      var a, text := line[0].attrs, line[0].text;
      LineParts(s, i, line, from);
      var t := i + |Transition(from, a)|;
      SwallowInText(s, t, text);
      CountTransition(s, i, from, a);
      CountText(s, t, text, Swallowed(from, a, text));
      CountLine(s, t + |text|, line[1..], a);
    }
  }

  // ----- Whole documents -----

  predicate TailAt(s: seq<byte>, i: nat, lines: seq<Line>) { i <= |s| && s[i..] == EncodeTail(lines) }

  lemma TailParts(s: seq<byte>, i: nat, lines: seq<Line>)
    requires lines != [] && TailAt(s, i, lines)
    ensures var n := i + 1 + |EncodeLine(lines[0], PLAIN)|;
      && At(s, i + 1, EncodeLine(lines[0], PLAIN)) && TailAt(s, n, lines[1..]) && Stops(s, n)
    ensures Read(s, i, PLAIN) == [Break] + Read(s, i + 1, PLAIN)
  {
    hide EncodeLine, At, Read;
    var line, rest := EncodeLine(lines[0], PLAIN), EncodeTail(lines[1..]);
    assert EncodeTail(lines) == [NEWLINE] + line + rest;
    assert |s[i..]| == |s| - i;
    AtSuffix(s, i, EncodeTail(lines));
    AtSplit(s, i, [NEWLINE] + line, rest);
    AtSplit(s, i, [NEWLINE], line);
    AtFirst(s, i, [NEWLINE]);
    ReadBreak(s, i);
    var n := i + 1 + |line|;
    AtSuffix(s, n, rest);
    if rest != [] {
      AtFirst(s, n, rest);
    }
  }

  lemma AtSuffix(s: seq<byte>, i: nat, x: seq<byte>)
    requires i + |x| == |s|
    ensures At(s, i, x) <==> s[i..] == x
  {
    assert s[i..] == s[i..i + |x|];
  }

  lemma AtFirst(s: seq<byte>, i: nat, x: seq<byte>)
    requires At(s, i, x) && x != []
    ensures s[i] == x[0]
  {
    assert s[i] == s[i..i + |x|][0];
  }

  lemma ReadBreak(s: seq<byte>, i: nat)
    requires i < |s| && s[i] == NEWLINE
    ensures Read(s, i, PLAIN) == [Break] + Read(s, i + 1, PLAIN)
  {
  }

  lemma TailEnd(s: seq<byte>, i: nat)
    requires TailAt(s, i, [])
    ensures i == |s| && Read(s, i, PLAIN) == []
  {
    assert |s[i..]| == 0;
  }

  lemma {:induction false} ReadTail(s: seq<byte>, i: nat, lines: seq<Line>)
    requires TailAt(s, i, lines) && NormalLines(lines) && LinesSafe(lines)
    ensures Read(s, i, PLAIN) == MeaningTail(lines)
    decreases |lines|
  {
    hide Read, EncodeLine, EncodeTail, TailAt, NormalLine, LineSafe, At, Stops, LineCells;
    if lines == [] {
      TailEnd(s, i);
    } else {
      TailParts(s, i, lines);
      ReadLine(s, i + 1, lines[0], PLAIN);
      ReadTail(s, i + 1 + |EncodeLine(lines[0], PLAIN)|, lines[1..]);
    }
  }

  lemma {:induction false} CountTail(s: seq<byte>, i: nat, lines: seq<Line>)
    requires TailAt(s, i, lines) && NormalLines(lines) && AllRepresentable(lines)
    ensures |Read(s, i, PLAIN)| <= |MeaningTail(lines)|
    ensures !LinesSafe(lines) ==> |Read(s, i, PLAIN)| < |MeaningTail(lines)|
    decreases |lines|
  {
    hide Read, EncodeLine, EncodeTail, TailAt, NormalLine, LineSafe, Representable, LineCells, At, Stops;
    if lines == [] {
      TailEnd(s, i);
    } else {
      TailParts(s, i, lines);
      CountLine(s, i + 1, lines[0], PLAIN);
      CountTail(s, i + 1 + |EncodeLine(lines[0], PLAIN)|, lines[1..]);
    }
  }

  /** What cannot be written at all shows up as a cell no wire ever says. */
  lemma {:induction false} UnrepresentableShows(line: Line)
    requires NormalLine(line) && !Representable(line)
    ensures exists k | 0 <= k < |LineCells(line)| :: !Displayable(LineCells(line)[k])
  {
    var head := Cells(line[0].text, Shown(line[0].attrs));
    if !NoControl(line[0].text) || !InRange(line[0].attrs) {
      var k := if NoControl(line[0].text) then 0 else var k :| 0 <= k < |line[0].text| && IsControl(line[0].text[k]); k;
      CellsAt(line[0].text, Shown(line[0].attrs), k);
      assert !Displayable(LineCells(line)[k]);
    } else {
      assert !Representable(line[1..]) by {
        var k :| 0 <= k < |line| && !(NoControl(line[k].text) && InRange(line[k].attrs));
        assert line[k] == line[1..][k - 1];
      }
      UnrepresentableShows(line[1..]);
      var k :| 0 <= k < |LineCells(line[1..])| && !Displayable(LineCells(line[1..])[k]);
      assert LineCells(line)[|head| + k] == LineCells(line[1..])[k];
    }
  }

  lemma {:induction false} CellsAt(text: seq<byte>, a: Attrs, k: nat)
    requires k < |text|
    ensures Cells(text, a)[k] == Cell(text[k], a)
  {
    if k > 0 {
      CellsAt(text[1..], a, k - 1);
    }
  }

  lemma {:induction false} UnrepresentableTailShows(lines: seq<Line>)
    requires NormalLines(lines) && !AllRepresentable(lines)
    ensures exists k | 0 <= k < |MeaningTail(lines)| :: !Displayable(MeaningTail(lines)[k])
  {
    hide Displayable, NormalLine, Representable, LineCells;
    var head := [Break] + LineCells(lines[0]);
    if !Representable(lines[0]) {
      UnrepresentableShows(lines[0]);
      var k :| 0 <= k < |LineCells(lines[0])| && !Displayable(LineCells(lines[0])[k]);
      assert MeaningTail(lines)[1 + k] == LineCells(lines[0])[k];
    } else {
      UnrepresentableTailShows(lines[1..]);
      var k :| 0 <= k < |MeaningTail(lines[1..])| && !Displayable(MeaningTail(lines[1..])[k]);
      assert MeaningTail(lines)[|head| + k] == MeaningTail(lines[1..])[k];
    }
  }

  lemma HeadParts(lines: seq<Line>)
    requires lines != []
    ensures var s, n := EncodeLines(lines), |EncodeLine(lines[0], PLAIN)|;
      At(s, 0, EncodeLine(lines[0], PLAIN)) && TailAt(s, n, lines[1..]) && Stops(s, n)
  {
    hide EncodeLine;
    var s, n := EncodeLines(lines), |EncodeLine(lines[0], PLAIN)|;
    assert s[n..] == EncodeTail(lines[1..]);
    if lines[1..] != [] {
      assert s[n] == s[n..][0];
    }
  }

  lemma UnrepresentableDocShows(lines: seq<Line>)
    requires lines != [] && NormalLines(lines) && !AllRepresentable(lines)
    ensures exists k | 0 <= k < |Meaning(lines)| :: !Displayable(Meaning(lines)[k])
  {
    hide Displayable, NormalLine, Representable, LineCells;
    UnrepresentableTailShows(lines);
    var k :| 0 <= k < |MeaningTail(lines)| && !Displayable(MeaningTail(lines)[k]);
    assert MeaningTail(lines) == [Break] + Meaning(lines);
    BreakIsDisplayable();
    assert Meaning(lines)[k - 1] == MeaningTail(lines)[k];
  }

  lemma BreakIsDisplayable()
    ensures Displayable(Break)
  {
  }

  /** Encoding and reading back gives every line the same bytes in the same styles,
      colour 99 and no colour being one style, exactly for the safe documents. */
  lemma RoundTripsExactlyWhenSafe(doc: seq<Line>)
    ensures Read(EncodeLines(Normalise(doc)), 0, PLAIN) == Meaning(doc) <==> Safe(doc)
  {
    hide Read, EncodeLines, EncodeTail, TailAt, At, NormalLine, LineSafe, MeaningTail, Displayable, Normalise,
         LineCells, EncodeLine, Stops;
    NormaliseKeepsMeaning(doc);
    var lines := Normalise(doc);
    var s, n := EncodeLines(lines), |EncodeLine(lines[0], PLAIN)|;
    HeadParts(lines);
    if LinesSafe(lines) {
      ReadLine(s, 0, lines[0], PLAIN);
      ReadTail(s, n, lines[1..]);
    } else if AllRepresentable(lines) {
      CountLine(s, 0, lines[0], PLAIN);
      CountTail(s, n, lines[1..]);
    } else {
      UnrepresentableDocShows(lines);
      ReadIsDisplayable(s, 0, PLAIN);
    }
  }

  /** A document on one line, in foreground 4, whose text opens with a comma and a digit. */
  lemma SwallowedTextIsLost()
    ensures var doc := [[Span([COMMA, 0x31, 0x32], PLAIN.(fg := Index(4)))]];
      !Safe(doc) && Read(EncodeLines(Normalise(doc)), 0, PLAIN) != Meaning(doc)
  {
    var span := Span([COMMA, 0x31, 0x32], PLAIN.(fg := Index(4)));
    var doc := [[span]];
    assert NormaliseLine(doc[0]) == [span];
    assert Normalise(doc) == [[span]];
    assert Swallowed(PLAIN, span.attrs, span.text) == 3;
    RoundTripsExactlyWhenSafe(doc);
  }
}
