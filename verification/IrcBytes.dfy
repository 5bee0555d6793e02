/** What the parser makes of each byte of the wire, one rule for every byte there is. */
module IrcBytes {
  import opened IrcFmt

  /** Of `raw`, the bytes before `i` have shown this much and left the style `a` in force. */
  predicate Stands(raw: seq<byte>, i: nat, a: Attrs, shown: seq<Cell>) {
    i <= |raw| && Read(raw, 0, PLAIN) == shown + Read(raw, i, a)
  }

  lemma StandsAtTheStart(raw: seq<byte>)
    ensures Stands(raw, 0, Attrs(false, false, false, false, false, None, None), [])
  {
    assert Read(raw, 0, PLAIN) == [] + Read(raw, 0, PLAIN);
  }

  /** Once all bytes are read, what was shown is what the parsed lines hold. */
  lemma ParsedIsShown(raw: seq<byte>, lines: seq<Line>, a: Attrs, shown: seq<Cell>)
    requires |lines| > 0 && Stored(lines) == Read(raw, 0, PLAIN) && Stands(raw, |raw|, a, shown)
    ensures Stored(lines) == shown
  {
    assert Read(raw, |raw|, a) == [];
  }

  lemma Takes(raw: seq<byte>, i: nat, a: Attrs, shown: seq<Cell>, next: nat, after: Attrs)
    requires Stands(raw, i, a, shown) && i < |raw| && Next(raw, i, a) == Token(next, after, [])
    ensures Stands(raw, next, after, shown)
  {
    ReadStep(raw, i, a, shown);
    assert shown + [] == shown;
  }

  lemma Shows(raw: seq<byte>, i: nat, a: Attrs, shown: seq<Cell>, cell: Cell)
    requires Stands(raw, i, a, shown) && i < |raw| && Next(raw, i, a) == Token(i + 1, a, [cell])
    ensures Stands(raw, i + 1, a, shown + [cell])
  {
    ReadStep(raw, i, a, shown);
  }

  /** A newline begins a line; the style goes on. */
  lemma Newline(raw: seq<byte>, i: nat, a: Attrs, shown: seq<Cell>)
    requires Stands(raw, i, a, shown) && i < |raw| && raw[i] == 0x0a
    ensures Stands(raw, i + 1, a, shown + [Break])
  {
    hide Read, Stands;
    Shows(raw, i, a, shown, Break);
  }

  /** The formatting codes switch their format on and off, and 0x0f switches all off and clears the colours. */
  lemma Formats(raw: seq<byte>, i: nat, a: Attrs, shown: seq<Cell>)
    requires Stands(raw, i, a, shown) && i < |raw|
    ensures raw[i] == 0x02 ==> Stands(raw, i + 1, a.(bold := !a.bold), shown)
    ensures raw[i] == 0x1d ==> Stands(raw, i + 1, a.(italic := !a.italic), shown)
    ensures raw[i] == 0x1f ==> Stands(raw, i + 1, a.(underline := !a.underline), shown)
    ensures raw[i] == 0x16 ==> Stands(raw, i + 1, a.(reverse := !a.reverse), shown)
    ensures raw[i] == 0x1e ==> Stands(raw, i + 1, a.(strike := !a.strike), shown)
    ensures raw[i] == 0x0f ==> Stands(raw, i + 1, Attrs(false, false, false, false, false, None, None), shown)
  {
    hide Read, Stands;
    if raw[i] in [0x02, 0x1d, 0x1f, 0x16, 0x1e, 0x0f] {
      Takes(raw, i, a, shown, i + 1, Apply(a, raw[i]));
    }
  }

  /** Every other control character but the tab is dropped: C0, DEL, and C1 in its two-byte form. */
  lemma Controls(raw: seq<byte>, i: nat, a: Attrs, shown: seq<Cell>)
    requires Stands(raw, i, a, shown) && i < |raw|
    ensures (raw[i] < 0x20 && raw[i] !in [0x02, 0x03, 0x09, 0x0a, 0x0f, 0x16, 0x1d, 0x1e, 0x1f]) || raw[i] == 0x7f ==>
              Stands(raw, i + 1, a, shown)
    ensures i + 1 < |raw| && raw[i] == 0xc2 && 0x80 <= raw[i + 1] <= 0x9f ==> Stands(raw, i + 2, a, shown)
  {
    hide Read, Stands, ParseColours;
    if (raw[i] < 0x20 && raw[i] !in [0x02, 0x03, 0x09, 0x0a, 0x0f, 0x16, 0x1d, 0x1e, 0x1f]) || raw[i] == 0x7f {
      Takes(raw, i, a, shown, i + 1, a);
    } else if i + 1 < |raw| && raw[i] == 0xc2 && 0x80 <= raw[i + 1] <= 0x9f {
      Takes(raw, i, a, shown, i + 2, a);
    }
  }

  /** Everything else is text and is shown as it is, in the style in force. */
  lemma Text(raw: seq<byte>, i: nat, a: Attrs, shown: seq<Cell>)
    requires Stands(raw, i, a, shown) && i < |raw|
    requires raw[i] == 0x09 || 0x20 <= raw[i] <= 0x7e || raw[i] >= 0x80
    requires raw[i] == 0xc2 ==> i + 1 == |raw| || raw[i + 1] < 0x80 || raw[i + 1] > 0x9f
    ensures Stands(raw, i + 1, a, shown + [Cell(raw[i], a)])
  {
    hide Read, Stands, ParseColours;
    Shows(raw, i, a, shown, Cell(raw[i], a));
  }

  /** The byte at `i` is an ASCII digit. */
  predicate Digit(raw: seq<byte>, i: nat) { i < |raw| && 0x30 <= raw[i] <= 0x39 }

  /** How many digits stand at `i`, two at most. */
  function Digits(raw: seq<byte>, i: nat): nat {
    if !Digit(raw, i) then 0 else if !Digit(raw, i + 1) then 1 else 2
  }

  /** The colour the digits at `i` name; 99 is none. */
  function Named(raw: seq<byte>, i: nat): Colour
    requires Digits(raw, i) > 0
  {
    var value := if Digits(raw, i) == 1 then raw[i] as int - 0x30
                 else 10 * (raw[i] as int - 0x30) + (raw[i + 1] as int - 0x30);
    if value == 99 then None else Index(value as byte)
  }

  lemma CodeIsNamed(raw: seq<byte>, i: nat)
    ensures var c := ParseColourCode(raw, i);
            && (Digits(raw, i) == 0 <==> c.NoCode?) && (Digits(raw, i) == 0 <==> !Digit(raw, i))
            && (c.Code? ==> c.next == i + Digits(raw, i) && NormaliseColour(Index(c.value)) == Named(raw, i))
  {
  }

  /** A colour byte without a digit after it takes both colours away, and what follows is read as it stands. */
  lemma BareColour(raw: seq<byte>, i: nat, a: Attrs, shown: seq<Cell>)
    requires Stands(raw, i, a, shown) && i < |raw| && raw[i] == 0x03
    requires i + 1 == |raw| || raw[i + 1] < 0x30 || raw[i + 1] > 0x39
    ensures Stands(raw, i + 1, a.(fg := None, bg := None), shown)
  {
    hide Read, Stands;
    Takes(raw, i, a, shown, i + 1, a.(fg := None, bg := None));
  }

  /** One or two digits after it name the foreground; without a comma and a digit next, there is no background. */
  lemma ForegroundOnly(raw: seq<byte>, i: nat, a: Attrs, shown: seq<Cell>)
    requires Stands(raw, i, a, shown) && i < |raw| && raw[i] == 0x03 && Digits(raw, i + 1) > 0
    requires var comma := i + 1 + Digits(raw, i + 1);
             comma == |raw| || raw[comma] != 0x2c || !Digit(raw, comma + 1)
    ensures Stands(raw, i + 1 + Digits(raw, i + 1), a.(fg := Named(raw, i + 1), bg := None), shown)
  {
    hide Read, Stands;
    CodeIsNamed(raw, i + 1);
    CodeIsNamed(raw, i + 2 + Digits(raw, i + 1));
    hide ParseColourCode, Digits, Named, Digit;
    Takes(raw, i, a, shown, i + 1 + Digits(raw, i + 1), a.(fg := Named(raw, i + 1), bg := None));
  }

  /** After a comma, one or two more name the background. */
  lemma BothColours(raw: seq<byte>, i: nat, a: Attrs, shown: seq<Cell>)
    requires Stands(raw, i, a, shown) && i < |raw| && raw[i] == 0x03 && Digits(raw, i + 1) > 0
    requires var comma := i + 1 + Digits(raw, i + 1);
             comma < |raw| && raw[comma] == 0x2c && Digit(raw, comma + 1)
    ensures var second := i + 2 + Digits(raw, i + 1);
            Stands(raw, second + Digits(raw, second), a.(fg := Named(raw, i + 1), bg := Named(raw, second)), shown)
  {
    hide Read, Stands;
    var second := i + 2 + Digits(raw, i + 1);
    CodeIsNamed(raw, i + 1);
    CodeIsNamed(raw, second);
    hide ParseColourCode, Digits, Named, Digit;
    Takes(raw, i, a, shown, second + Digits(raw, second), a.(fg := Named(raw, i + 1), bg := Named(raw, second)));
  }

  /** A bare colour byte ends the colour a code before it set. */
  lemma ColourAndBack(raw: seq<byte>, lines: seq<Line>)
    requires raw == [0x03, 0x30, 0x32, 0x61, 0x03, 0x62]
    requires |lines| > 0 && Stored(lines) == Read(raw, 0, PLAIN)
    ensures Stored(lines) == [Cell(0x61, PLAIN.(fg := Index(2))), Cell(0x62, PLAIN)]
  {
    hide Read, Stands, Stored;
    var coloured, shown := PLAIN.(fg := Index(2)), [Cell(0x61, PLAIN.(fg := Index(2)))];
    StandsAtTheStart(raw);
    ForegroundOnly(raw, 0, PLAIN, []);
    assert Stands(raw, 3, coloured, []);
    Text(raw, 3, coloured, []);
    assert [] + shown == shown;
    BareColour(raw, 4, coloured, shown);
    assert coloured.(fg := None, bg := None) == PLAIN;
    Text(raw, 5, PLAIN, shown);
    ParsedIsShown(raw, lines, PLAIN, shown + [Cell(0x62, PLAIN)]);
  }
}
