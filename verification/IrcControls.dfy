/** C1 controls in the wire format: the reader strips one where it finds the two bytes
    together, and exactly when it still shows the two bytes of one side by side. */
module IrcControls {
  import opened IrcFmt

  predicate ContinuesC1(b: byte) { 0x80 <= b <= 0x9f }

  predicate C1At(shown: seq<Cell>, k: nat) {
    k + 1 < |shown| && shown[k].Cell? && shown[k].text == 0xc2 && shown[k + 1].Cell? && ContinuesC1(shown[k + 1].text)
  }

  ghost predicate ShowsC1(shown: seq<Cell>) { exists k: nat :: C1At(shown, k) }

  predicate LeadsWithTail(shown: seq<Cell>) { shown != [] && shown[0].Cell? && ContinuesC1(shown[0].text) }

  /** Where the reader goes on from position `i`; the style in force has no say in it. */
  function After(s: seq<byte>, i: nat): (next: nat)
    requires i < |s|
    ensures i < next <= |s|
  {
    Next(s, i, PLAIN).next
  }

  /** The reader takes position `i` for a code or a control and shows nothing for it. */
  predicate Silent(s: seq<byte>, i: nat) {
    i < |s| && s[i] != NEWLINE && (IsFormat(s[i]) || s[i] == COLOUR || StripLen(s, i) > 0)
  }

  /** A reader that stands at `i` comes to stand at `j`. */
  predicate Reaches(s: seq<byte>, i: nat, j: nat)
    decreases |s| - i
  {
    i == j || (i < |s| && Reaches(s, After(s, i), j))
  }

  /** A reader that stands at `i` comes to stand at `j` and shows nothing on the way. */
  predicate SilentUpTo(s: seq<byte>, i: nat, j: nat)
    decreases |s| - i
  {
    i == j || (Silent(s, i) && SilentUpTo(s, After(s, i), j))
  }

  predicate SilentThenTail(s: seq<byte>, i: nat, k: nat) {
    k < |s| && ContinuesC1(s[k]) && SilentUpTo(s, i, k)
  }

  ghost predicate TailAhead(s: seq<byte>, i: nat) { exists k: nat :: SilentThenTail(s, i, k) }

  /** A 0xc2 read as text at `j`, then at least one byte or code nothing is
      shown for, and then, at `k`, the second byte of a C1 control. */
  predicate SplitC1(s: seq<byte>, i: nat, j: nat, k: nat) {
    && j < |s| && s[j] == 0xc2 && !Silent(s, j) && Reaches(s, i, j)
    && j + 1 < k && SilentThenTail(s, j + 1, k)
  }

  lemma StyleHasNoSay(s: seq<byte>, i: nat, a: Attrs)
    requires i < |s|
    ensures var t := Next(s, i, a);
      && t.next == After(s, i)
      && t.out == (if Silent(s, i) then [] else if s[i] == NEWLINE then [Break] else [Cell(s[i], a)])
  {
  }

  lemma {:induction false} LeadsExactlyAfterSilence(s: seq<byte>, i: nat, a: Attrs)
    requires i <= |s|
    ensures LeadsWithTail(Read(s, i, a)) <==> TailAhead(s, i)
    decreases |s| - i
  {
    if i < |s| {
      var t := Next(s, i, a);
      StyleHasNoSay(s, i, a);
      if Silent(s, i) {
        LeadsExactlyAfterSilence(s, t.next, t.attrs);
        assert forall k: nat :: SilentThenTail(s, i, k) <==> SilentThenTail(s, t.next, k);
        assert Read(s, i, a) == Read(s, t.next, t.attrs);
      } else {
        assert forall k: nat :: SilentThenTail(s, i, k) <==> k == i && ContinuesC1(s[k]);
        assert LeadsWithTail(Read(s, i, a)) <==> ContinuesC1(s[i]);
        assert ContinuesC1(s[i]) ==> SilentThenTail(s, i, i);
      }
    }
  }

  lemma C1InFront(c: Cell, rest: seq<Cell>)
    ensures ShowsC1([c] + rest) <==> ShowsC1(rest) || (c.Cell? && c.text == 0xc2 && LeadsWithTail(rest))
  {
    var both := [c] + rest;
    assert forall k: nat :: C1At(rest, k) ==> C1At(both, k + 1);
    assert forall k: nat | C1At(both, k) && k > 0 :: C1At(rest, k - 1);
    if c.Cell? && c.text == 0xc2 && LeadsWithTail(rest) {
      assert C1At(both, 0);
    }
  }

  lemma {:induction false} TailLiesAhead(s: seq<byte>, i: nat, k: nat)
    requires SilentUpTo(s, i, k)
    ensures i <= k
    decreases |s| - i
  {
    if i != k {
      TailLiesAhead(s, After(s, i), k);
    }
  }

  /** A split C1 from `i` on lies further on, or it begins at `i` itself. */
  lemma SplitHereOrLater(s: seq<byte>, i: nat)
    requires i < |s|
    ensures (exists j: nat, k: nat :: SplitC1(s, i, j, k)) <==>
        (exists j: nat, k: nat :: SplitC1(s, After(s, i), j, k))
        || (s[i] == 0xc2 && !Silent(s, i) && TailAhead(s, i + 1))
  {
    if j: nat, k: nat :| SplitC1(s, i, j, k) {
      assert j == i || SplitC1(s, After(s, i), j, k);
    }
    if j: nat, k: nat :| SplitC1(s, After(s, i), j, k) {
      assert SplitC1(s, i, j, k);
    }
    if s[i] == 0xc2 && !Silent(s, i) && TailAhead(s, i + 1) {
      var k: nat :| SilentThenTail(s, i + 1, k);
      TailLiesAhead(s, i + 1, k);
      assert SplitC1(s, i, i, k);
    }
  }

  /** The reader strips C1 controls where it finds their two bytes together, so
      it shows one exactly when it takes something away from between them. */
  lemma {:induction false} C1ShownExactlyWhenSplit(s: seq<byte>, i: nat, a: Attrs)
    requires i <= |s|
    ensures ShowsC1(Read(s, i, a)) <==> exists j: nat, k: nat :: SplitC1(s, i, j, k)
    decreases |s| - i
  {
    if i < |s| {
      var t := Next(s, i, a);
      StyleHasNoSay(s, i, a);
      C1ShownExactlyWhenSplit(s, t.next, t.attrs);
      SplitHereOrLater(s, i);
      if Silent(s, i) {
        assert Read(s, i, a) == Read(s, t.next, t.attrs);
      } else {
        C1InFront(t.out[0], Read(s, t.next, t.attrs));
        LeadsExactlyAfterSilence(s, t.next, t.attrs);
      }
    }
  }

  predicate TwoByteForms(s: seq<byte>) {
    forall i: nat | i + 1 < |s| && s[i] == 0xc2 :: 0x80 <= s[i + 1] <= 0xbf
  }

  /** Text in which every 0xc2 is the first byte of a two-byte form, as in all valid UTF-8, shows no C1 control. */
  lemma ValidTextShowsNoC1(s: seq<byte>, a: Attrs)
    requires TwoByteForms(s)
    ensures !ShowsC1(Read(s, 0, a))
  {
    C1ShownExactlyWhenSplit(s, 0, a);
    forall j: nat, k: nat ensures !SplitC1(s, 0, j, k) {
      if SplitC1(s, 0, j, k) {
        assert false;
      }
    }
  }

  /** A stray control byte, or a real C1 control, between the two bytes puts a C1 control together. */
  lemma StrippingMakesC1()
    ensures ShowsC1(Read([0xc2, 0x01, 0x85], 0, PLAIN))
    ensures ShowsC1(Read([0xc2, 0xc2, 0x85, 0x85], 0, PLAIN))
  {
    var one: seq<byte> := [0xc2, 0x01, 0x85];
    assert SilentUpTo(one, 2, 2);
    assert SilentThenTail(one, 1, 2);
    assert SplitC1(one, 0, 0, 2);
    C1ShownExactlyWhenSplit(one, 0, PLAIN);
    var two: seq<byte> := [0xc2, 0xc2, 0x85, 0x85];
    assert SilentUpTo(two, 3, 3);
    assert SilentThenTail(two, 1, 3);
    assert SplitC1(two, 0, 0, 3);
    C1ShownExactlyWhenSplit(two, 0, PLAIN);
  }
}
