/** Code-point boundaries of a byte string, as Go's `range` visits them: an
    ill-formed sequence is one step of one byte. */
module Utf8 {
  newtype byte = x: int | 0 <= x < 256

  predicate Continues(s: seq<byte>, i: nat, low: byte, high: byte) { i < |s| && low <= s[i] <= high }

  predicate Tail(s: seq<byte>, i: nat) { Continues(s, i, 0x80, 0xbf) }

  /** The width of the code point at `i`. */
  function RuneLen(s: seq<byte>, i: nat): (n: nat)
    requires i < |s|
    ensures 1 <= n && i + n <= |s|
  {
    var b := s[i];
    if 0xc2 <= b <= 0xdf && Tail(s, i + 1) then 2
    else if 0xe0 <= b <= 0xef && Continues(s, i + 1, if b == 0xe0 then 0xa0 else 0x80, if b == 0xed then 0x9f else 0xbf)
      && Tail(s, i + 2) then 3
    else if 0xf0 <= b <= 0xf4 && Continues(s, i + 1, if b == 0xf0 then 0x90 else 0x80, if b == 0xf4 then 0x8f else 0xbf)
      && Tail(s, i + 2) && Tail(s, i + 3) then 4
    else 1
  }

  /** `to` is reached from `from` by whole code points. */
  predicate Reaches(s: seq<byte>, from: nat, to: nat)
    decreases |s| - from
  {
    from == to || (from < to <= |s| && Reaches(s, from + RuneLen(s, from), to))
  }

  predicate IsBoundary(s: seq<byte>, p: nat) { p <= |s| && Reaches(s, 0, p) }

  lemma {:induction false} ReachesStep(s: seq<byte>, from: nat, to: nat)
    requires Reaches(s, from, to) && to < |s|
    ensures Reaches(s, from, to + RuneLen(s, to))
    decreases |s| - from
  {
    if from != to {
      ReachesStep(s, from + RuneLen(s, from), to);
    }
  }

  lemma {:induction false} ReachesTransitive(s: seq<byte>, a: nat, b: nat, c: nat)
    requires Reaches(s, a, b) && Reaches(s, b, c)
    ensures Reaches(s, a, c)
    decreases |s| - a
  {
    hide RuneLen;
    if a < b {
      ReachesTransitive(s, a + RuneLen(s, a), b, c);
    }
  }

  /** No boundary lies strictly inside a code point. */
  lemma {:induction false} ReachesSkips(s: seq<byte>, from: nat, at: nat, p: nat)
    requires Reaches(s, from, at) && at < |s| && at < p < at + RuneLen(s, at)
    ensures !Reaches(s, from, p)
    decreases |s| - from
  {
    hide RuneLen;
    if from < at {
      ReachesSkips(s, from + RuneLen(s, from), at, p);
    }
  }

  /** Cutting at a boundary keeps the boundaries after it. */
  lemma {:induction false} ReachesInSuffix(s: seq<byte>, cut: nat, from: nat, to: nat)
    requires cut <= |s| && Reaches(s[cut..], from, to)
    ensures Reaches(s, cut + from, cut + to)
    decreases |s| - from
  {
    if from != to {
      RuneLenInSuffix(s, cut, from);
      hide RuneLen;
      ReachesInSuffix(s, cut, from + RuneLen(s[cut..], from), to);
    }
  }

  lemma RuneLenInSuffix(s: seq<byte>, cut: nat, i: nat)
    requires cut + i < |s|
    ensures RuneLen(s[cut..], i) == RuneLen(s, cut + i)
  {
    var t := s[cut..];
    assert t[i] == s[cut + i];
    assert i + 1 < |t| ==> t[i + 1] == s[cut + i + 1];
    assert i + 2 < |t| ==> t[i + 2] == s[cut + i + 2];
    assert i + 3 < |t| ==> t[i + 3] == s[cut + i + 3];
  }

  /** A boundary of a suffix that starts at a boundary is a boundary of the whole. */
  lemma BoundaryOfSuffix(s: seq<byte>, cut: nat, p: nat)
    requires IsBoundary(s, cut) && IsBoundary(s[cut..], p)
    ensures IsBoundary(s, cut + p)
  {
    hide RuneLen;
    ReachesInSuffix(s, cut, 0, p);
    ReachesTransitive(s, 0, cut, cut + p);
  }

  /** Every position a text may be cut at, in order, from its start to its end. */
  method Boundaries(body: seq<byte>) returns (b: seq<nat>)
    requires body != []
    ensures |b| >= 2 && b[0] == 0 && b[1] == RuneLen(body, 0) && b[|b| - 1] == |body|
    ensures forall i | 0 < i < |b| :: b[i - 1] < b[i]
    ensures forall p: nat :: p in b <==> IsBoundary(body, p)
  {
    hide RuneLen, Reaches;
    b := [0];
    var index := RuneLen(body, 0);
    ReachesSelf(body);
    OnlyTheStart(body);
    while index < |body|
      invariant 0 < index <= |body| && |b| > 0 && b[0] == 0
      invariant var last := b[|b| - 1]; last < |body| && index == last + RuneLen(body, last) && Reaches(body, 0, last)
      invariant forall i | 0 < i < |b| :: b[i - 1] < b[i]
      invariant forall p: nat | p <= b[|b| - 1] :: p in b <==> IsBoundary(body, p)
      invariant forall p | p in b :: p <= b[|b| - 1]
      invariant if |b| == 1 then index == RuneLen(body, 0) else b[1] == RuneLen(body, 0)
    {
      NextBoundary(body, b[|b| - 1]);
      b := b + [index];
      index := index + RuneLen(body, index);
    }
    NextBoundary(body, b[|b| - 1]);
    b := b + [|body|];
  }

  lemma ReachesSelf(s: seq<byte>)
    ensures Reaches(s, 0, 0)
  {
  }

  lemma OnlyTheStart(s: seq<byte>)
    ensures forall p: nat | p <= 0 :: p in [0] <==> IsBoundary(s, p)
  {
  }

  lemma NextBoundary(s: seq<byte>, at: nat)
    requires Reaches(s, 0, at) && at < |s|
    ensures IsBoundary(s, at + RuneLen(s, at))
    ensures forall p | at < p < at + RuneLen(s, at) :: !IsBoundary(s, p)
  {
    hide RuneLen, Reaches;
    ReachesStep(s, 0, at);
    forall p | at < p < at + RuneLen(s, at)
      ensures !IsBoundary(s, p)
    {
      ReachesSkips(s, 0, at, p);
    }
  }
}
