/** How much of a transcript and burst the summaries committed before a retry already cover. */
module ContextSummary {
  import ContextCompaction

  type Message = ContextCompaction.Message

  /** The last `n` sources are the first `n` of the transcript. */
  predicate Overlaps(sources: seq<Message>, recent: seq<Message>, n: nat)
    requires n <= |sources| && n <= |recent|
  {
    sources[|sources| - n..] == recent[..n]
  }

  predicate Longest(sources: seq<Message>, recent: seq<Message>, overlap: nat) {
    && overlap <= |sources| && overlap <= |recent| && Overlaps(sources, recent, overlap)
    && forall n | overlap < n && n <= |sources| && n <= |recent| :: !Overlaps(sources, recent, n)
  }

  method SummarizedRecentPrefix(recent: seq<Message>, summaries: seq<seq<Message>>) returns (overlap: nat)
    ensures Longest(Sources(summaries), recent, overlap)
  {
    var sources := Collect(summaries);
    overlap := if |sources| <= |recent| then |sources| else |recent|;
    while overlap > 0 && sources[|sources| - overlap..] != recent[..overlap]
      invariant 0 <= overlap <= |sources| && overlap <= |recent|
      invariant forall n | overlap < n && n <= |sources| && n <= |recent| :: !Overlaps(sources, recent, n)
    {
      overlap := overlap - 1;
    }
  }

  function Sources(summaries: seq<seq<Message>>): seq<Message> {
    if summaries == [] then [] else Sources(summaries[..|summaries| - 1]) + summaries[|summaries| - 1]
  }

  method Collect(summaries: seq<seq<Message>>) returns (sources: seq<Message>)
    ensures sources == Sources(summaries)
  {
    sources := [];
    for i := 0 to |summaries|
      invariant sources == Sources(summaries[..i])
    {
      assert summaries[..i + 1][..i] == summaries[..i];
      sources := sources + summaries[i];
    }
    assert summaries[..|summaries|] == summaries;
  }

  // ----- What an overlap has to be -----

  predicate Rising(places: seq<nat>) { forall i, j | 0 <= i < j < |places| :: places[i] < places[j] }

  predicate Within(places: seq<nat>, end: nat) { forall i | 0 <= i < |places| :: places[i] < end }

  /** The messages of a conversation at these places. */
  function Said(all: seq<Message>, places: seq<nat>): (r: seq<Message>)
    requires Within(places, |all|)
    ensures |r| == |places|
  {
    seq(|places|, i requires 0 <= i < |places| => all[places[i]])
  }

  /** Of a transcript from `start` to `end`, the first `n` messages are those that were summarised, and no others. */
  predicate Right(places: seq<nat>, start: nat, end: nat, n: nat) {
    forall k: nat | start <= k < end :: k < start + n <==> k in places
  }

  /** Nothing the transcript holds was left out of the summaries before something that is in them. */
  predicate Unbroken(places: seq<nat>, start: nat, end: nat) {
    forall j: nat, k: nat | start <= j < k < end && k in places :: j in places
  }

  /** How many of the summarised messages the transcript still holds. */
  function Held(places: seq<nat>, start: nat): (n: nat)
    ensures n <= |places|
  {
    if places == [] || places[|places| - 1] < start then 0 else 1 + Held(places[..|places| - 1], start)
  }

  /** Of the last `n` summarised messages, the one at `i` is equal to the one that far into the transcript. */
  predicate SameAs(all: seq<Message>, places: seq<nat>, start: nat, n: nat, i: nat) {
    i < n <= |places| && Within(places, |all|) && start + i < |all| && all[places[|places| - n + i]] == all[start + i]
  }

  /** More messages than it holds were summarised last, and each is said again at its place in the transcript. */
  predicate Mistaken(all: seq<Message>, places: seq<nat>, start: nat, end: nat, n: nat) {
    Held(places, start) < n <= |places| && start + n <= end && forall i: nat | i < n :: SameAs(all, places, start, n, i)
  }

  lemma OverlapIsSameness(all: seq<Message>, places: seq<nat>, start: nat, end: nat, n: nat)
    requires Within(places, |all|) && start <= end <= |all| && n <= |places| && start + n <= end
    ensures Overlaps(Said(all, places), all[start..end], n) <==>
              forall i: nat | i < n :: SameAs(all, places, start, n, i)
  {
    var said, recent := Said(all, places), all[start..end];
    var last, first := said[|said| - n..], recent[..n];
    if forall i: nat | i < n :: SameAs(all, places, start, n, i) {
      forall i: nat | i < n
        ensures last[i] == first[i]
      {
        assert SameAs(all, places, start, n, i);
      }
    }
    if last == first {
      forall i: nat | i < n
        ensures SameAs(all, places, start, n, i)
      {
        assert last[i] == first[i];
      }
    }
  }

  /** The held ones come last. */
  lemma {:induction false} HeldComeLast(places: seq<nat>, start: nat)
    requires Rising(places)
    ensures forall i: nat | i < |places| :: places[i] >= start <==> i >= |places| - Held(places, start)
  {
    if places != [] && places[|places| - 1] >= start {
      HeldComeLast(places[..|places| - 1], start);
    }
  }

  /** Unbroken, they are the first of the transcript, one after the other. */
  lemma {:induction false} HeldComeFirst(places: seq<nat>, start: nat, end: nat, i: nat)
    requires Rising(places) && Within(places, end) && Unbroken(places, start, end) && i < Held(places, start)
    ensures places[|places| - Held(places, start) + i] == start + i
    decreases i
  {
    HeldComeLast(places, start);
    var first := |places| - Held(places, start);
    if i > 0 {
      HeldComeFirst(places, start, end, i - 1);
    }
    if places[first + i] != start + i {
      assert places[first + i] in places && start + i in places;
      var j :| 0 <= j < |places| && places[j] == start + i;
      assert false;
    }
  }

  lemma HeldIsRight(places: seq<nat>, start: nat, end: nat, n: nat)
    requires Rising(places) && Within(places, end) && start <= end && Unbroken(places, start, end)
    ensures start + Held(places, start) <= end && Right(places, start, end, Held(places, start))
    ensures start + n <= end ==> (Right(places, start, end, n) <==> n == Held(places, start))
  {
    var held := Held(places, start);
    HeldComeLast(places, start);
    forall k: nat | start <= k < end
      ensures k < start + held <==> k in places
    {
      if k < start + held {
        HeldComeFirst(places, start, end, k - start);
        assert places[|places| - held + (k - start)] == k;
      } else if k in places {
        var j :| 0 <= j < |places| && places[j] == k;
        HeldComeFirst(places, start, end, j - (|places| - held));
      }
    }
    if held > 0 {
      HeldComeFirst(places, start, end, held - 1);
    }
    if n != held && start + n <= end {
      RightDecides(places, start, end, held, n);
    }
  }

  /** No two lengths are right. */
  lemma RightDecides(places: seq<nat>, start: nat, end: nat, m: nat, n: nat)
    requires Right(places, start, end, m) && start + m <= end && start + n <= end && m != n
    ensures !Right(places, start, end, n)
  {
    var k := start + if m < n then m else n;
    assert k in places <==> k < start + m;
  }

  /** Whatever was summarised: the overlap found is what of the transcript was summarised exactly if nothing
      was left out before something that was, and no more than that is said again from the start on. */
  lemma OverlapIsRightExactly(all: seq<Message>, places: seq<nat>, start: nat, end: nat, overlap: nat)
    requires Rising(places) && Within(places, end) && start <= end <= |all|
    requires Longest(Said(all, places), all[start..end], overlap)
    ensures Right(places, start, end, overlap) <==>
              Unbroken(places, start, end) && !exists n: nat :: Mistaken(all, places, start, end, n)
  {
    if Unbroken(places, start, end) {
      var held := Held(places, start);
      HeldIsRight(places, start, end, overlap);
      forall i: nat | i < held
        ensures SameAs(all, places, start, held, i)
      {
        HeldComeFirst(places, start, end, i);
      }
      hide SameAs, Right, Unbroken, Rising, Said;
      OverlapIsSameness(all, places, start, end, held);
      OverlapIsSameness(all, places, start, end, overlap);
      if overlap > held {
        assert Mistaken(all, places, start, end, overlap);
      }
      forall n: nat
        ensures overlap == held ==> !Mistaken(all, places, start, end, n)
      {
        if Mistaken(all, places, start, end, n) {
          OverlapIsSameness(all, places, start, end, n);
        }
      }
    }
  }

  /** Keeping only the last of the sources changes nothing, as long as there are as many as the transcript is long. */
  lemma TrimmingKeepsTheOverlap(sources: seq<Message>, recent: seq<Message>, k: nat, overlap: nat)
    requires k <= |sources| && |recent| <= |sources| - k
    ensures Longest(sources[k..], recent, overlap) <==> Longest(sources, recent, overlap)
  {
    forall n: nat | n <= |recent|
      ensures Overlaps(sources[k..], recent, n) <==> Overlaps(sources, recent, n)
    {
      assert sources[k..][|sources| - k - n..] == sources[|sources| - n..];
    }
  }

  // ----- Sources without a gap -----

  predicate SaidAgain(all: seq<Message>, k: nat, d: int) { k < |all| && 0 <= k + d < |all| && all[k] == all[k + d] }

  /** Each message from `d` places before the transcript's first up to the last one summarised, if
      there are any, is said again `d` places later; or earlier, where `d` is negative. */
  predicate RepeatsBy(all: seq<Message>, start: nat, to: nat, d: int)
    requires d <= start
  {
    forall k | start - d <= k < to :: SaidAgain(all, k, d)
  }

  lemma ShiftedSlices(all: seq<Message>, low: nat, high: nat, d: int)
    requires low <= high <= |all| && 0 <= low + d && high + d <= |all|
    ensures all[low..high] == all[low + d..high + d] <==> forall k | low <= k < high :: SaidAgain(all, k, d)
  {
    var first, second := all[low..high], all[low + d..high + d];
    if forall k | low <= k < high :: SaidAgain(all, k, d) {
      forall i: nat | i < |first|
        ensures first[i] == second[i]
      {
        assert SaidAgain(all, low + i, d);
      }
    }
    if first == second {
      forall k | low <= k < high
        ensures SaidAgain(all, k, d)
      {
        assert first[k - low] == second[k - low];
      }
    }
  }

  lemma SliceOfSlice(s: seq<Message>, low: nat, high: nat, i: nat, j: nat)
    requires low <= i <= j <= high <= |s|
    ensures s[low..high][i - low..j - low] == s[i..j]
  {
    var slice := s[low..high][i - low..j - low];
    forall k: nat | k < |slice|
      ensures slice[k] == s[i..j][k]
    {
      assert slice[k] == s[low..high][i - low + k];
    }
  }

  /** An overlap that reaches `d` places beyond where transcript and sources meet, across the gap
      between them, or less far than that, is a repetition. */
  lemma LongerOverlapIsRepetition(all: seq<Message>, from: nat, to: nat, start: nat, end: nat, d: int)
    requires from <= to <= end <= |all| && start <= end
    requires start <= to + d <= end && from + d <= start
    ensures Overlaps(all[from..to], all[start..end], to + d - start) <==> RepeatsBy(all, start, to, d)
  {
    hide SaidAgain;
    SliceOfSlice(all, from, to, start - d, to);
    SliceOfSlice(all, start, end, start, to + d);
    ShiftedSlices(all, start - d, to, d);
  }

  /** How much of the transcript was summarised: none of one that begins after the sources end. */
  function Shared(to: nat, start: nat): nat { if start <= to then to - start else 0 }

  /** A repetition long enough to show as an overlap of more than that. */
  predicate Misleads(all: seq<Message>, from: nat, to: nat, start: nat, end: nat, d: nat) {
    d > 0 && start < to + d && from + d <= start && to + d <= end && RepeatsBy(all, start, to, d)
  }

  /** The overlap found covers what was summarised of the transcript, and covers exactly that unless
      the conversation repeats itself where the two meet, or on either side of the gap between them. */
  lemma OverlapIsExactWithoutRepetition(all: seq<Message>, from: nat, to: nat, start: nat, end: nat, overlap: nat)
    requires from <= start <= end <= |all| && from <= to <= end
    requires Longest(all[from..to], all[start..end], overlap)
    ensures overlap >= Shared(to, start)
    ensures overlap == Shared(to, start) <==> !exists d: nat :: Misleads(all, from, to, start, end, d)
  {
    if start <= to {
      LongerOverlapIsRepetition(all, from, to, start, end, 0);
    }
    if overlap > Shared(to, start) {
      var d := overlap + start - to;
      LongerOverlapIsRepetition(all, from, to, start, end, d);
      assert Misleads(all, from, to, start, end, d);
    } else {
      forall d: nat
        ensures !Misleads(all, from, to, start, end, d)
      {
        if Misleads(all, from, to, start, end, d) {
          LongerOverlapIsRepetition(all, from, to, start, end, d);
        }
      }
    }
  }

  /** All the places from one to another. */
  function Between(from: nat, to: nat): (r: seq<nat>)
    requires from <= to
    ensures |r| == to - from && forall k: nat :: k in r <==> from <= k < to
  {
    if from == to then [] else Between(from, to - 1) + [to - 1]
  }

  /** Of sources without a gap the overlap is right exactly if the transcript does not begin before them
      and the conversation does not mislead. */
  lemma GaplessOverlapIsRightExactly(all: seq<Message>, from: nat, to: nat, start: nat, end: nat, overlap: nat)
    requires from <= to <= end <= |all| && start <= end && Longest(all[from..to], all[start..end], overlap)
    ensures Right(Between(from, to), start, end, overlap) <==>
              (from <= start && !exists d: nat :: Misleads(all, from, to, start, end, d)) || from == to
  {
    var places := Between(from, to);
    if from <= start {
      OverlapIsExactWithoutRepetition(all, from, to, start, end, overlap);
      assert Right(places, start, end, Shared(to, start));
      if overlap != Shared(to, start) {
        RightDecides(places, start, end, Shared(to, start), overlap);
      }
    } else if from < to {
      assert from in places && start !in places;
    }
  }

  predicate Distinct(s: seq<Message>) { forall i, j | 0 <= i < j < |s| :: s[i] != s[j] }

  /** Of a conversation whose messages all differ, the overlap is exactly the part of the
      transcript that was summarised: where the sources end, counted from where the
      transcript begins. */
  lemma OverlapIsWhatWasSummarized(all: seq<Message>, from: nat, to: nat, start: nat, end: nat, n: nat)
    requires Distinct(all) && from <= to <= end <= |all| && start <= end
    requires n <= to - from && n <= end - start
    ensures Overlaps(all[from..to], all[start..end], n) <==> n == 0 || (start <= to && n == to - start)
  {
    var sources, recent := all[from..to], all[start..end];
    if n > 0 && Overlaps(sources, recent, n) {
      assert sources[|sources| - n..][0] == all[to - n];
      assert recent[..n][0] == all[start];
    }
  }

  /** A message said twice at one instant can be taken for one that was summarised, and dropped. */
  lemma RepeatsOverlapTooMuch(m: Message, rest: seq<Message>)
    ensures var all := [m, m] + rest; Overlaps(all[..1], all[1..], 1) && !Distinct(all)
  {
    var all := [m, m] + rest;
    assert all[0] == all[1];
    assert all[..1] == [m] && all[1..][..1] == [m];
  }

  /** So can one said again after the sources end, although nothing of the transcript was summarised. */
  lemma RepeatsOverlapAcrossAGap(m: Message, between: Message)
    ensures var all := [m, between, m]; Longest(all[0..1], all[2..3], 1) && Shared(1, 2) == 0
  {
    var all := [m, between, m];
    assert all[0..1] == [m] && all[2..3] == [m];
  }

  /** Messages that all differ: what was dropped before what was summarised hides it, and it is sent once more. */
  lemma ADroppedMessageHidesASummarisedOne(a: Message, b: Message, c: Message)
    requires a != b
    ensures var all := [a, b, c]; Longest(all[1..2], all[0..3], 0) && !Right(Between(1, 2), 0, 3, 0)
  {
    var all := [a, b, c];
    assert all[1..2] == [b] && all[0..3][..1] == [a];
    assert 1 in Between(1, 2);
  }

  /** And where it was said before, the earlier one is dropped in its stead. */
  lemma ADroppedMessageIsTakenForSummarised(m: Message, between: Message)
    requires m != between
    ensures var all := [m, between, m]; Longest(all[2..3], all[0..3], 1) && !Right(Between(2, 3), 0, 3, 1)
  {
    var all := [m, between, m];
    assert all[2..3] == [m] && all[0..3][..1] == [m];
    assert 0 !in Between(2, 3);
  }
}
