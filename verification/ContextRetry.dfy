/** What a turn that is planned again makes of the batches the plan before it summarised or dropped. */
module ContextRetry {
  import opened ContextCompaction
  import opened ContextSummary
  import opened Options

  /** Where the messages of the committed batches stand, the first batch beginning at `cut`. */
  function PlacesOf(batches: seq<Batch>, cut: nat): seq<nat> {
    if batches == [] then []
    else
      var before, b := batches[..|batches| - 1], batches[|batches| - 1];
      var at := cut + |RawOf(before)|;
      PlacesOf(before, cut) + if b.committed.Some? then Between(at, at + |b.raw|) else []
  }

  /** What the store gains: the messages of the committed batches, in order. */
  function CommittedOf(batches: seq<Batch>): seq<ContextCompaction.Message> {
    if batches == [] then []
    else
      var before, b := batches[..|batches| - 1], batches[|batches| - 1];
      CommittedOf(before) + if b.committed.Some? then b.raw else []
  }

  predicate NoneEmpty(batches: seq<Batch>) { forall k | 0 <= k < |batches| :: batches[k].raw != [] }

  predicate AllCommitted(batches: seq<Batch>) { forall k | 0 <= k < |batches| :: batches[k].committed.Some? }

  /** No batch was dropped before one that was committed. */
  predicate CommittedFirst(batches: seq<Batch>) {
    forall j, k | 0 <= j < k < |batches| && batches[k].committed.Some? :: batches[j].committed.Some?
  }

  lemma {:induction false} BetweenRises(from: nat, to: nat)
    requires from <= to
    ensures Rising(Between(from, to))
  {
    if from < to {
      BetweenRises(from, to - 1);
      RisingJoined(Between(from, to - 1), [to - 1], to - 1);
    }
  }

  lemma {:induction false} PlacesInside(batches: seq<Batch>, cut: nat)
    ensures var places := PlacesOf(batches, cut);
            Rising(places) && forall k: nat | k in places :: cut <= k < cut + |RawOf(batches)|
  {
    if batches != [] {
      var before, b := batches[..|batches| - 1], batches[|batches| - 1];
      var at := cut + |RawOf(before)|;
      PlacesInside(before, cut);
      BetweenRises(at, at + |b.raw|);
      if b.committed.Some? {
        RisingJoined(PlacesOf(before, cut), Between(at, at + |b.raw|), at);
      }
    }
  }

  lemma RisingJoined(a: seq<nat>, b: seq<nat>, at: nat)
    requires Rising(a) && Rising(b) && (forall k | k in a :: k < at) && forall k | k in b :: k >= at
    ensures Rising(a + b)
  {
    var both := a + b;
    forall i, j | 0 <= i < j < |both|
      ensures both[i] < both[j]
    {
      assert i < |a| ==> a[i] in a;
      assert j >= |a| ==> b[j - |a|] in b;
    }
  }

  lemma SaidOfJoined(all: seq<ContextCompaction.Message>, a: seq<nat>, b: seq<nat>)
    requires Within(a, |all|) && Within(b, |all|)
    ensures Within(a + b, |all|) && Said(all, a + b) == Said(all, a) + Said(all, b)
  {
  }

  lemma {:induction false} SaidBetween(all: seq<ContextCompaction.Message>, from: nat, to: nat)
    requires from <= to <= |all|
    ensures Within(Between(from, to), |all|) && Said(all, Between(from, to)) == all[from..to]
  {
    if from < to {
      SaidBetween(all, from, to - 1);
      SaidOfJoined(all, Between(from, to - 1), [to - 1]);
    }
  }

  lemma PlacesWithin(batches: seq<Batch>, cut: nat, end: nat)
    requires cut + |RawOf(batches)| <= end
    ensures Within(PlacesOf(batches, cut), end)
  {
    PlacesInside(batches, cut);
    var places := PlacesOf(batches, cut);
    assert forall i | 0 <= i < |places| :: places[i] in places;
  }

  lemma SliceSplits(all: seq<ContextCompaction.Message>, cut: nat, a: seq<ContextCompaction.Message>,
                    b: seq<ContextCompaction.Message>)
    requires cut + |a| + |b| <= |all| && all[cut..cut + |a| + |b|] == a + b
    ensures all[cut..cut + |a|] == a && all[cut + |a|..cut + |a| + |b|] == b
  {
    var at, end := cut + |a|, cut + |a| + |b|;
    SliceOfSlice(all, cut, end, cut, at);
    SliceOfSlice(all, cut, end, at, end);
    assert (a + b)[..|a|] == a && (a + b)[|a|..|a| + |b|] == b;
  }

  /** What the last batch adds. */
  lemma LastBatch(batches: seq<Batch>, cut: nat)
    requires batches != []
    ensures var before, b := batches[..|batches| - 1], batches[|batches| - 1];
            var at := cut + |RawOf(before)|;
            && RawOf(batches) == RawOf(before) + b.raw
            && PlacesOf(batches, cut) ==
               PlacesOf(before, cut) + (if b.committed.Some? then Between(at, at + |b.raw|) else [])
            && CommittedOf(batches) == CommittedOf(before) + (if b.committed.Some? then b.raw else [])
  {
  }

  lemma SaidOfOneMore(all: seq<ContextCompaction.Message>, places: seq<nat>, at: nat,
                      raw: seq<ContextCompaction.Message>, committed: bool)
    requires Within(places, |all|) && at + |raw| <= |all| && all[at..at + |raw|] == raw
    ensures var more := places + if committed then Between(at, at + |raw|) else [];
            Within(more, |all|) && Said(all, more) == Said(all, places) + if committed then raw else []
  {
    hide Within, Said;
    SaidNothing(all);
    SaidBetween(all, at, at + |raw|);
    SaidOfJoined(all, places, if committed then Between(at, at + |raw|) else []);
  }

  /** Those places hold what the store gained. */
  lemma {:induction false} SaidOfBatches(all: seq<ContextCompaction.Message>, batches: seq<Batch>, cut: nat)
    requires cut + |RawOf(batches)| <= |all| && all[cut..cut + |RawOf(batches)|] == RawOf(batches)
    ensures Within(PlacesOf(batches, cut), |all|) && Said(all, PlacesOf(batches, cut)) == CommittedOf(batches)
  {
    if batches == [] {
      SaidNothing(all);
    } else {
      var before, b := batches[..|batches| - 1], batches[|batches| - 1];
      LastBatch(batches, cut);
      hide PlacesOf, CommittedOf, RawOf, Within, Said;
      SliceSplits(all, cut, RawOf(before), b.raw);
      SaidOfBatches(all, before, cut);
      SaidOfOneMore(all, PlacesOf(before, cut), cut + |RawOf(before)|, b.raw, b.committed.Some?);
    }
  }

  lemma SaidNothing(all: seq<ContextCompaction.Message>)
    ensures Within([], |all|) && Said(all, []) == []
  {
  }

  predicate Full(places: seq<nat>, from: nat, to: nat) { forall k: nat | from <= k < to :: k in places }

  lemma OneMoreBlock(before: seq<nat>, cut: nat, at: nat, end: nat, committed: bool)
    requires cut <= at < end && forall k | k in before :: k < at
    ensures Full(before + (if committed then Between(at, end) else []), cut, end) <==>
              Full(before, cut, at) && committed
  {
    var places := before + if committed then Between(at, end) else [];
    assert forall k: nat | k < at :: k in places <==> k in before;
    assert committed ==> forall k: nat | at <= k < end :: k in places;
    assert !committed ==> at !in places;
  }

  lemma EachBatch(batches: seq<Batch>)
    requires batches != []
    ensures var before, b := batches[..|batches| - 1], batches[|batches| - 1];
            && (AllCommitted(batches) <==> AllCommitted(before) && b.committed.Some?)
            && (NoneEmpty(batches) ==> NoneEmpty(before) && b.raw != [])
  {
  }

  lemma NoBatches(batches: seq<Batch>, cut: nat)
    requires batches == []
    ensures AllCommitted(batches) && Full(PlacesOf(batches, cut), cut, cut + |RawOf(batches)|)
  {
  }

  /** All that the batches took was summarised exactly if none of them was dropped. */
  lemma {:induction false} FullExactlyWhenAllCommitted(batches: seq<Batch>, cut: nat)
    requires NoneEmpty(batches)
    ensures Full(PlacesOf(batches, cut), cut, cut + |RawOf(batches)|) <==> AllCommitted(batches)
  {
    hide PlacesOf, RawOf, AllCommitted, NoneEmpty, Full;
    if batches == [] {
      NoBatches(batches, cut);
    } else {
      var n := |batches| - 1;
      var before, b := batches[..n], batches[n];
      var at := cut + |RawOf(before)|;
      EachBatch(batches);
      LastBatch(batches, cut);
      FullExactlyWhenAllCommitted(before, cut);
      PlacesInside(before, cut);
      OneMoreBlock(PlacesOf(before, cut), cut, at, at + |b.raw|, b.committed.Some?);
    }
  }

  /** The summaries leave nothing out before something they hold exactly if no batch was dropped before
      one that was committed. */
  lemma {:induction false} UnbrokenExactlyWhenCommittedFirst(batches: seq<Batch>, cut: nat, end: nat)
    requires NoneEmpty(batches) && cut + |RawOf(batches)| <= end
    ensures Unbroken(PlacesOf(batches, cut), cut, end) <==> CommittedFirst(batches)
  {
    if batches != [] {
      var n := |batches| - 1;
      var before, b := batches[..n], batches[n];
      UnbrokenExactlyWhenCommittedFirst(before, cut, end);
      if b.committed.Some? {
        assert b.raw != [];
        FullExactlyWhenAllCommitted(batches, cut);
        PlacesInside(batches, cut);
        var last := cut + |RawOf(batches)| - 1;
        assert last in PlacesOf(batches, cut);
        assert CommittedFirst(batches) <==> AllCommitted(batches);
      } else {
        assert PlacesOf(batches, cut) == PlacesOf(before, cut);
        assert CommittedFirst(batches) <==> CommittedFirst(before);
      }
    }
  }

  /** What was summarised before, up to `cut`, neither mends nor breaks what the batches leave. */
  lemma UnbrokenFromTheCut(earlier: seq<nat>, places: seq<nat>, start: nat, cut: nat, end: nat)
    requires Within(earlier, cut) && (forall k | k in places :: k >= cut) && start <= cut
    requires Right(earlier, start, cut, cut - start)
    ensures Unbroken(earlier + places, start, end) <==> Unbroken(places, cut, end)
  {
    var both := earlier + places;
    assert forall k: nat | k >= cut :: k in both <==> k in places;
    assert forall k: nat | start <= k < cut :: k in both;
    if Unbroken(both, start, end) {
      forall j: nat, k: nat | cut <= j < k < end && k in places
        ensures j in places
      {
        assert j in both;
      }
    }
  }

  /** A plan that began at `cut`, all of the transcript before that being summarised already, took off these
      batches; and the turn is planned again, on the same transcript or a longer one. What it then takes for
      summarised is so exactly if no batch was dropped before one that was committed, and no more messages
      than the transcript holds of the summarised ones are said again from its start on. */
  lemma RetryIsRightExactly(w: World, calls: seq<Call>, req: Request, batches: seq<Batch>, rest: Request,
                            all: seq<ContextCompaction.Message>, earlier: seq<nat>,
                            start: nat, cut: nat, end: nat, overlap: nat)
    requires Partition(req, batches, rest) && AllHonest(w, calls, batches)
    requires start <= cut <= end <= |all| && req.Raw() <= all[cut..end]
    requires Rising(earlier) && Within(earlier, cut) && Right(earlier, start, cut, cut - start)
    requires Longest(Said(all, earlier) + CommittedOf(batches), all[start..end], overlap)
    ensures var places := earlier + PlacesOf(batches, cut);
            Right(places, start, end, overlap) <==>
              CommittedFirst(batches) && !exists n: nat :: Mistaken(all, places, start, end, n)
  {
    hide Right, Unbroken, Mistaken, Longest;
    var places := PlacesOf(batches, cut);
    BatchesFit(w, calls, req, batches, rest, all, cut, end);
    SaidOfBatches(all, batches, cut);
    SaidOfJoined(all, earlier, places);
    PlacesInside(batches, cut);
    PlacesWithin(batches, cut, end);
    assert forall k | k in earlier :: k < cut;
    RisingJoined(earlier, places, cut);
    UnbrokenFromTheCut(earlier, places, start, cut, end);
    UnbrokenExactlyWhenCommittedFirst(batches, cut, end);
    OverlapIsRightExactly(all, earlier + places, start, end, overlap);
  }

  lemma BatchesFit(w: World, calls: seq<Call>, req: Request, batches: seq<Batch>, rest: Request,
                   all: seq<ContextCompaction.Message>, cut: nat, end: nat)
    requires Partition(req, batches, rest) && AllHonest(w, calls, batches)
    requires cut <= end <= |all| && req.Raw() <= all[cut..end]
    ensures NoneEmpty(batches) && cut + |RawOf(batches)| <= end
    ensures all[cut..cut + |RawOf(batches)|] == RawOf(batches)
  {
    assert req.Raw() == RawOf(batches) + rest.Raw();
    assert all[cut..cut + |req.Raw()|] == req.Raw() by { SliceOfSlice(all, cut, end, cut, cut + |req.Raw()|); }
    SliceSplits(all, cut, RawOf(batches), rest.Raw());
    forall k | 0 <= k < |batches|
      ensures batches[k].raw != []
    {
      assert Honest(w, calls, batches[k]);
    }
  }

  // ----- A batch dropped before one that is committed -----

  function Dropped(a: ContextCompaction.Message): Batch { Batch([a], [a], [], 0, 1, None) }

  function Committed(b: ContextCompaction.Message, text: string): Batch { Batch([b], [b], [], 1, 2, Some(text)) }

  lemma TwoBatches(a: ContextCompaction.Message, b: ContextCompaction.Message, text: string)
    ensures var batches := [Dropped(a), Committed(b, text)];
            && RawOf(batches) == [a, b] && ProjectedOf(batches) == [a, b] && CommittedOf(batches) == [b]
            && InForce(batches, []) == [text] && InForce(batches[..1], []) == [] && InForce(batches[..0], []) == []
  {
    var batches := [Dropped(a), Committed(b, text)];
    var first := [Dropped(a)];
    assert batches[..1] == first && first[..0] == [];
    var none: seq<ContextCompaction.Message> := [];
    assert RawOf(first) == none + [a] == [a] && ProjectedOf(first) == none + [a] == [a];
    assert CommittedOf(first) == none + none == none;
    assert RawOf(batches) == [a] + [b] && ProjectedOf(batches) == [a] + [b] && CommittedOf(batches) == none + [b];
  }

  lemma NoSourceIsFirst(b: ContextCompaction.Message, recent: seq<ContextCompaction.Message>)
    requires recent != [] && recent[0] != b
    ensures Longest([b], recent, 0)
  {
    assert recent[..1][0] == recent[0] && [b][0..][0] == b;
    assert [b][1..] == [] == recent[..0];
  }

  /** The first call of a plan fails and the second succeeds: `b` is summarised and `a` dropped. Planned
      again, the turn finds nothing of its transcript summarised, and sends `b` beside its summary. */
  lemma ADroppedBatchHidesACommittedOne(w: World, a: ContextCompaction.Message, b: ContextCompaction.Message,
                                        c: ContextCompaction.Message, text: string)
    requires a != b && w.answer(1).Some? && w.commit(2, w.answer(1).value) == Ok(text)
    ensures var batches, calls := [Dropped(a), Committed(b, text)], [Call([], [a]), Call([], [b])];
            var req, rest := Request([a, b, c], [], [a, b, c], [], []), Request([c], [], [c], [], [text]);
            && Partition(req, batches, rest) && AllHonest(w, calls, batches) && Merged(batches, [])
            && !CommittedFirst(batches) && Longest(CommittedOf(batches), req.Raw(), 0)
  {
    var batches, calls := [Dropped(a), Committed(b, text)], [Call([], [a]), Call([], [b])];
    TwoBatches(a, b, text);
    hide FragmentChain, Carried, RawOf, ProjectedOf, CommittedOf, InForce;
    assert calls[..2] == calls && calls == calls[..1] + [Call([], [b])];
    assert Honest(w, calls, batches[0]) && Honest(w, calls, batches[1]);
    assert batches[1].committed.Some? && batches[0].committed.None?;
    NoSourceIsFirst(b, [a, b, c]);
    assert [a, b] + ([c] + []) == [a, b, c] + [];
    assert [a, b, c] + [] == [a, b, c];
  }
}
