/** The occasions an instance's stream falls into: runs of events with no silent hour
    inside, numbered by sorting the stream and scanning it once. */
module Episodes {
  import opened Options

  type Id = string

  /** One event of a reflection's stream: its place, when it was sent and by whom, and
      the peer of the direct window it was said in. */
  datatype Event = Event(sequence: nat, at: int, sender: Option<Id>, peer: Option<Id>)

  /** One hour, in seconds. */
  const GAP := 3600

  ghost predicate InTimeOrder(s: seq<Event>) { forall i, j | 0 <= i < j < |s| :: s[i].at <= s[j].at }

  ghost predicate DistinctPlaces(s: seq<Event>) { forall i, j | 0 <= i < j < |s| :: s[i].sequence != s[j].sequence }

  /** Any order a sort by time may leave the stream in, however it breaks ties. */
  ghost predicate Sorting(stream: seq<Event>, ordered: seq<Event>) {
    InTimeOrder(ordered) && multiset(ordered) == multiset(stream)
  }

  /** Some hour between the two in which the whole stream is silent. */
  ghost predicate SilenceBetween(stream: seq<Event>, a: Event, b: Event) {
    exists x, y | x in stream && y in stream :: Silent(stream, x, y) && a.at <= x.at && y.at <= b.at
  }

  ghost predicate Silent(stream: seq<Event>, x: Event, y: Event) {
    x.at + GAP <= y.at && forall z | z in stream :: z.at <= x.at || y.at <= z.at
  }

  /** Separated, whichever of the two came first. */
  ghost predicate Apart(stream: seq<Event>, a: Event, b: Event) {
    SilenceBetween(stream, a, b) || SilenceBetween(stream, b, a)
  }

  predicate Boundary(o: seq<Event>, k: nat)
    requires 0 < k < |o|
  {
    o[k].at - o[k - 1].at >= GAP
  }

  function Number(o: seq<Event>, i: nat): nat
    requires i < |o|
  {
    if i == 0 then 0 else Number(o, i - 1) + if Boundary(o, i) then 1 else 0
  }

  lemma {:induction false} NumbersRise(o: seq<Event>, i: nat, j: nat)
    requires i <= j < |o|
    ensures Number(o, i) <= Number(o, j)
    ensures Number(o, i) == Number(o, j) <==> forall k | i < k <= j :: !Boundary(o, k)
    decreases j
  {
    if i < j {
      NumbersRise(o, i, j - 1);
    }
  }

  lemma FirstAtOrAfter(o: seq<Event>, t: int, n: nat) returns (k: nat)
    requires n < |o| && o[n].at >= t
    ensures k <= n && o[k].at >= t && forall i | 0 <= i < k :: o[i].at < t
  {
    k := 0;
    while o[k].at < t
      invariant k <= n && forall i | 0 <= i < k :: o[i].at < t
      decreases n - k
    {
      k := k + 1;
    }
  }

  lemma SameMembers(stream: seq<Event>, o: seq<Event>)
    requires multiset(o) == multiset(stream)
    ensures forall z :: z in o <==> z in stream
  {
    forall z
      ensures z in o <==> z in stream
    {
      assert z in o <==> z in multiset(o);
      assert z in stream <==> z in multiset(stream);
    }
  }

  lemma BoundaryIsSilent(stream: seq<Event>, o: seq<Event>, i: nat, k: nat, j: nat)
    requires Sorting(stream, o) && i < k <= j < |o| && Boundary(o, k)
    ensures SilenceBetween(stream, o[i], o[j])
  {
    SameMembers(stream, o);
    var x, y := o[k - 1], o[k];
    assert x in o && y in o;
    forall z | z in stream
      ensures z.at <= x.at || y.at <= z.at
    {
      var p :| 0 <= p < |o| && o[p] == z;
      assert p < k ==> o[p].at <= x.at;
    }
    assert Silent(stream, x, y);
  }

  lemma SilenceHasBoundary(stream: seq<Event>, o: seq<Event>, i: nat, j: nat) returns (k: nat)
    requires Sorting(stream, o) && i <= j < |o| && SilenceBetween(stream, o[i], o[j])
    ensures i < k <= j && Boundary(o, k)
  {
    SameMembers(stream, o);
    var x, y :| x in stream && y in stream && Silent(stream, x, y) && o[i].at <= x.at && y.at <= o[j].at;
    k := FirstAtOrAfter(o, y.at, j);
    assert o[i].at < y.at;
    assert i < k;
    assert o[k - 1] in o;
    assert o[k - 1].at <= x.at;
  }

  /** In any order by time, a boundary between two places is a silent hour between their events. */
  lemma BoundaryIsSilence(stream: seq<Event>, o: seq<Event>, i: nat, j: nat)
    requires Sorting(stream, o) && i <= j < |o|
    ensures (exists k | i < k <= j :: Boundary(o, k)) <==> SilenceBetween(stream, o[i], o[j])
  {
    hide SilenceBetween, Sorting, Boundary;
    if k :| i < k <= j && Boundary(o, k) {
      BoundaryIsSilent(stream, o, i, k, j);
    }
    if SilenceBetween(stream, o[i], o[j]) {
      var k := SilenceHasBoundary(stream, o, i, j);
    }
  }

  /** Two events carry the same number exactly when no hour between them is silent in the
      whole stream, whichever order the sort left equal times in. */
  lemma SameEpisodeExactlyWithoutSilence(stream: seq<Event>, o: seq<Event>, i: nat, j: nat)
    requires Sorting(stream, o) && i < |o| && j < |o|
    ensures Number(o, i) == Number(o, j) <==> !Apart(stream, o[i], o[j])
  {
    var a, b := if i <= j then i else j, if i <= j then j else i;
    NumbersRise(o, a, b);
    BoundaryIsSilence(stream, o, a, b);
    assert !SilenceBetween(stream, o[b], o[a]);
  }

  ghost predicate NumberedUpTo(o: seq<Event>, n: nat, episodes: map<nat, nat>)
    requires n <= |o|
  {
    forall k | 0 <= k < n :: o[k].sequence in episodes && episodes[o[k].sequence] == Number(o, k)
  }

  lemma NoneNumbered(o: seq<Event>, episodes: map<nat, nat>)
    ensures NumberedUpTo(o, 0, episodes)
  {
  }

  lemma NumberedOneMore(o: seq<Event>, n: nat, episodes: map<nat, nat>)
    requires n < |o| && DistinctPlaces(o) && NumberedUpTo(o, n, episodes)
    ensures NumberedUpTo(o, n + 1, episodes[o[n].sequence := Number(o, n)])
  {
  }

  /** Numbers the episodes of a stream, given in whatever order the sort left it. */
  method EpisodesBySequence(ghost stream: seq<Event>, ordered: seq<Event>) returns (episodes: map<nat, nat>)
    requires Sorting(stream, ordered) && DistinctPlaces(ordered)
    ensures Numbered(stream, episodes)
  {
    hide Sorting, Numbered, DistinctPlaces, NumberedUpTo;
    episodes := map[];
    NoneNumbered(ordered, episodes);
    var episode, previous := 0, 0;
    for i := 0 to |ordered|
      invariant i > 0 ==> previous == ordered[i - 1].at && episode == Number(ordered, i - 1)
      invariant i == 0 ==> episode == 0
      invariant NumberedUpTo(ordered, i, episodes)
    {
      var event := ordered[i];
      if i > 0 && event.at - previous >= GAP {
        episode := episode + 1;
      }
      NumberedOneMore(ordered, i, episodes);
      episodes := episodes[event.sequence := episode];
      previous := event.at;
    }
    NumbersAre(stream, ordered, episodes);
  }

  /** Every event of the stream has a number, and two have the same exactly when they are not apart. */
  ghost predicate Numbered(stream: seq<Event>, episodes: map<nat, nat>) {
    && (forall a | a in stream :: a.sequence in episodes)
    && forall a, b | a in stream && b in stream ::
         episodes[a.sequence] == episodes[b.sequence] <==> !Apart(stream, a, b)
  }

  lemma NumbersAre(stream: seq<Event>, o: seq<Event>, episodes: map<nat, nat>)
    requires Sorting(stream, o) && NumberedUpTo(o, |o|, episodes)
    ensures Numbered(stream, episodes)
  {
    forall a | a in stream
      ensures exists i :: 0 <= i < |o| && o[i] == a
    {
      assert a in multiset(stream);
      assert a in multiset(o);
      assert a in o;
    }
    forall a, b | a in stream && b in stream
      ensures a.sequence in episodes && b.sequence in episodes
      ensures episodes[a.sequence] == episodes[b.sequence] <==> !Apart(stream, a, b)
    {
      var i :| 0 <= i < |o| && o[i] == a;
      var j :| 0 <= j < |o| && o[j] == b;
      SameEpisodeExactlyWithoutSilence(stream, o, i, j);
    }
  }

  /** Whether two of the events lie in different episodes, as far as the numbering knows them. */
  method SpansEpisodes(ghost stream: seq<Event>, cited: seq<Event>, episodes: map<nat, nat>) returns (spans: bool)
    requires Numbered(stream, episodes)
    ensures (forall c | c in cited :: c in stream) ==>
              (spans <==> exists a, b | a in cited && b in cited :: Apart(stream, a, b))
  {
    if |cited| < 2 {
      FewAreTogether(stream, cited);
      return false;
    }
    var first := 0;
    for i := 0 to |cited|
      invariant i > 0 ==> cited[0].sequence in episodes && first == episodes[cited[0].sequence]
      invariant forall k | 0 <= k < i :: cited[k].sequence in episodes && episodes[cited[k].sequence] == first
    {
      if cited[i].sequence !in episodes {
        assert cited[i] in cited;
        return false;
      }
      if i == 0 {
        first := episodes[cited[0].sequence];
      } else if episodes[cited[i].sequence] != first {
        assert cited[0] in cited && cited[i] in cited;
        return true;
      }
    }
    return false;
  }

  lemma FewAreTogether(stream: seq<Event>, cited: seq<Event>)
    requires |cited| < 2
    ensures forall a, b | a in cited && b in cited :: !Apart(stream, a, b)
  {
  }
}
