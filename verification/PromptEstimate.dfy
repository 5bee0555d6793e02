/** The estimate of a request, in terms of what was observed and refused and of nothing the ledger keeps. */
module PromptEstimate {
  import opened PromptTokens

  /** No fewer tokens than the observations have it: four bytes to a token, where there are none. */
  predicate MeetsObservations(events: seq<Event>, id: ModelID, bytes: nat, n: nat) {
    if ObservedBytes(events, id) == 0 then 4 * n >= bytes
    else n * ObservedBytes(events, id) >= bytes * ObservedTokens(events, id)
  }

  /** No fewer tokens a byte than one more than the limit a request was refused at. */
  predicate MeetsRefusal(e: Event, bytes: nat, n: nat)
    requires e.Refused?
  {
    n * e.bytes >= bytes * (e.limit + 1)
  }

  predicate MeetsAll(events: seq<Event>, id: ModelID, bytes: nat, n: nat) {
    && MeetsObservations(events, id, bytes, n)
    && forall e | e in events && RefusalOf(e, id) :: MeetsRefusal(e, bytes, n)
  }

  lemma Multiplied(a: int, b: int, x: int)
    requires a <= b && x >= 0
    ensures a * x <= b * x
  {
  }

  lemma Divided(a: int, b: int, x: int)
    requires x > 0 && a * x <= b * x
    ensures a <= b
  {
    if a > b {
      Multiplied(b + 1, a, x);
    }
  }

  /** A floor that stands at least as high as a refusal makes what meets it meet the refusal. */
  lemma FloorMeets(r: Ratio, e: Event, bytes: nat, n: nat)
    requires e.Refused? && e.bytes > 0 && e.limit >= 0 && Covers(r, e.bytes, e.limit)
    requires n * r.floorBytes >= bytes * r.floorTokens
    ensures MeetsRefusal(e, bytes, n)
  {
    var f, t := r.floorBytes, r.floorTokens;
    Multiplied(bytes * t, n * f, e.bytes);
    Multiplied((e.limit + 1) * f, t * e.bytes, bytes);
    assert bytes * t * e.bytes == t * e.bytes * bytes;
    assert (e.limit + 1) * f * bytes == bytes * (e.limit + 1) * f;
    assert n * f * e.bytes == n * e.bytes * f;
    Divided(bytes * (e.limit + 1), n * e.bytes, f);
  }

  lemma BelowFails(k: nat, n: nat, x: nat, d: nat)
    requires k < n && d > 0 && (n - 1) * d < x
    ensures k * d < x
  {
    Multiplied(k, n - 1, d);
  }

  lemma BaseMeets(events: seq<Event>, id: ModelID, bytes: nat)
    requires bytes > 0
    ensures MeetsObservations(events, id, bytes, Estimate(AfterAll(events, id), bytes))
  {
    var r := AfterAll(events, id);
    TotalsAreSums(events, id);
    if r.bytes > 0 {
      var base := ScaleTokens(bytes, r.tokens, r.bytes);
      Multiplied(base, Estimate(r, bytes), r.bytes);
    }
  }

  /** The estimate is the least number of tokens that meets the observations and every refusal. */
  lemma EstimateIsTheLeast(events: seq<Event>, id: ModelID, bytes: nat)
    requires bytes > 0
    ensures MeetsAll(events, id, bytes, Estimate(AfterAll(events, id), bytes))
    ensures forall k: nat | k < Estimate(AfterAll(events, id), bytes) :: !MeetsAll(events, id, bytes, k)
  {
    var r := AfterAll(events, id);
    var n := Estimate(r, bytes);
    BaseMeets(events, id, bytes);
    forall e | e in events && RefusalOf(e, id)
      ensures MeetsRefusal(e, bytes, n)
    {
      RefusalStays(events, id, e);
      Multiplied(ScaleTokens(bytes, r.floorTokens, r.floorBytes), n, r.floorBytes);
      FloorMeets(r, e, bytes, n);
    }
    forall k: nat | k < n
      ensures !MeetsAll(events, id, bytes, k)
    {
      NothingLessMeets(events, id, bytes, k);
    }
  }

  lemma NothingLessMeets(events: seq<Event>, id: ModelID, bytes: nat, k: nat)
    requires bytes > 0 && k < Estimate(AfterAll(events, id), bytes)
    ensures !MeetsAll(events, id, bytes, k)
  {
    var r := AfterAll(events, id);
    TotalsAreSums(events, id);
    if r.floorBytes > 0 && k < ScaleTokens(bytes, r.floorTokens, r.floorBytes) {
      FloorIsARefusal(events, id);
      var e :| e in events && RefusalOf(e, id) && e.bytes == r.floorBytes && e.limit + 1 == r.floorTokens;
      BelowFails(k, ScaleTokens(bytes, r.floorTokens, r.floorBytes), bytes * r.floorTokens, r.floorBytes);
      assert !MeetsRefusal(e, bytes, k);
    } else if r.bytes > 0 {
      BelowFails(k, ScaleTokens(bytes, r.tokens, r.bytes), bytes * r.tokens, r.bytes);
    }
  }

  /** So a model nobody has heard of is estimated at a token for every four bytes begun. */
  lemma UnknownModelsTakeFourBytes(bytes: nat)
    ensures 4 * Estimate(AfterAll([], ""), bytes) >= bytes > 4 * (Estimate(AfterAll([], ""), bytes) - 1) || bytes == 0
  {
  }
}
