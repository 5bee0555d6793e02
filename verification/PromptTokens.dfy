/** The per-model ledger that turns request bytes into expected prompt tokens:
    what the provider counted, and what it refused. */
module PromptTokens {
  type ModelID = string

  /** Running totals of what was observed, and the strongest refusal; no refusal has `floorBytes == 0`. */
  datatype Ratio = Ratio(bytes: nat, tokens: nat, floorBytes: nat, floorTokens: nat)

  const NO_RATIO := Ratio(0, 0, 0, 0)

  function Lookup(models: map<ModelID, Ratio>, id: ModelID): Ratio {
    if id in models then models[id] else NO_RATIO
  }

  /** `bytes * tokens / perBytes`, rounded up. */
  function ScaleTokens(bytes: nat, tokens: nat, perBytes: nat): (n: nat)
    requires perBytes > 0
    ensures n * perBytes >= bytes * tokens && (n > 0 ==> (n - 1) * perBytes < bytes * tokens)
  {
    var n := (bytes * tokens + perBytes - 1) / perBytes;
    CeilingDivides(bytes * tokens, perBytes, n);
    n
  }

  lemma CeilingDivides(x: nat, d: nat, n: int)
    requires d > 0 && n == (x + d - 1) / d
    ensures 0 <= n && n * d >= x && (n > 0 ==> (n - 1) * d < x)
  {
    var r := (x + d - 1) % d;
    assert x + d - 1 == d * n + r;
    assert (n - 1) * d == n * d - d;
  }

  // ----- What one event does to one model's ratio -----

  datatype Event =
    | Observed(id: ModelID, bytes: int, tokens: int)
    | Refused(id: ModelID, bytes: int, limit: int)

  /** The floor already stands at least as high as a refusal of `bytes` above `limit`. */
  predicate Covers(r: Ratio, bytes: nat, limit: nat) {
    r.floorBytes > 0 && r.floorTokens * bytes >= (limit + 1) * r.floorBytes
  }

  function After(r: Ratio, id: ModelID, e: Event): Ratio {
    match e
    case Observed(m, bytes, tokens) =>
      if m != id || bytes <= 0 || tokens <= 0 then r else r.(bytes := r.bytes + bytes, tokens := r.tokens + tokens)
    case Refused(m, bytes, limit) =>
      if m != id || bytes <= 0 || limit < 0 || Covers(r, bytes, limit) then r
      else r.(floorBytes := bytes, floorTokens := limit + 1)
  }

  function AfterAll(events: seq<Event>, id: ModelID): Ratio {
    if events == [] then NO_RATIO else After(AfterAll(events[..|events| - 1], id), id, events[|events| - 1])
  }

  function Estimate(r: Ratio, bytes: int): (n: nat) {
    if bytes <= 0 then 0
    else
      var base := if r.bytes > 0 then ScaleTokens(bytes, r.tokens, r.bytes) else (bytes + 3) / 4;
      if r.floorBytes > 0 && ScaleTokens(bytes, r.floorTokens, r.floorBytes) > base
      then ScaleTokens(bytes, r.floorTokens, r.floorBytes) else base
  }

  // ----- The ledger itself -----

  class PromptTokenRatios {
    var models: map<ModelID, Ratio>

    /** The ledger holds exactly what a run of `events` leaves in it. */
    ghost predicate Holds(events: seq<Event>)
      reads this
    {
      forall id :: Lookup(models, id) == AfterAll(events, id)
    }

    constructor ()
      ensures Holds([])
    {
      models := map[];
    }

    method Observe(id: ModelID, bytes: int, tokens: int, ghost events: seq<Event>)
      requires Holds(events)
      modifies this
      ensures Holds(events + [Observed(id, bytes, tokens)])
    {
      Snoc(events, Observed(id, bytes, tokens));
      if bytes <= 0 || tokens <= 0 {
        return;
      }
      var ratio := Lookup(models, id);
      models := models[id := ratio.(bytes := ratio.bytes + bytes, tokens := ratio.tokens + tokens)];
    }

    method Reject(id: ModelID, bytes: int, limit: int, ghost events: seq<Event>)
      requires Holds(events)
      modifies this
      ensures Holds(events + [Refused(id, bytes, limit)])
    {
      Snoc(events, Refused(id, bytes, limit));
      if bytes <= 0 || limit < 0 {
        return;
      }
      var ratio := Lookup(models, id);
      if ratio.floorBytes > 0 && ratio.floorTokens * bytes >= (limit + 1) * ratio.floorBytes {
        return;
      }
      models := models[id := ratio.(floorBytes := bytes, floorTokens := limit + 1)];
    }

    /** A refusal recorded anywhere in the run keeps every request at least that large above its limit. */
    method EstimateFor(id: ModelID, bytes: int, ghost events: seq<Event>) returns (n: nat)
      requires Holds(events)
      ensures n == Estimate(AfterAll(events, id), bytes)
      ensures forall e | e in events && RefusalOf(e, id) && e.bytes <= bytes :: n > e.limit
    {
      if bytes <= 0 {
        return 0;
      }
      var ratio := Lookup(models, id);
      n := (bytes + 3) / 4;
      if ratio.bytes > 0 {
        n := ScaleTokens(bytes, ratio.tokens, ratio.bytes);
      }
      if ratio.floorBytes > 0 {
        var floor := ScaleTokens(bytes, ratio.floorTokens, ratio.floorBytes);
        n := if floor > n then floor else n;
      }
      assert n == Estimate(AfterAll(events, id), bytes);
      forall e | e in events && RefusalOf(e, id) && e.bytes <= bytes
        ensures n > e.limit
      {
        RefusalIsNeverForgotten(events, id, e, bytes);
      }
    }
  }

  lemma Snoc(events: seq<Event>, e: Event)
    ensures forall id :: AfterAll(events + [e], id) == After(AfterAll(events, id), id, e)
  {
    assert (events + [e])[..|events|] == events;
  }

  /** A refusal the ledger takes: a real size and a real limit. */
  predicate RefusalOf(e: Event, id: ModelID) {
    e.Refused? && e.id == id && e.bytes > 0 && e.limit >= 0
  }

  // ----- A refusal is never forgotten -----

  lemma CoversTransfers(r: Ratio, s: Ratio, bytes: nat, limit: nat)
    requires Covers(r, bytes, limit) && s.floorBytes > 0 && s.floorTokens * r.floorBytes >= r.floorTokens * s.floorBytes
    ensures Covers(s, bytes, limit)
  {
    var a, b, c, d := r.floorTokens, r.floorBytes, s.floorTokens, s.floorBytes;
    // c/d >= a/b and a/b >= (limit+1)/bytes, over a common denominator b > 0
    assert c * b * bytes >= a * d * bytes by { MulMonotone(a * d, c * b, bytes); }
    assert a * bytes * d >= (limit + 1) * b * d by { MulMonotone((limit + 1) * b, a * bytes, d); }
    assert b * (c * bytes) >= b * ((limit + 1) * d);
    CancelFactor(b, (limit + 1) * d, c * bytes);
  }

  lemma MulMonotone(x: nat, y: nat, k: nat)
    requires x <= y
    ensures x * k <= y * k
  {
  }

  lemma CancelFactor(b: nat, x: nat, y: nat)
    requires b > 0 && b * x <= b * y
    ensures x <= y
  {
    if x > y {
      MulStrict(y, x, b);
    }
  }

  /** No event lowers the floor. */
  lemma FloorOnlyRises(r: Ratio, id: ModelID, e: Event, bytes: nat, limit: nat)
    requires Covers(r, bytes, limit)
    ensures Covers(After(r, id, e), bytes, limit)
  {
    var s := After(r, id, e);
    if s.floorBytes != r.floorBytes || s.floorTokens != r.floorTokens {
      assert s.floorTokens * r.floorBytes > r.floorTokens * s.floorBytes;
      CoversTransfers(r, s, bytes, limit);
    }
  }

  lemma {:induction false} RefusalStays(events: seq<Event>, id: ModelID, e: Event)
    requires e in events && RefusalOf(e, id)
    ensures Covers(AfterAll(events, id), e.bytes, e.limit)
  {
    var n := |events| - 1;
    if e in events[..n] {
      RefusalStays(events[..n], id, e);
      FloorOnlyRises(AfterAll(events[..n], id), id, events[n], e.bytes, e.limit);
    } else {
      assert events[n] == e;
      assert Covers(AfterAll(events, id), e.bytes, e.limit) by {
        assert (e.limit + 1) * e.bytes >= (e.limit + 1) * e.bytes;
      }
    }
  }

  lemma CoveredIsOver(r: Ratio, bytes: nat, limit: nat, size: nat)
    requires Covers(r, bytes, limit) && 0 < bytes <= size
    ensures Estimate(r, size) > limit
  {
    var n := ScaleTokens(size, r.floorTokens, r.floorBytes);
    assert n * r.floorBytes >= size * r.floorTokens;
    assert size * r.floorTokens >= bytes * r.floorTokens by { MulMonotone(bytes, size, r.floorTokens); }
    assert n * r.floorBytes >= (limit + 1) * r.floorBytes;
    CancelFactor(r.floorBytes, limit + 1, n);
  }

  /** After any run, whatever else was observed or refused, a request at least
      as large as one that was refused is estimated above the limit it was refused at. */
  lemma RefusalIsNeverForgotten(events: seq<Event>, id: ModelID, e: Event, bytes: int)
    requires e in events && RefusalOf(e, id) && e.bytes <= bytes
    ensures Estimate(AfterAll(events, id), bytes) > e.limit
  {
    RefusalStays(events, id, e);
    CoveredIsOver(AfterAll(events, id), e.bytes, e.limit, bytes);
  }

  /** The floor is never invented: it is one of the refusals of the run. */
  lemma {:induction false} FloorIsARefusal(events: seq<Event>, id: ModelID)
    requires AfterAll(events, id).floorBytes > 0
    ensures exists e | e in events && RefusalOf(e, id) ::
              e.bytes == AfterAll(events, id).floorBytes && e.limit + 1 == AfterAll(events, id).floorTokens
  {
    var n := |events| - 1;
    var before := AfterAll(events[..n], id);
    if events[n].Refused? && AfterAll(events, id) != before {
      assert RefusalOf(events[n], id);
    } else {
      FloorIsARefusal(events[..n], id);
    }
  }

  // ----- Estimates follow the size of the request and the totals observed -----

  lemma ScaleMonotone(a: nat, b: nat, tokens: nat, perBytes: nat)
    requires a <= b && perBytes > 0
    ensures ScaleTokens(a, tokens, perBytes) <= ScaleTokens(b, tokens, perBytes)
  {
    var m, n := ScaleTokens(a, tokens, perBytes), ScaleTokens(b, tokens, perBytes);
    MulMonotone(a, b, tokens);
    if m > n {
      MulMonotone(n, m - 1, perBytes);
    }
  }

  /** A larger request is never estimated smaller, so a plan that grows cannot start to fit. */
  lemma EstimateMonotone(r: Ratio, a: int, b: int)
    requires a <= b
    ensures Estimate(r, a) <= Estimate(r, b)
  {
    if a > 0 {
      if r.bytes > 0 {
        ScaleMonotone(a, b, r.tokens, r.bytes);
      }
      if r.floorBytes > 0 {
        ScaleMonotone(a, b, r.floorTokens, r.floorBytes);
      }
    }
  }

  function ObservedBytes(events: seq<Event>, id: ModelID): nat {
    if events == [] then 0
    else ObservedBytes(events[1..], id) + if Counts(events[0], id) then events[0].bytes else 0
  }

  function ObservedTokens(events: seq<Event>, id: ModelID): nat {
    if events == [] then 0
    else ObservedTokens(events[1..], id) + if Counts(events[0], id) then events[0].tokens else 0
  }

  predicate Counts(e: Event, id: ModelID) {
    e.Observed? && e.id == id && e.bytes > 0 && e.tokens > 0
  }

  lemma {:induction false} SumsSnoc(events: seq<Event>, e: Event, id: ModelID)
    ensures ObservedBytes(events + [e], id) == ObservedBytes(events, id) + if Counts(e, id) then e.bytes else 0
    ensures ObservedTokens(events + [e], id) == ObservedTokens(events, id) + if Counts(e, id) then e.tokens else 0
  {
    if events == [] {
      assert [e][1..] == [];
    } else {
      SumsSnoc(events[1..], e, id);
      assert (events + [e])[1..] == events[1..] + [e];
    }
  }

  /** The totals are the sums of every observation that counts, and of nothing else. */
  lemma {:induction false} TotalsAreSums(events: seq<Event>, id: ModelID)
    ensures AfterAll(events, id).bytes == ObservedBytes(events, id)
    ensures AfterAll(events, id).tokens == ObservedTokens(events, id)
  {
    if events != [] {
      var n := |events| - 1;
      TotalsAreSums(events[..n], id);
      SumsSnoc(events[..n], events[n], id);
      assert events == events[..n] + [events[n]];
    }
  }

  /** When every observation cost at most `p` tokens for every `q` bytes and
      nothing was refused, so does every estimate, up to rounding up. */
  lemma EstimateStaysInsideObservations(events: seq<Event>, id: ModelID, p: nat, q: nat, bytes: nat)
    requires q > 0 && bytes > 0 && forall e | e in events && Counts(e, id) :: e.tokens * q <= p * e.bytes
    requires (exists e | e in events :: Counts(e, id)) && !(exists e | e in events :: RefusalOf(e, id))
    ensures Estimate(AfterAll(events, id), bytes) <= ScaleTokens(bytes, p, q)
  {
    var r := AfterAll(events, id);
    TotalsAreSums(events, id);
    SumsBounded(events, id, p, q);
    assert r.floorBytes == 0 by {
      if r.floorBytes > 0 {
        FloorIsARefusal(events, id);
      }
    }
    var n, m := ScaleTokens(bytes, r.tokens, r.bytes), ScaleTokens(bytes, p, q);
    if n > m {
      // (n-1)/bytes < tokens/perBytes <= p/q <= m/bytes, over a common denominator
      assert (n - 1) * r.bytes < bytes * r.tokens;
      MulMonotone(m, n - 1, r.bytes);
      assert m * r.bytes < bytes * r.tokens;
      MulStrict(m * r.bytes, bytes * r.tokens, q);
      MulMonotone(r.tokens * q, p * r.bytes, bytes);
      MulMonotone(bytes * p, m * q, r.bytes);
      Rearrange(m, q, r.bytes, bytes, r.tokens, p);
      assert false;
    }
  }

  lemma MulStrict(x: nat, y: nat, k: nat)
    requires x < y && k > 0
    ensures x * k < y * k
  {
  }

  lemma Rearrange(m: nat, q: nat, perBytes: nat, bytes: nat, tokens: nat, p: nat)
    ensures m * perBytes * q == m * q * perBytes
    ensures bytes * tokens * q == tokens * q * bytes
    ensures p * perBytes * bytes == bytes * p * perBytes
  {
  }

  lemma Distribute(x: nat, y: nat, k: nat)
    ensures (x + y) * k == x * k + y * k && k * (x + y) == k * x + k * y
  {
  }

  lemma {:induction false} SumsBounded(events: seq<Event>, id: ModelID, p: nat, q: nat)
    requires forall e | e in events && Counts(e, id) :: e.tokens * q <= p * e.bytes
    ensures ObservedTokens(events, id) * q <= p * ObservedBytes(events, id)
    ensures (exists e | e in events :: Counts(e, id)) ==> ObservedBytes(events, id) > 0
  {
    if events != [] {
      SumsBounded(events[1..], id, p, q);
      if Counts(events[0], id) {
        Distribute(ObservedTokens(events[1..], id), events[0].tokens, q);
        Distribute(ObservedBytes(events[1..], id), events[0].bytes, p);
      }
    }
  }

  // ----- A replan at the limit a request was refused at -----

  const COMPLETION_TOKENS := 4000

  /** What a completion may cost once the prompt is paid for. */
  function CompletionAllowance(contextLength: int, promptTokens: int): (n: int)
    ensures 1 <= n <= COMPLETION_TOKENS
    ensures contextLength > 0 && promptTokens < contextLength ==> promptTokens + n <= contextLength
  {
    if contextLength <= 0 then COMPLETION_TOKENS
    else
      var left := contextLength - promptTokens;
      var room := if left < COMPLETION_TOKENS then left else COMPLETION_TOKENS;
      if room < 1 then 1 else room
  }

  /** A plan fits when it has no limit or is estimated inside it. */
  predicate PlanFits(promptLimit: int, estimate: int) { promptLimit <= 0 || estimate <= promptLimit }

  /** Once the provider refuses a planned request, no request as large fits a plan at the same limit again. */
  lemma RefusedPlanNoLongerFits(events: seq<Event>, later: seq<Event>, id: ModelID, requestBytes: int, promptLimit: int,
                                bytes: int)
    requires requestBytes > 0 && promptLimit > 0 && requestBytes <= bytes
    ensures !PlanFits(promptLimit,
                      Estimate(AfterAll(events + [Refused(id, requestBytes, promptLimit)] + later, id), bytes))
  {
    RefusalIsNeverForgotten(events + [Refused(id, requestBytes, promptLimit)] + later, id,
                            Refused(id, requestBytes, promptLimit), bytes);
  }
}
