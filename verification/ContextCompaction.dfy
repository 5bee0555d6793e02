/** Bringing one turn's request inside its model's context window: the transcript
    and the burst are summarised, or dropped, from their old end until what is
    left fits. Every provider answer is arbitrary. */
module ContextCompaction {
  import opened Options
  import opened Utf8

  const COMPLETION_ALLOWANCE := 4000
  const MINIMUM_PROMPT := 1000
  const SUMMARY_ALLOWANCE := 512
  const MAX_SUMMARY_ROUNDS := 3

  /** A message: the body that can be split, and everything else about it. */
  datatype Message = Message(body: seq<byte>, rest: int)

  datatype Error =
    | WindowExceeded
    | BudgetSpent
    | Upstream
    | RenderFailed
    | PrefixInsufficient
    | WindowClosed
    | StoreFailed

  datatype Result<T> = Ok(value: T) | Err(error: Error)

  /** One summary request: the summaries it merges and the messages it condenses. */
  datatype Call = Call(previous: seq<string>, sources: seq<Message>)

  /** Everything outside this component. The token counts depend on how many
      summary calls have been made, because each call calibrates the estimate. */
  datatype World = World(
    contextLength: int,
    hasSummarizer: bool,
    planTokens: (nat, seq<string>, seq<Message>, seq<Message>) -> Option<int>,
    summaryTokens: (nat, seq<string>, seq<Message>) -> Option<int>,
    answer: nat -> Option<string>,
    cancelled: nat -> bool,
    commit: (nat, string) -> Result<string>,
    placeholder: string)

  // ----- The request and its prefixes -----

  /** The transcript and burst still to be sent, each message both as stored and as shown to the provider. */
  datatype Request = Request(
    rawRecent: seq<Message>, rawEvents: seq<Message>,
    recent: seq<Message>, events: seq<Message>,
    summaries: seq<string>)
  {
    predicate Aligned() { |rawRecent| == |recent| && |rawEvents| == |events| }

    function Total(): nat { |rawRecent| + |rawEvents| }

    function Raw(): seq<Message> { rawRecent + rawEvents }

    function Projected(): seq<Message> { recent + events }
  }

  datatype Prefix = Prefix(recent: nat, events: nat)

  function SplitPrefix(count: nat, recent: nat): (p: Prefix)
    ensures p.recent + p.events == count && p.recent <= recent
    ensures p.events > 0 ==> p.recent == recent
  {
    if count <= recent then Prefix(count, 0) else Prefix(recent, count - recent)
  }

  /** What is left once the first `count` messages are gone. */
  function Without(req: Request, count: nat): (r: Request)
    requires req.Aligned() && count <= req.Total()
    ensures r.Aligned() && r.Total() == req.Total() - count && r.summaries == req.summaries
  {
    var p := SplitPrefix(count, |req.rawRecent|);
    req.(rawRecent := req.rawRecent[p.recent..], rawEvents := req.rawEvents[p.events..],
         recent := req.recent[p.recent..], events := req.events[p.events..])
  }

  lemma WithoutIsSuffix(req: Request, count: nat)
    requires req.Aligned() && count <= req.Total()
    ensures Without(req, count).Raw() == req.Raw()[count..]
    ensures Without(req, count).Projected() == req.Projected()[count..]
  {
  }

  // ----- Plans -----

  function PromptLimit(contextLength: int): (limit: int)
    ensures contextLength <= 0 ==> limit == 0
    ensures 0 < contextLength <= 1000 ==> limit == contextLength
    ensures 1000 < contextLength <= 5000 ==> limit == 1000
    ensures contextLength > 5000 ==> limit == contextLength - 4000
  {
    if contextLength <= 0 then 0
    else
      var room := if contextLength > MINIMUM_PROMPT then contextLength - MINIMUM_PROMPT else 0;
      contextLength - if room < COMPLETION_ALLOWANCE then room else COMPLETION_ALLOWANCE
  }

  /** Whether a rendered request fits; nothing when it cannot be rendered. */
  function Fits(w: World, calls: nat, req: Request): Option<bool> {
    var tokens := w.planTokens(calls, req.summaries, req.recent, req.events);
    if tokens.None? then None
    else Some(PromptLimit(w.contextLength) <= 0 || tokens.value <= PromptLimit(w.contextLength))
  }

  /** Whether replacing the first `count` messages by one summary would fit. */
  function FitsWithout(w: World, calls: nat, req: Request, count: nat): Option<bool>
    requires req.Aligned() && count <= req.Total()
  {
    Fits(w, calls, Without(req, count).(summaries := [w.placeholder]))
  }

  /** Dropping more never makes the request larger. */
  ghost predicate ShrinksMonotonically(w: World, calls: nat, req: Request)
    requires req.Aligned()
  {
    forall j: nat, k: nat | j <= k <= req.Total() ::
      FitsWithout(w, calls, req, j) == Some(true) ==> FitsWithout(w, calls, req, k) == Some(true)
  }

  /** Replacing this prefix brings the request inside its limit, and replacing a shorter one does not. */
  ghost predicate ShortestPrefix(w: World, calls: nat, req: Request, wanted: nat)
    requires req.Aligned()
  {
    && 1 <= wanted <= req.Total() && FitsWithout(w, calls, req, wanted) == Some(true)
    && (ShrinksMonotonically(w, calls, req) ==>
          forall k | 1 <= k < wanted :: FitsWithout(w, calls, req, k) != Some(true))
  }

  /** The shortest prefix whose replacement brings the request inside its limit. */
  method PrefixNeeded(w: World, calls: nat, req: Request) returns (r: Result<nat>)
    requires req.Aligned() && req.Total() > 0
    ensures r.Ok? ==> ShortestPrefix(w, calls, req, r.value)
    ensures r == Err(PrefixInsufficient) <==> FitsWithout(w, calls, req, req.Total()) == Some(false)
    ensures r.Err? ==> r.error == PrefixInsufficient || r.error == RenderFailed
    ensures r == Err(RenderFailed) ==> Unrenderable(w, calls)
  {
    hide Without, Fits;
    hide Unrenderable;
    var all := FitsWithout(w, calls, req, req.Total());
    if all.None? {
      NoPlan(w, calls, Without(req, req.Total()).(summaries := [w.placeholder]));
      return Err(RenderFailed);
    }
    if !all.value {
      return Err(PrefixInsufficient);
    }
    var needed := req.Total();
    var low, high := 1, req.Total() - 1;
    while low <= high
      invariant 1 <= low && high < req.Total() && low <= needed <= req.Total() && needed == high + 1
      invariant FitsWithout(w, calls, req, needed) == Some(true)
      invariant forall k | 1 <= k < low ::
                  ShrinksMonotonically(w, calls, req) ==> FitsWithout(w, calls, req, k) != Some(true)
    {
      var middle := low + (high - low) / 2;
      var ok := FitsWithout(w, calls, req, middle);
      if ok.None? {
        NoPlan(w, calls, Without(req, middle).(summaries := [w.placeholder]));
        return Err(RenderFailed);
      }
      if ok.value {
        needed, high := middle, middle - 1;
      } else {
        low := middle + 1;
      }
    }
    return Ok(needed);
  }

  // ----- Summary batches -----

  function SummaryLimit(w: World): int { w.contextLength - SUMMARY_ALLOWANCE }

  function SummaryFits(w: World, calls: nat, previous: seq<string>, sources: seq<Message>): Option<bool> {
    var tokens := w.summaryTokens(calls, previous, sources);
    if tokens.None? then None else Some(tokens.value <= SummaryLimit(w))
  }

  function BatchFits(w: World, calls: nat, req: Request, count: nat): Option<bool>
    requires count <= |req.Projected()|
  {
    SummaryFits(w, calls, req.summaries, req.Projected()[..count])
  }

  ghost predicate GrowsMonotonically(w: World, calls: nat, req: Request) {
    forall j: nat, k: nat | j <= k <= |req.Projected()| ::
      BatchFits(w, calls, req, k) == Some(true) ==> BatchFits(w, calls, req, j) == Some(true)
  }

  /** One message, or more whose summary request fits; and with room for a summary, none longer up to `wanted` fits. */
  ghost predicate LongestBatch(w: World, calls: nat, req: Request, wanted: nat, count: nat)
    requires req.Aligned() && wanted <= req.Total()
  {
    && 1 <= count <= wanted
    && (count > 1 ==> BatchFits(w, calls, req, count) == Some(true))
    && (SummaryLimit(w) <= 0 ==> count == 1)
    && (SummaryLimit(w) > 0 && GrowsMonotonically(w, calls, req) ==>
          forall k | count < k <= wanted :: BatchFits(w, calls, req, k) != Some(true))
  }

  /** The longest batch up to `wanted` whose summary request fits, or one message. */
  method SummaryBatch(w: World, calls: nat, req: Request, wanted: nat) returns (r: Result<nat>)
    requires req.Aligned() && 1 <= wanted <= req.Total()
    ensures r.Ok? ==> LongestBatch(w, calls, req, wanted, r.value)
    ensures r.Err? ==> r.error == RenderFailed && Unrenderable(w, calls)
  {
    hide SummaryFits, Unrenderable;
    if SummaryLimit(w) <= 0 {
      return Ok(1);
    }
    var selected := 1;
    var low, high := 1, wanted;
    while low <= high
      invariant 1 <= low && low - 1 <= high <= wanted && 1 <= selected <= wanted
      invariant selected == (if low == 1 then 1 else low - 1)
      invariant low > 1 ==> BatchFits(w, calls, req, selected) == Some(true)
      invariant GrowsMonotonically(w, calls, req) ==>
                  forall k | high < k <= wanted :: BatchFits(w, calls, req, k) != Some(true)
    {
      var middle := low + (high - low) / 2;
      var ok := BatchFits(w, calls, req, middle);
      if ok.None? {
        NoSummaryRequest(w, calls, req.summaries, req.Projected()[..middle]);
        return Err(RenderFailed);
      }
      if ok.value {
        selected, low := middle, middle + 1;
      } else {
        high := middle - 1;
      }
    }
    return Ok(selected);
  }

  // ----- One message too large for a summary request -----

  function FragmentFits(w: World, calls: nat, previous: seq<string>, source: Message,
                        fragment: seq<byte>): Option<bool> {
    SummaryFits(w, calls, previous, [source.(body := fragment)])
  }

  /** Cutting a fragment shorter never makes its summary request too large. */
  ghost predicate FragmentsGrow(w: World, calls: nat, previous: seq<string>, source: Message, body: seq<byte>) {
    forall p: nat, q: nat | p <= q <= |body| ::
      FragmentFits(w, calls, previous, source, body[..q]) == Some(true) ==>
        FragmentFits(w, calls, previous, source, body[..p]) == Some(true)
  }

  /** Not even the first code point fits. */
  predicate NoFragment(w: World, calls: nat, previous: seq<string>, source: Message, body: seq<byte>)
    requires body != []
  {
    SummaryLimit(w) <= 0 || FragmentFits(w, calls, previous, source, body[..RuneLen(body, 0)]) == Some(false)
  }

  /** Some request, for the turn or for a summary, cannot be rendered at this point. */
  ghost predicate Unrenderable(w: World, calls: nat) {
    || (exists previous, sources :: w.summaryTokens(calls, previous, sources) == None)
    || (exists summaries, recent, events :: w.planTokens(calls, summaries, recent, events) == None)
  }

  lemma NoSummaryRequest(w: World, calls: nat, previous: seq<string>, sources: seq<Message>)
    requires SummaryFits(w, calls, previous, sources) == None
    ensures Unrenderable(w, calls)
  {
    assert w.summaryTokens(calls, previous, sources) == None;
  }

  lemma NoPlan(w: World, calls: nat, req: Request)
    requires Fits(w, calls, req) == None
    ensures Unrenderable(w, calls)
  {
    assert w.planTokens(calls, req.summaries, req.recent, req.events) == None;
  }

  /** The longest head of `body` that ends at a code-point boundary and fits a
      summary request; an error when not even one code point fits. */
  method FittingFragment(w: World, calls: nat, previous: seq<string>, source: Message, body: seq<byte>)
    returns (r: Result<nat>)
    requires body != []
    ensures r.Ok? ==> 0 < r.value <= |body| && IsBoundary(body, r.value)
    ensures r.Ok? ==> SummaryLimit(w) > 0 && FragmentFits(w, calls, previous, source, body[..r.value]) == Some(true)
    ensures r.Ok? && FragmentsGrow(w, calls, previous, source, body) ==>
              forall p | r.value < p <= |body| && IsBoundary(body, p) ::
                FragmentFits(w, calls, previous, source, body[..p]) != Some(true)
    ensures r.Err? ==> r.error == WindowExceeded || r.error == RenderFailed
    ensures r == Err(WindowExceeded) ==> NoFragment(w, calls, previous, source, body)
    ensures r == Err(RenderFailed) ==> Unrenderable(w, calls)
  {
    hide SummaryFits, IsBoundary, RuneLen, FragmentFits;
    var boundaries := Boundaries(body);
    BoundariesInside(body, boundaries);
    Ascending(boundaries);
    var best := 0;
    var low, high := 1, |boundaries| - 1;
    while low <= high
      invariant 1 <= low && low - 1 <= high < |boundaries| && best == low - 1
      invariant best > 0 ==>
                  SummaryLimit(w) > 0
                  && FragmentFits(w, calls, previous, source, body[..boundaries[best]]) == Some(true)
      invariant high + 1 < |boundaries| ==>
        SummaryLimit(w) <= 0 || FragmentFits(w, calls, previous, source, body[..boundaries[high + 1]]) == Some(false)
    {
      var middle := low + (high - low) / 2;
      var ok := FragmentFits(w, calls, previous, source, body[..boundaries[middle]]);
      if ok.None? {
        FragmentUnrenderable(w, calls, previous, source, body[..boundaries[middle]]);
        return Err(RenderFailed);
      }
      if SummaryLimit(w) > 0 && ok.value {
        best, low := middle, middle + 1;
      } else {
        high := middle - 1;
      }
    }
    if best == 0 {
      return Err(WindowExceeded);
    }
    NothingLongerFits(w, calls, previous, source, body, boundaries, best);
    return Ok(boundaries[best]);
  }

  lemma FragmentUnrenderable(w: World, calls: nat, previous: seq<string>, source: Message, fragment: seq<byte>)
    requires FragmentFits(w, calls, previous, source, fragment) == None
    ensures Unrenderable(w, calls)
  {
    NoSummaryRequest(w, calls, previous, [source.(body := fragment)]);
  }

  lemma NothingLongerFits(w: World, calls: nat, previous: seq<string>, source: Message, body: seq<byte>,
                          boundaries: seq<nat>, best: nat)
    requires 0 < best < |boundaries| && SummaryLimit(w) > 0
    requires (forall p | p in boundaries :: p <= |body|) && forall p: nat :: p in boundaries <==> IsBoundary(body, p)
    requires forall i, j | 0 <= i < j < |boundaries| :: boundaries[i] < boundaries[j]
    requires best + 1 < |boundaries| ==>
      boundaries[best + 1] <= |body|
      && FragmentFits(w, calls, previous, source, body[..boundaries[best + 1]]) != Some(true)
    ensures FragmentsGrow(w, calls, previous, source, body) ==>
              forall p | boundaries[best] < p <= |body| && IsBoundary(body, p) ::
                FragmentFits(w, calls, previous, source, body[..p]) != Some(true)
  {
    hide FragmentFits, IsBoundary;
    forall p | boundaries[best] < p <= |body| && IsBoundary(body, p) && FragmentsGrow(w, calls, previous, source, body)
      ensures FragmentFits(w, calls, previous, source, body[..p]) != Some(true)
    {
      var i :| 0 <= i < |boundaries| && boundaries[i] == p;
      assert i > best;
      assert boundaries[best + 1] <= boundaries[i];
    }
  }

  lemma BoundariesInside(body: seq<byte>, boundaries: seq<nat>)
    requires forall q: nat :: q in boundaries <==> IsBoundary(body, q)
    ensures forall p | p in boundaries :: p <= |body|
  {
  }

  lemma Ascending(b: seq<nat>)
    requires forall j | 0 < j < |b| :: b[j - 1] < b[j]
    ensures forall i, j | 0 <= i < j < |b| :: b[i] < b[j]
  {
    forall i, j | 0 <= i < j < |b|
      ensures b[i] < b[j]
    {
      AscendingFrom(b, i, j);
    }
  }

  lemma {:induction false} AscendingFrom(b: seq<nat>, i: nat, j: nat)
    requires i < j < |b| && forall k | 0 < k < |b| :: b[k - 1] < b[k]
    ensures b[i] < b[j]
  {
    if i < j - 1 {
      AscendingFrom(b, i, j - 1);
    }
  }

  // ----- Spending summary calls -----

  /** What a turn may still spend on summaries, shared by all the helpers it is handed to. */
  class ContextSummaryBudget {
    var remaining: nat

    constructor (rounds: nat)
      ensures remaining == rounds
    {
      remaining := rounds;
    }

    method Spend() returns (ok: bool)
      modifies this
      ensures ok == (old(remaining) > 0)
      ensures remaining == if ok then old(remaining) - 1 else old(remaining)
    {
      if remaining == 0 {
        return false;
      }
      remaining := remaining - 1;
      return true;
    }
  }

  /** The summary requests sent so far. */
  class Upstream {
    var calls: seq<Call>
  }

  /** Every request sent since `from` fitted the window the summaries are made in. */
  ghost predicate AllFit(w: World, calls: seq<Call>, from: nat) {
    forall k | from <= k < |calls| :: CallFits(w, k, calls[k])
  }

  predicate CallFits(w: World, k: nat, call: Call) {
    SummaryLimit(w) > 0 && SummaryFits(w, k, call.previous, call.sources) == Some(true)
  }

  /** The body text the calls since `from` have carried, one fragment a call. */
  function Carried(calls: seq<Call>, from: nat): seq<byte>
    requires from <= |calls|
    decreases |calls|
  {
    if |calls| == from then []
    else
      var last := calls[|calls| - 1];
      Carried(calls[..|calls| - 1], from) + if |last.sources| == 1 then last.sources[0].body else []
  }

  /** The calls since `from` are fragments of one message, each merged with the
      summary the one before it returned. */
  ghost predicate FragmentChain(w: World, calls: seq<Call>, from: nat, previous: seq<string>, source: Message) {
    forall k | from <= k < |calls| ::
      && |calls[k].sources| == 1 && calls[k].sources[0].body != []
      && calls[k].sources[0] == source.(body := calls[k].sources[0].body)
      && calls[k].previous == PreviousAt(w, from, k, previous)
      && IsBoundary(source.body, |Carried(calls[..k], from)|)
  }

  function PreviousAt(w: World, from: nat, k: nat, previous: seq<string>): seq<string>
    requires from <= k
  {
    if k == from then previous else if w.answer(k - 1).Some? then [w.answer(k - 1).value] else []
  }

  /** The calls since `from` condensed all of `sources` on top of `previous`. */
  ghost predicate Condensed(w: World, calls: seq<Call>, from: nat, previous: seq<string>, sources: seq<Message>) {
    && from < |calls|
    && (calls == calls[..from] + [Call(previous, sources)]
        || (|sources| == 1 && FragmentChain(w, calls, from, previous, sources[0])
            && Carried(calls, from) == sources[0].body))
  }

  method SendSummaryRequest(w: World, budget: ContextSummaryBudget, up: Upstream, previous: seq<string>,
                            sources: seq<Message>)
    returns (r: Result<string>)
    modifies budget, up
    ensures r == Err(BudgetSpent) <==> old(budget.remaining) == 0
    ensures old(budget.remaining) == 0 ==> up.calls == old(up.calls) && budget.remaining == 0
    ensures old(budget.remaining) > 0 ==>
      up.calls == old(up.calls) + [Call(previous, sources)] && budget.remaining == old(budget.remaining) - 1
    ensures r.Ok? ==> w.answer(|old(up.calls)|) == Some(r.value)
    ensures old(budget.remaining) > 0 && w.answer(|old(up.calls)|) == None ==> r == Err(Error.Upstream)
    ensures r == Err(Error.Upstream) ==> w.answer(|old(up.calls)|) == None
    ensures r.Err? ==> r.error == BudgetSpent || r.error == Error.Upstream
  {
    var ok := budget.Spend();
    if !ok {
      return Err(BudgetSpent);
    }
    var answer := w.answer(|up.calls|);
    up.calls := up.calls + [Call(previous, sources)];
    return if answer.Some? then Ok(answer.value) else Err(Error.Upstream);
  }

  lemma CarriedMore(calls: seq<Call>, from: nat, call: Call)
    requires from <= |calls| && |call.sources| == 1
    ensures Carried(calls + [call], from) == Carried(calls, from) + call.sources[0].body
  {
    assert (calls + [call])[..|calls|] == calls;
  }

  lemma ChainGrows(w: World, calls: seq<Call>, from: nat, previous: seq<string>, source: Message, at: nat, cut: nat)
    requires from <= |calls| && FragmentChain(w, calls, from, previous, source) && AllFit(w, calls, from)
    requires at + cut <= |source.body| && 0 < cut && Carried(calls, from) == source.body[..at]
             && IsBoundary(source.body, at)
    requires IsBoundary(source.body[at..], cut)
    requires CallFits(w, |calls|,
                      Call(PreviousAt(w, from, |calls|, previous), [source.(body := source.body[at..][..cut])]))
    ensures var next := calls + [Call(PreviousAt(w, from, |calls|, previous),
                                      [source.(body := source.body[at..][..cut])])];
      && FragmentChain(w, next, from, previous, source) && AllFit(w, next, from)
      && Carried(next, from) == source.body[..at + cut] && IsBoundary(source.body, at + cut)
  {
    hide IsBoundary, CallFits, PreviousAt, Carried;
    var fragment := source.(body := source.body[at..][..cut]);
    var next := calls + [Call(PreviousAt(w, from, |calls|, previous), [fragment])];
    assert next[..|calls|] == calls;
    CarriedMore(calls, from, next[|calls|]);
    TakeThenTake(source.body, at, cut);
    BoundaryOfSuffix(source.body, at, cut);
    forall k | from <= k < |next|
      ensures IsBoundary(source.body, |Carried(next[..k], from)|)
    {
      if k < |calls| {
        assert next[..k] == calls[..k];
      }
    }
  }

  /** Why no summary came back, `from` and `to` being the calls made before and after, and `left` what is left
      to spend: the budget, the provider's last answer, the rendering, or the length of what was to be condensed. */
  ghost predicate NoSummary(w: World, from: nat, to: nat, left: int, previous: seq<string>, sources: seq<Message>,
                            e: Error) {
    match e
    case BudgetSpent => left == 0
    case Upstream => from < to && w.answer(to - 1) == None
    case RenderFailed => Unrenderable(w, to)
    case WindowExceeded => TooLong(w, from, to, previous, sources)
    case _ => false
  }

  /** The sources do not fit one request, and they are several, or empty, or what is left of the one there is has
      a first code point that does not fit. */
  ghost predicate TooLong(w: World, from: nat, to: nat, previous: seq<string>, sources: seq<Message>) {
    && (SummaryLimit(w) <= 0 || SummaryFits(w, from, previous, sources) == Some(false))
    && (|sources| == 1 && sources[0].body != [] ==>
          exists now, at: nat :: at < |sources[0].body| && NoFragment(w, to, now, sources[0], sources[0].body[at..]))
  }

  /** Condenses one message too large for a request of its own, a fragment a call. */
  method SummarizeMessage(w: World, budget: ContextSummaryBudget, up: Upstream, previous: seq<string>, source: Message)
    returns (r: Result<string>)
    requires source.body != []
    modifies budget, up
    ensures Spent(old(budget.remaining), budget.remaining, old(up.calls), up.calls)
    ensures AllFit(w, up.calls, |old(up.calls)|)
    ensures r.Ok? ==>
              Condensed(w, up.calls, |old(up.calls)|, previous, [source]) && w.answer(|up.calls| - 1) == Some(r.value)
    ensures r.Err? ==> FragmentChain(w, up.calls, |old(up.calls)|, previous, source)
    ensures r.Err? ==> Carried(up.calls, |old(up.calls)|) <= source.body
    ensures r.Err? && r.error != WindowExceeded ==>
              NoSummary(w, |old(up.calls)|, |up.calls|, budget.remaining, previous, [source], r.error)
    ensures r == Err(WindowExceeded) ==>
              exists now, at: nat :: at < |source.body| && NoFragment(w, |up.calls|, now, source, source.body[at..])
  {
    hide IsBoundary, SummaryFits, FragmentChain, Carried, AllFit, CallFits, FragmentsGrow, NoFragment, Unrenderable;
    ghost var from := |up.calls|;
    var at := 0;
    var currentPrevious := previous;
    r := Ok("");
    ChainStarts(w, up.calls, previous, source);
    while at < |source.body|
      invariant at <= |source.body| && IsBoundary(source.body, at) && r.Ok?
      invariant Spent(old(budget.remaining), budget.remaining, old(up.calls), up.calls)
      invariant FragmentChain(w, up.calls, from, previous, source) && AllFit(w, up.calls, from)
      invariant Carried(up.calls, from) == source.body[..at]
      invariant currentPrevious == PreviousAt(w, from, |up.calls|, previous)
      invariant at > 0 ==> |up.calls| > from && w.answer(|up.calls| - 1) == Some(r.value)
      decreases |source.body| - at
    {
      var cut := FittingFragment(w, |up.calls|, currentPrevious, source, source.body[at..]);
      if cut.Err? {
        return Err(cut.error);
      }
      var fragment := source.(body := source.body[at..][..cut.value]);
      FragmentCallFits(w, |up.calls|, currentPrevious, source, source.body[at..][..cut.value]);
      ChainGrows(w, up.calls, from, previous, source, at, cut.value);
      r := SendSummaryRequest(w, budget, up, currentPrevious, [fragment]);
      if r.Err? {
        assert source.body[..at] <= source.body && source.body[..at + cut.value] <= source.body;
        return;
      }
      at := at + cut.value;
      currentPrevious := [r.value];
    }
    assert source.body[..at] == source.body;
  }

  lemma FragmentCallFits(w: World, k: nat, previous: seq<string>, source: Message, fragment: seq<byte>)
    requires SummaryLimit(w) > 0 && FragmentFits(w, k, previous, source, fragment) == Some(true)
    ensures CallFits(w, k, Call(previous, [source.(body := fragment)]))
  {
  }

  lemma ChainStarts(w: World, calls: seq<Call>, previous: seq<string>, source: Message)
    ensures FragmentChain(w, calls, |calls|, previous, source) && AllFit(w, calls, |calls|)
    ensures Carried(calls, |calls|) == source.body[..0] && IsBoundary(source.body, 0)
  {
  }

  /** Calls made and budget spent are the same number. */
  ghost predicate Spent(remaining0: nat, remaining: nat, calls0: seq<Call>, calls: seq<Call>) {
    calls0 <= calls && |calls| - |calls0| == remaining0 - remaining
  }

  method SummarizeSources(w: World, budget: ContextSummaryBudget, up: Upstream, previous: seq<string>,
                          sources: seq<Message>)
    returns (r: Result<string>)
    modifies budget, up
    ensures Spent(old(budget.remaining), budget.remaining, old(up.calls), up.calls)
    ensures AllFit(w, up.calls, |old(up.calls)|)
    ensures r.Ok? ==>
              Condensed(w, up.calls, |old(up.calls)|, previous, sources) && w.answer(|up.calls| - 1) == Some(r.value)
    ensures r.Err? ==> NoSummary(w, |old(up.calls)|, |up.calls|, budget.remaining, previous, sources, r.error)
  {
    hide FragmentChain, Carried, SummaryFits, NoFragment, Unrenderable;
    var fits := SummaryFits(w, |up.calls|, previous, sources);
    if fits.None? {
      NoSummaryRequest(w, |up.calls|, previous, sources);
      return Err(RenderFailed);
    }
    if SummaryLimit(w) > 0 && fits.value {
      r := SendSummaryRequest(w, budget, up, previous, sources);
      assert up.calls != old(up.calls) ==> up.calls[..|old(up.calls)|] == old(up.calls);
      return;
    }
    if |sources| != 1 || sources[0].body == [] {
      return Err(WindowExceeded);
    }
    r := SummarizeMessage(w, budget, up, previous, sources[0]);
    assert sources == [sources[0]];
  }

  // ----- Compaction -----

  /** A prefix that left the request: its messages, the summaries it was merged
      with, the calls made for it, and the summary committed in its place, if any. */
  datatype Batch = Batch(
    raw: seq<Message>, projected: seq<Message>, previous: seq<string>,
    from: nat, to: nat, committed: Option<string>)

  /** A committed batch was condensed whole, and what was committed is what the store made of the answer. */
  ghost predicate Honest(w: World, calls: seq<Call>, b: Batch) {
    && b.from <= b.to <= |calls| && |b.raw| == |b.projected| > 0
    && (b.committed.Some? ==>
          && Condensed(w, calls[..b.to], b.from, b.previous, b.projected)
          && w.answer(b.to - 1).Some?
          && w.commit(b.to, w.answer(b.to - 1).value) == Ok(b.committed.value))
  }

  ghost predicate AllHonest(w: World, calls: seq<Call>, batches: seq<Batch>) {
    forall k | 0 <= k < |batches| :: Honest(w, calls, batches[k])
  }

  /** The summaries in force after `batches`: the last one committed stands for all before it. */
  function InForce(batches: seq<Batch>, initial: seq<string>): seq<string> {
    if batches == [] then initial
    else
      var last := batches[|batches| - 1];
      if last.committed.Some? then [last.committed.value] else InForce(batches[..|batches| - 1], initial)
  }

  function RawOf(batches: seq<Batch>): seq<Message> {
    if batches == [] then [] else RawOf(batches[..|batches| - 1]) + batches[|batches| - 1].raw
  }

  function ProjectedOf(batches: seq<Batch>): seq<Message> {
    if batches == [] then [] else ProjectedOf(batches[..|batches| - 1]) + batches[|batches| - 1].projected
  }

  /** Each batch was merged with the summaries in force when it was taken. */
  ghost predicate Merged(batches: seq<Batch>, initial: seq<string>) {
    forall k | 0 <= k < |batches| :: batches[k].previous == InForce(batches[..k], initial)
  }

  /** Nothing is lost, repeated or reordered: the batches, in order, and then the
      rest, are the original request, as stored and as projected alike; and the burst
      is whole until the transcript is gone. */
  ghost predicate Partition(req: Request, batches: seq<Batch>, rest: Request) {
    && req.Aligned() && rest.Aligned()
    && RawOf(batches) + rest.Raw() == req.Raw() && ProjectedOf(batches) + rest.Projected() == req.Projected()
    && (rest.rawRecent != [] ==> rest.rawEvents == req.rawEvents && rest.events == req.events)
    && rest.summaries == InForce(batches, req.summaries)
  }

  function NextRequest(req: Request, b: Batch): Request
    requires req.Aligned() && |b.raw| <= req.Total()
  {
    Without(req, |b.raw|).(summaries := if b.committed.Some? then [b.committed.value] else req.summaries)
  }

  /** As much of the shortest prefix that has to go as one summary request can hold. */
  ghost predicate WellChosen(w: World, calls: nat, req: Request, count: nat)
    requires req.Aligned()
  {
    exists wanted: nat | wanted <= req.Total() ::
      ShortestPrefix(w, calls, req, wanted) && LongestBatch(w, calls, req, wanted, count)
  }

  /** A batch is dropped only because no summary came back for it, and not once the turn is cancelled. */
  ghost predicate Explained(w: World, b: Batch, left: int) {
    b.committed.None? ==>
      !w.cancelled(b.to) && exists e :: NoSummary(w, b.from, b.to, left, b.previous, b.projected, e)
  }

  /** What else may end compaction, after so many calls: the turn was cancelled, something could not be rendered,
      or the store would not take the summary. */
  ghost predicate RoundFailed(w: World, calls: nat, e: Error) {
    match e
    case Upstream => w.cancelled(calls)
    case RenderFailed => Unrenderable(w, calls)
    case WindowClosed => exists text :: w.commit(calls, text) == Err(WindowClosed)
    case StoreFailed => exists text :: w.commit(calls, text).Err? && w.commit(calls, text).error != WindowClosed
    case _ => false
  }

  /** One round: a batch is summarised and committed, or dropped when no summary came back. */
  method CompactRound(w: World, budget: ContextSummaryBudget, up: Upstream, req: Request) returns (r: Result<Batch>)
    requires req.Aligned() && req.Total() > 0
    modifies budget, up
    ensures Spent(old(budget.remaining), budget.remaining, old(up.calls), up.calls)
    ensures AllFit(w, up.calls, |old(up.calls)|)
    ensures r.Ok? ==> Honest(w, up.calls, r.value) && r.value.previous == req.summaries && Heads(req, r.value)
    ensures r.Ok? ==> WellChosen(w, |old(up.calls)|, req, |r.value.raw|) && r.value.from == |old(up.calls)|
    ensures r == Err(WindowExceeded) ==>
      up.calls == old(up.calls) && FitsWithout(w, |up.calls|, req, req.Total()) == Some(false)
    ensures r.Ok? ==> r.value.to == |up.calls| && Explained(w, r.value, budget.remaining)
    ensures r.Err? && r.error != WindowExceeded ==> RoundFailed(w, |up.calls|, r.error)
    ensures r.Err? ==> r.error != BudgetSpent
  {
    hide Condensed, FragmentChain, Carried, CallFits, FitsWithout, BatchFits, GrowsMonotonically, ShrinksMonotonically;
    hide NoSummary, Unrenderable;
    ghost var from := |up.calls|;
    var wanted := PrefixNeeded(w, |up.calls|, req);
    if wanted.Err? {
      return Err(if wanted.error == PrefixInsufficient then WindowExceeded else wanted.error);
    }
    var count := SummaryBatch(w, |up.calls|, req, wanted.value);
    if count.Err? {
      return Err(count.error);
    }
    var p := SplitPrefix(count.value, |req.rawRecent|);
    var raw := req.rawRecent[..p.recent] + req.rawEvents[..p.events];
    var projected := req.recent[..p.recent] + req.events[..p.events];
    assert raw == req.Raw()[..count.value] && projected == req.Projected()[..count.value];
    var first := |up.calls|;
    var summary := SummarizeSources(w, budget, up, req.summaries, projected);
    if summary.Err? {
      if w.cancelled(|up.calls|) {
        return Err(Error.Upstream);
      }
      return Ok(Batch(raw, projected, req.summaries, first, |up.calls|, None));
    }
    var committed := w.commit(|up.calls|, summary.value);
    if committed.Err? {
      return Err(if committed.error == WindowClosed then WindowClosed else StoreFailed);
    }
    assert up.calls[..|up.calls|] == up.calls;
    return Ok(Batch(raw, projected, req.summaries, first, |up.calls|, Some(committed.value)));
  }

  /** The last of the batches was well chosen from what those before it left of the request, and so was each of them. */
  ghost predicate AllChosen(w: World, req: Request, batches: seq<Batch>, rest: Request)
    decreases |batches|
  {
    if batches == [] then rest == req
    else
      var n := |batches| - 1;
      exists before :: AllChosen(w, req, batches[..n], before) && ChosenFrom(w, before, batches[n], rest)
  }

  ghost predicate ChosenFrom(w: World, before: Request, b: Batch, rest: Request) {
    && before.Aligned() && |b.raw| <= before.Total() && Fits(w, b.from, before) == Some(false)
    && WellChosen(w, b.from, before, |b.raw|) && rest == NextRequest(before, b)
  }

  lemma ChosenGrows(w: World, req: Request, batches: seq<Batch>, before: Request, b: Batch, rest: Request)
    requires AllChosen(w, req, batches, before) && ChosenFrom(w, before, b, rest)
    ensures AllChosen(w, req, batches + [b], rest)
  {
    hide ChosenFrom;
    assert (batches + [b])[..|batches|] == batches;
  }

  lemma HonestStays(w: World, calls: seq<Call>, later: seq<Call>, batches: seq<Batch>)
    requires AllHonest(w, calls, batches) && calls <= later
    ensures AllHonest(w, later, batches)
  {
    hide Condensed;
    forall k | 0 <= k < |batches|
      ensures Honest(w, later, batches[k])
    {
      assert later[..batches[k].to] == calls[..batches[k].to];
    }
  }

  lemma PartitionGrows(req: Request, batches: seq<Batch>, rest: Request, b: Batch)
    requires Partition(req, batches, rest) && Heads(rest, b) && |b.raw| <= rest.Total()
    ensures Partition(req, batches + [b], NextRequest(rest, b))
  {
    hide NextRequest, Heads, RawOf, ProjectedOf, InForce;
    BatchAndNext(rest, b);
    OneMoreBatch(batches, b, req.summaries);
    NextInForce(rest, b);
    Regroup(RawOf(batches), b.raw, NextRequest(rest, b).Raw());
    Regroup(ProjectedOf(batches), b.projected, NextRequest(rest, b).Projected());
  }

  lemma OneMoreBatch(batches: seq<Batch>, b: Batch, initial: seq<string>)
    ensures RawOf(batches + [b]) == RawOf(batches) + b.raw
            && ProjectedOf(batches + [b]) == ProjectedOf(batches) + b.projected
    ensures InForce(batches + [b], initial) ==
            if b.committed.Some? then [b.committed.value] else InForce(batches, initial)
  {
    assert (batches + [b])[..|batches|] == batches;
  }

  lemma NextInForce(req: Request, b: Batch)
    requires req.Aligned() && |b.raw| <= req.Total()
    ensures NextRequest(req, b).summaries == if b.committed.Some? then [b.committed.value] else req.summaries
  {
    hide Without;
  }

  lemma Regroup<T>(a: seq<T>, b: seq<T>, c: seq<T>)
    ensures a + b + c == a + (b + c)
  {
  }

  /** The batch is the head of what the request still holds. */
  ghost predicate Heads(req: Request, b: Batch) {
    && req.Aligned() && |b.raw| <= req.Total()
    && b.raw == req.Raw()[..|b.raw|] && b.projected == req.Projected()[..|b.raw|]
  }

  lemma BatchAndNext(req: Request, b: Batch)
    requires Heads(req, b)
    ensures var next := NextRequest(req, b);
            && next.Aligned() && b.raw + next.Raw() == req.Raw() && b.projected + next.Projected() == req.Projected()
            && (next.rawRecent != [] ==>
                  req.rawRecent != [] && next.rawEvents == req.rawEvents && next.events == req.events)
  {
    hide Without, NextRequest;
    NextIs(req, b);
    WithoutIsSuffix(req, |b.raw|);
    WithoutInOrder(req, |b.raw|);
    HeadAndTail(req.Raw(), |b.raw|);
    HeadAndTail(req.Projected(), |b.raw|);
  }

  lemma NextIs(req: Request, b: Batch)
    requires req.Aligned() && |b.raw| <= req.Total()
    ensures var next, r := NextRequest(req, b), Without(req, |b.raw|);
            next == r.(summaries := next.summaries) && next.Aligned() && next.Raw() == r.Raw()
            && next.Projected() == r.Projected()
  {
    hide Without;
  }

  lemma HeadAndTail<T>(s: seq<T>, n: nat)
    requires n <= |s|
    ensures s[..n] + s[n..] == s
  {
  }

  lemma WithoutInOrder(req: Request, count: nat)
    requires req.Aligned() && count <= req.Total()
    ensures var r := Without(req, count);
            r.rawRecent != [] ==> req.rawRecent != [] && r.rawEvents == req.rawEvents && r.events == req.events
  {
  }

  lemma MergedGrows(batches: seq<Batch>, initial: seq<string>, b: Batch)
    requires Merged(batches, initial) && b.previous == InForce(batches, initial)
    ensures Merged(batches + [b], initial)
  {
    var next := batches + [b];
    forall k | 0 <= k < |next|
      ensures next[k].previous == InForce(next[..k], initial)
    {
      assert next[..k] == batches[..k];
      assert batches[..|batches|] == batches;
    }
  }

  lemma TakeThenTake<T>(s: seq<T>, m: nat, n: nat)
    requires m + n <= |s|
    ensures s[..m] + s[m..][..n] == s[..m + n]
  {
  }

  /** Compaction as a whole: it ends, it makes at most three summary calls and
      each of them fits, every message is accounted for exactly once and in
      order, and a request it returns fits or has no limit to fit. */
  method CompactContextPlan(w: World, up: Upstream, req: Request)
    returns (failed: Option<Error>, rest: Request, batches: seq<Batch>)
    requires req.Aligned()
    modifies up
    ensures old(up.calls) <= up.calls && |up.calls| <= |old(up.calls)| + MAX_SUMMARY_ROUNDS
    ensures AllFit(w, up.calls, |old(up.calls)|)
    ensures Partition(req, batches, rest) && Merged(batches, req.summaries) && AllHonest(w, up.calls, batches)
    ensures AllChosen(w, req, batches, rest)
    ensures failed.None? ==> Fits(w, |up.calls|, rest) == Some(true)
    ensures failed.None? && Fits(w, |old(up.calls)|, req) == Some(true) ==>
              rest == req && batches == [] && up.calls == old(up.calls)
    ensures failed == Some(WindowExceeded) ==>
      && Fits(w, |up.calls|, rest) == Some(false)
      && (!w.hasSummarizer || rest.Total() == 0 || FitsWithout(w, |up.calls|, rest, rest.Total()) == Some(false))
    ensures AllExplained(w, |old(up.calls)|, batches)
    ensures failed.Some? && failed != Some(WindowExceeded) ==> RoundFailed(w, |up.calls|, failed.value)
    ensures Calm(w) ==> failed == None || failed == Some(WindowExceeded)
    ensures failed != Some(BudgetSpent)
  {
    hide Without, Honest, AllFit, Fits, Partition, Merged, AllHonest, WellChosen, NoSummary, AllExplained, Calm;
    CalmIsQuiet(w);
    rest, batches, failed := req, [], None;
    var budget := new ContextSummaryBudget(MAX_SUMMARY_ROUNDS);
    NothingTaken(w, up.calls, req);
    NothingToExplain(w, |up.calls|);
    var fits := Fits(w, |up.calls|, rest);
    if fits.None? {
      NoPlan(w, |up.calls|, rest);
      failed := Some(RenderFailed);
      return;
    }
    if !fits.value && !w.hasSummarizer {
      failed := Some(WindowExceeded);
      return;
    }
    while !fits.value
      invariant fresh(budget) && budget.remaining <= MAX_SUMMARY_ROUNDS
      invariant Compacted(w, old(up.calls), up.calls, req, rest, batches, budget.remaining)
      invariant AllChosen(w, req, batches, rest) && AllExplained(w, |old(up.calls)|, batches)
      invariant fits == Fits(w, |up.calls|, rest) && fits.Some?
      invariant Fits(w, |old(up.calls)|, req) == Some(true) ==>
                  rest == req && batches == [] && up.calls == old(up.calls)
      decreases rest.Total()
    {
      if rest.Total() == 0 {
        failed := Some(WindowExceeded);
        return;
      }
      ghost var before, left := up.calls, budget.remaining;
      var round := CompactRound(w, budget, up, rest);
      CallsAdd(w, old(up.calls), before, up.calls, req, rest, batches, left, budget.remaining);
      if round.Err? {
        failed := Some(round.error);
        return;
      }
      ExplainedMore(w, old(up.calls), up.calls, batches, round.value, budget.remaining);
      RoundAdds(w, old(up.calls), up.calls, req, rest, batches, round.value, budget.remaining);
      ChosenGrows(w, req, batches, rest, round.value, NextRequest(rest, round.value));
      batches := batches + [round.value];
      rest := NextRequest(rest, round.value);
      fits := Fits(w, |up.calls|, rest);
      if fits.None? {
        NoPlan(w, |up.calls|, rest);
        failed := Some(RenderFailed);
        return;
      }
    }
  }

  /** Each batch dropped was dropped for a reason, the budget being three calls from `start` on. */
  ghost predicate AllExplained(w: World, start: nat, batches: seq<Batch>) {
    forall k | 0 <= k < |batches| :: Explained(w, batches[k], MAX_SUMMARY_ROUNDS - (batches[k].to - start))
  }

  lemma NothingToExplain(w: World, start: nat)
    ensures AllExplained(w, start, [])
  {
  }

  lemma ExplainedMore(w: World, before: seq<Call>, calls: seq<Call>, batches: seq<Batch>, b: Batch, left: nat)
    requires AllExplained(w, |before|, batches) && Spent(MAX_SUMMARY_ROUNDS, left, before, calls)
    requires b.to == |calls| && Explained(w, b, left)
    ensures AllExplained(w, |before|, batches + [b])
  {
    hide Explained;
  }

  /** A world that is never cancelled, renders everything, and whose store takes every summary; what the
      provider answers does not matter. */
  ghost predicate Calm(w: World) {
    && (forall n :: !w.cancelled(n)) && (forall n, text :: w.commit(n, text).Ok?)
    && (forall n, summaries, recent, events :: w.planTokens(n, summaries, recent, events).Some?)
    && (forall n, previous, sources :: w.summaryTokens(n, previous, sources).Some?)
  }

  lemma CalmIsQuiet(w: World)
    ensures Calm(w) ==> forall calls, e :: !RoundFailed(w, calls, e)
  {
  }

  /** What compaction keeps to from round to round, `before` being the calls made when it began. */
  ghost predicate Compacted(w: World, before: seq<Call>, calls: seq<Call>, req: Request, rest: Request,
                            batches: seq<Batch>, left: nat) {
    && Spent(MAX_SUMMARY_ROUNDS, left, before, calls) && AllFit(w, calls, |before|)
    && rest.Aligned() && Partition(req, batches, rest) && Merged(batches, req.summaries) && AllHonest(w, calls, batches)
  }

  /** The calls of a round, whatever became of it, keep what came before. */
  lemma CallsAdd(w: World, before: seq<Call>, mid: seq<Call>, calls: seq<Call>, req: Request, rest: Request,
                 batches: seq<Batch>, left: nat, now: nat)
    requires Compacted(w, before, mid, req, rest, batches, left)
    requires Spent(left, now, mid, calls) && AllFit(w, calls, |mid|)
    ensures Compacted(w, before, calls, req, rest, batches, now)
  {
    hide AllFit, AllHonest, Partition, Merged;
    AllFitJoins(w, mid, calls, |before|);
    HonestStays(w, mid, calls, batches);
  }

  /** A batch taken off the rest keeps the books, and makes the rest shorter. */
  lemma RoundAdds(w: World, before: seq<Call>, calls: seq<Call>, req: Request, rest: Request, batches: seq<Batch>,
                  b: Batch, left: nat)
    requires Compacted(w, before, calls, req, rest, batches, left)
    requires Honest(w, calls, b) && b.previous == rest.summaries && Heads(rest, b)
    ensures Compacted(w, before, calls, req, NextRequest(rest, b), batches + [b], left)
    ensures NextRequest(rest, b).Total() < rest.Total()
  {
    hide Honest, AllHonest, Merged, Partition, NextRequest, AllFit, InForce;
    InForceNow(req, batches, rest);
    MergedGrows(batches, req.summaries, b);
    PartitionGrows(req, batches, rest, b);
    HonestMore(w, calls, batches, b);
    ShorterBy(rest, b);
  }

  lemma HonestMore(w: World, calls: seq<Call>, batches: seq<Batch>, b: Batch)
    requires AllHonest(w, calls, batches) && Honest(w, calls, b)
    ensures AllHonest(w, calls, batches + [b]) && |b.raw| > 0
  {
  }

  lemma InForceNow(req: Request, batches: seq<Batch>, rest: Request)
    requires Partition(req, batches, rest)
    ensures rest.summaries == InForce(batches, req.summaries)
  {
  }

  lemma ShorterBy(rest: Request, b: Batch)
    requires rest.Aligned() && |b.raw| <= rest.Total()
    ensures NextRequest(rest, b).Aligned() && NextRequest(rest, b).Total() == rest.Total() - |b.raw|
  {
  }

  lemma AllFitJoins(w: World, before: seq<Call>, after: seq<Call>, from: nat)
    requires before <= after && from <= |before| && AllFit(w, before, from) && AllFit(w, after, |before|)
    ensures AllFit(w, after, from)
  {
    hide CallFits;
  }

  lemma NothingTaken(w: World, calls: seq<Call>, req: Request)
    requires req.Aligned()
    ensures Compacted(w, calls, calls, req, req, [], MAX_SUMMARY_ROUNDS)
  {
  }
}
