/** The cached model catalogue: many demands, one fetch in flight, and a key that may
    change under it. Each region between two locks, and each access to a field that is
    read or written atomically, is one step. */
module Catalogue {
  import opened Options

  datatype ListState = NeverFetched | Fetched | Unavailable

  /** Thirty seconds. */
  const RETRY_BACKOFF := 30

  datatype Answer = Ready | Refused | Leads(load: nat) | Waits(load: nat)

  /** How far a fetch is: its models reach the cache before the list state tells of them, and
      its failure reaches the list state before the time of it is stamped. */
  datatype Stage = Fetching | Cached | Failing | Settled

  /** A fetch and the key it was made with. */
  datatype Load = Load(key: nat, stage: Stage)

  /** A demand with the key it brings; it is through once the list state is no obstacle. */
  datatype Asker = Asker(key: nat, through: bool)

  /** The cache, with the key it was fetched for; the fetch in flight, if any; the list
      state and when it last failed; the key in force, how many changes of it have still
      to clear the cache and how many that did have still to reset the list state; every
      unfinished fetch, which demands are on their way to the cache, and who waits for which fetch. */
  datatype State = State(
    ready: bool, cachedFor: nat, inFlight: Option<nat>, list: ListState, failedAt: Option<int>,
    key: nat, clearing: nat, resetting: nat, loads: map<nat, Load>, next: nat,
    asking: map<nat, Asker>, waiting: map<nat, nat>)

  datatype Step =
    | Look(who: nat, key: nat)
    | Weigh(who: nat, now: int)
    | Enter(who: nat)
    | Cache(load: nat)
    | Tell(load: nat)
    | Fail(load: nat)
    | Stamp(load: nat, now: int)
    | Close(load: nat)
    | Wake(who: nat)
    | ChangeKey
    | Clear
    | Reset

  const START := State(false, 0, None, NeverFetched, None, 0, 0, 0, map[], 0, map[], map[])

  predicate At(s: State, n: nat, stage: Stage) { n in s.loads && s.loads[n].stage == stage }

  predicate Asking(s: State, who: nat, through: bool) { who in s.asking && s.asking[who].through == through }

  /** A demand snapshots the key before it looks at the list state, so it may bring an older one. */
  predicate Enabled(s: State, step: Step) {
    match step
    case Look(who, key) => who !in s.asking && who !in s.waiting && key <= s.key
    case Weigh(who, _) => Asking(s, who, false)
    case Enter(who) => Asking(s, who, true)
    case Cache(n) => At(s, n, Fetching)
    case Tell(n) => At(s, n, Cached)
    case Fail(n) => At(s, n, Fetching)
    case Stamp(n, _) => At(s, n, Failing)
    case Close(n) => At(s, n, Settled)
    case Wake(who) => who in s.waiting && s.waiting[who] !in s.loads
    case ChangeKey => true
    case Clear => s.clearing > 0
    case Reset => s.resetting > 0
  }

  predicate Due(failedAt: Option<int>, now: int) { failedAt.None? || now - failedAt.value >= RETRY_BACKOFF }

  predicate RetryDue(s: State, now: int) { s.list != Unavailable || Due(s.failedAt, now) }

  /** A demand that looks at the cache finds it filled, joins the fetch in flight, or leads one of its own. */
  function Entered(s: State, who: nat): State
    requires who in s.asking
  {
    var t := s.(asking := s.asking - {who});
    if s.ready then t
    else if s.inFlight.Some? then t.(waiting := s.waiting[who := s.inFlight.value])
    else
      t.(inFlight := Some(s.next), loads := s.loads[s.next := Load(s.asking[who].key, Fetching)], next := s.next + 1)
  }

  /** A demand that found the list unavailable goes on if a retry is due, and is refused otherwise. */
  function Weighed(s: State, who: nat, now: int): State
    requires who in s.asking
  {
    if Due(s.failedAt, now) then s.(asking := s.asking[who := s.asking[who].(through := true)])
    else s.(asking := s.asking - {who})
  }

  function Reached(s: State, n: nat, stage: Stage): map<nat, Load>
    requires n in s.loads
  {
    s.loads[n := s.loads[n].(stage := stage)]
  }

  function After(s: State, step: Step): State
    requires Enabled(s, step)
  {
    match step
    case Look(who, key) => s.(asking := s.asking[who := Asker(key, s.list != Unavailable)])
    case Weigh(who, now) => Weighed(s, who, now)
    case Enter(who) => Entered(s, who)
    case Cache(n) => s.(loads := Reached(s, n, Cached), ready := true, cachedFor := s.loads[n].key)
    case Tell(n) => s.(loads := Reached(s, n, Settled), list := Fetched)
    case Fail(n) => s.(loads := Reached(s, n, Failing), list := Unavailable)
    case Stamp(n, now) => s.(loads := Reached(s, n, Settled), failedAt := Some(now))
    case Close(n) => s.(inFlight := None, loads := s.loads - {n})
    case Wake(who) => s.(waiting := s.waiting - {who})
    case ChangeKey => s.(key := s.key + 1, clearing := s.clearing + 1)
    case Clear => s.(ready := false, clearing := s.clearing - 1, resetting := s.resetting + 1)
    case Reset => s.(list := NeverFetched, resetting := s.resetting - 1)
  }

  /** The fetch in flight is the only unfinished one, and everybody waits for it or for one
      that is over. The cache is empty while models are fetched; and where the list state calls
      a filled cache unavailable, the fetch that filled it is about to say otherwise. */
  predicate SingleFlight(s: State) {
    && (forall n | n in s.loads :: s.inFlight == Some(n) && n < s.next && s.loads[n].key <= s.key)
    && (s.inFlight.Some? ==> s.inFlight.value in s.loads)
    && (forall who | who in s.asking :: who !in s.waiting && s.asking[who].key <= s.key)
    && (forall who | who in s.waiting :: s.waiting[who] < s.next)
    && (s.ready ==> s.cachedFor <= s.key)
    && (forall n | n in s.loads && s.loads[n].stage == Fetching :: !s.ready)
    && (s.ready && s.list == Unavailable ==> s.inFlight.Some? && At(s, s.inFlight.value, Cached))
  }

  lemma StepKeeps(s: State, step: Step)
    requires SingleFlight(s) && Enabled(s, step)
    ensures SingleFlight(After(s, step))
  {
  }

  /** What the cache holds was fetched for the key in force, unless it is about to be cleared. */
  predicate Fresh(s: State) { s.ready ==> s.cachedFor == s.key || s.clearing > 0 }

  /** The step puts the catalogue of an older key in the cache: a fetch that was under way,
      or begun with an old snapshot, when the key changed. */
  predicate Stale(s: State, step: Step) {
    step.Cache? && step.load in s.loads && s.loads[step.load].key != s.key && s.clearing == 0
  }

  /** The cache stops being fresh exactly when such a fetch comes back after the clearing that was meant to drop it. */
  lemma FreshExactlyUntilStale(s: State, step: Step)
    requires SingleFlight(s) && Fresh(s) && Enabled(s, step)
    ensures Fresh(After(s, step)) <==> !Stale(s, step)
  {
  }

  ghost predicate CanRun(s: State, steps: seq<Step>)
    decreases |steps|
  {
    steps == [] || (Enabled(s, steps[0]) && CanRun(After(s, steps[0]), steps[1..]))
  }

  ghost predicate NeverStale(s: State, steps: seq<Step>)
    requires CanRun(s, steps)
    decreases |steps|
  {
    steps == [] || (!Stale(s, steps[0]) && NeverStale(After(s, steps[0]), steps[1..]))
  }

  ghost function Final(s: State, steps: seq<Step>): State
    requires CanRun(s, steps)
    decreases |steps|
  {
    if steps == [] then s else Final(After(s, steps[0]), steps[1..])
  }

  lemma {:induction false} KeepsThroughout(s: State, steps: seq<Step>)
    requires SingleFlight(s) && CanRun(s, steps)
    ensures SingleFlight(Final(s, steps))
    decreases |steps|
  {
    hide SingleFlight, Enabled, After;
    if steps != [] {
      StepKeeps(s, steps[0]);
      KeepsThroughout(After(s, steps[0]), steps[1..]);
    }
  }

  /** Over any interleaving at most one fetch is unfinished; and the cache stays fresh as
      long as no fetch straddles a change of key. */
  lemma {:induction false} OneFetchAtATime(s: State, steps: seq<Step>)
    requires SingleFlight(s) && CanRun(s, steps)
    ensures var t := Final(s, steps);
            SingleFlight(t) && |t.loads| <= 1 && (Fresh(s) && NeverStale(s, steps) ==> Fresh(t))
    decreases |steps|
  {
    if steps == [] {
      AtMostOne(s.loads, s.inFlight);
    } else {
      StepKeeps(s, steps[0]);
      if Fresh(s) && NeverStale(s, steps) {
        FreshExactlyUntilStale(s, steps[0]);
      }
      OneFetchAtATime(After(s, steps[0]), steps[1..]);
    }
  }

  lemma AtMostOne(loads: map<nat, Load>, inFlight: Option<nat>)
    requires forall n | n in loads :: inFlight == Some(n)
    ensures |loads| <= 1
  {
    if inFlight.Some? {
      assert loads.Keys <= {inFlight.value};
      assert |loads.Keys| <= |{inFlight.value}| by { Subset(loads.Keys, {inFlight.value}); }
      assert |loads| == |loads.Keys|;
    } else {
      assert loads == map[];
    }
  }

  lemma Subset(a: set<nat>, b: set<nat>)
    requires a <= b
    ensures |a| <= |b|
  {
    assert b == a + (b - a);
  }

  // ----- After a change of key -----

  /** What a demand that meets nobody else is told. */
  function AnswerTo(s: State, now: int): Answer {
    if !RetryDue(s, now) then Refused
    else if s.ready then Ready
    else if s.inFlight.Some? then Waits(s.inFlight.value)
    else Leads(s.next)
  }

  /** That is what comes of the steps of such a demand, and a fetch it leads is made with the key it brings. */
  lemma AnswerOfTheSteps(s: State, who: nat, key: nat, now: int)
    requires SingleFlight(s) && Enabled(s, Look(who, key))
    ensures var looked := After(s, Look(who, key));
            var weighed := if s.list == Unavailable then After(looked, Weigh(who, now)) else looked;
            if AnswerTo(s, now).Refused? then weighed == s
            else
              && Enabled(weighed, Enter(who))
              && var t := After(weighed, Enter(who));
                 match AnswerTo(s, now)
                 case Waits(n) => t == s.(waiting := s.waiting[who := n])
                 case Leads(n) => t == s.(inFlight := Some(n), loads := map[n := Load(key, Fetching)], next := n + 1)
                 case _ => t == s
  {
    assert (s.asking[who := Asker(key, true)]) - {who} == s.asking;
    assert (s.asking[who := Asker(key, false)]) - {who} == s.asking;
    assert (s.asking[who := Asker(key, false)])[who := Asker(key, true)] == s.asking[who := Asker(key, true)];
    assert s.inFlight == None ==> s.loads == map[];
  }

  predicate HasCache(steps: seq<Step>) { exists step | step in steps :: step.Cache? }

  predicate HasFail(steps: seq<Step>) { exists step | step in steps :: step.Fail? }

  /** When a failure was last stamped. */
  function LastStamp(steps: seq<Step>): Option<int> {
    if steps == [] then None
    else if steps[|steps| - 1].Stamp? then Some(steps[|steps| - 1].now)
    else LastStamp(steps[..|steps| - 1])
  }

  lemma FirstAndRest(steps: seq<Step>)
    requires steps != []
    ensures HasCache(steps) <==> steps[0].Cache? || HasCache(steps[1..])
    ensures HasFail(steps) <==> steps[0].Fail? || HasFail(steps[1..])
    ensures forall step :: step in steps <==> step == steps[0] || step in steps[1..]
  {
    assert steps == [steps[0]] + steps[1..];
  }

  lemma {:induction false} LastStampOfRest(steps: seq<Step>)
    requires steps != []
    ensures LastStamp(steps) ==
            if LastStamp(steps[1..]).Some? then LastStamp(steps[1..])
            else if steps[0].Stamp? then Some(steps[0].now) else None
  {
    var n := |steps| - 1;
    if n > 0 {
      assert steps[..n][1..] == steps[1..][..n - 1];
      LastStampOfRest(steps[..n]);
    } else {
      assert steps[..n] == [];
    }
  }

  /** Without a clearing, a cache that was filled stays filled. */
  lemma {:induction false} ReadyWithoutClear(s: State, steps: seq<Step>)
    requires CanRun(s, steps) && forall step | step in steps :: !step.Clear?
    ensures Final(s, steps).ready <==> s.ready || HasCache(steps)
    decreases |steps|
  {
    if steps != [] {
      FirstAndRest(steps);
      ReadyWithoutClear(After(s, steps[0]), steps[1..]);
    }
  }

  predicate NoneCached(s: State) { forall n | n in s.loads :: s.loads[n].stage != Cached }

  /** Once reset, the list state comes to say unavailable exactly by a failure, as long as no models come back. */
  lemma {:induction false} ListWithoutCache(s: State, steps: seq<Step>)
    requires SingleFlight(s) && CanRun(s, steps) && !HasCache(steps) && forall step | step in steps :: !step.Reset?
    requires s.list == Unavailable ==> NoneCached(s)
    ensures Final(s, steps).list == Unavailable <==> s.list == Unavailable || HasFail(steps)
    decreases |steps|
  {
    if steps != [] {
      FirstAndRest(steps);
      StepKeeps(s, steps[0]);
      OneStepWithoutCache(s, steps[0]);
      hide SingleFlight, Enabled, After, NoneCached;
      ListWithoutCache(After(s, steps[0]), steps[1..]);
    }
  }

  lemma OneStepWithoutCache(s: State, step: Step)
    requires SingleFlight(s) && Enabled(s, step) && !step.Cache? && !step.Reset?
    requires s.list == Unavailable ==> NoneCached(s)
    ensures var t := After(s, step);
            && (t.list == Unavailable <==> s.list == Unavailable || step.Fail?)
            && (t.list == Unavailable ==> NoneCached(t))
  {
  }

  lemma {:induction false} FailedAtIsLastStamp(s: State, steps: seq<Step>)
    requires CanRun(s, steps)
    ensures Final(s, steps).failedAt == if LastStamp(steps).Some? then LastStamp(steps) else s.failedAt
    decreases |steps|
  {
    if steps != [] {
      LastStampOfRest(steps);
      FailedAtIsLastStamp(After(s, steps[0]), steps[1..]);
    }
  }

  lemma {:induction false} FailingIsStamped(s: State, n: nat, steps: seq<Step>)
    requires CanRun(s, steps) && At(s, n, Failing) && n !in Final(s, steps).loads && n < s.next
    ensures LastStamp(steps).Some?
    decreases |steps|
  {
    LastStampOfRest(steps);
    if !steps[0].Stamp? {
      FailingIsStamped(After(s, steps[0]), n, steps[1..]);
    }
  }

  lemma {:induction false} EndedFailureIsStamped(s: State, steps: seq<Step>)
    requires SingleFlight(s) && CanRun(s, steps) && HasFail(steps) && Final(s, steps).loads == map[]
    ensures LastStamp(steps).Some?
    decreases |steps|
  {
    FirstAndRest(steps);
    LastStampOfRest(steps);
    StepKeeps(s, steps[0]);
    if steps[0].Fail? {
      FailingIsStamped(After(s, steps[0]), steps[0].load, steps[1..]);
    } else {
      EndedFailureIsStamped(After(s, steps[0]), steps[1..]);
    }
  }

  /** All that happens from the last clearing of the cache, in `s`, on: `before` the last reset of
      the list state, and `after` it. */
  ghost predicate SinceClearing(s: State, before: seq<Step>, after: seq<Step>) {
    && s.clearing > 0 && (forall step | step in before :: !step.Clear?)
    && (forall step | step in after :: !step.Clear? && !step.Reset?)
    && var cleared := After(s, Clear);
       && CanRun(cleared, before) && Enabled(Final(cleared, before), Reset)
       && CanRun(After(Final(cleared, before), Reset), after)
  }

  ghost function Outcome(s: State, before: seq<Step>, after: seq<Step>): State
    requires SinceClearing(s, before, after)
  {
    Final(After(Final(After(s, Clear), before), Reset), after)
  }

  /** Nothing of what was under way when the key changed stands in the way of the next demand: no
      models came back since the clearing, no fetch is unfinished, and no failure since the reset is recent. */
  ghost predicate NothingLeft(s: State, before: seq<Step>, after: seq<Step>, now: int)
    requires SinceClearing(s, before, after)
  {
    && !HasCache(before) && !HasCache(after) && Outcome(s, before, after).loads == map[]
    && (HasFail(after) ==> Due(LastStamp(after), now))
  }

  /** After a change of key the next demand loads afresh exactly when nothing is left of an older fetch. */
  lemma LoadsAfreshExactlyWhenNothingLeft(s: State, before: seq<Step>, after: seq<Step>, now: int)
    requires SingleFlight(s) && SinceClearing(s, before, after)
    ensures AnswerTo(Outcome(s, before, after), now).Leads? <==> NothingLeft(s, before, after, now)
  {
    var cleared := After(s, Clear);
    var closed := Final(cleared, before);
    var reset := After(closed, Reset);
    var f := Final(reset, after);
    StepKeeps(s, Clear);
    KeepsThroughout(cleared, before);
    StepKeeps(closed, Reset);
    KeepsThroughout(reset, after);
    ReadyWithoutClear(cleared, before);
    ReadyWithoutClear(reset, after);
    FailedAtIsLastStamp(reset, after);
    if !HasCache(after) {
      ListWithoutCache(reset, after);
      if HasFail(after) && f.loads == map[] {
        EndedFailureIsStamped(reset, after);
      }
    }
    LoadsAreInFlight(f);
  }

  lemma LoadsAreInFlight(s: State)
    requires SingleFlight(s)
    ensures s.inFlight == None <==> s.loads == map[]
  {
    if s.inFlight == None {
      assert s.loads == map[];
    }
  }

  // ----- When that is certain -----

  /** Nobody asks for the catalogue anew and no further change of key sets in. */
  predicate NobodyComes(steps: seq<Step>) { forall step | step in steps :: !step.Look? && !step.ChangeKey? }

  predicate Idle(s: State) { s.loads == map[] && s.asking == map[] }

  lemma {:induction false} IdleStays(s: State, steps: seq<Step>)
    requires CanRun(s, steps) && Idle(s) && NobodyComes(steps)
    ensures Idle(Final(s, steps)) && !HasCache(steps) && !HasFail(steps)
    decreases |steps|
  {
    if steps != [] {
      FirstAndRest(steps);
      IdleStays(After(s, steps[0]), steps[1..]);
    }
  }

  /** Whatever the steps that are still to come, the next demand leads a fetch. */
  ghost predicate SureToLoad(s: State) {
    forall before, after, now | SinceClearing(s, before, after) && NobodyComes(before) && NobodyComes(after) ::
      AnswerTo(Outcome(s, before, after), now).Leads?
  }

  /** The next demand is sure to load afresh exactly if no fetch is in flight and no demand is on
      its way to the cache when the change of key clears it. */
  lemma SureToLoadExactlyWhenIdle(s: State)
    requires SingleFlight(s) && s.clearing > 0
    ensures SureToLoad(s) <==> Idle(s)
  {
    if Idle(s) {
      forall before, after, now | SinceClearing(s, before, after) && NobodyComes(before) && NobodyComes(after)
        ensures AnswerTo(Outcome(s, before, after), now).Leads?
      {
        IdleStays(After(s, Clear), before);
        IdleStays(After(Final(After(s, Clear), before), Reset), after);
        LoadsAfreshExactlyWhenNothingLeft(s, before, after, now);
      }
    } else {
      SomethingInTheWay(s);
    }
  }

  lemma SomethingInTheWay(s: State)
    requires SingleFlight(s) && s.clearing > 0 && !Idle(s)
    ensures !SureToLoad(s)
  {
    var reset := After(After(s, Clear), Reset);
    if s.loads != map[] {
      LoadsAreInFlight(s);
      Blocked(s, [], 0);
    } else {
      var who :| who in s.asking;
      if s.asking[who].through {
        OneStep(reset, Enter(who), []);
        Blocked(s, [Enter(who)] + [], 0);
      } else {
        var now := if s.failedAt.Some? then s.failedAt.value + RETRY_BACKOFF else 0;
        var weighed := After(reset, Weigh(who, now));
        OneStep(weighed, Enter(who), []);
        OneStep(reset, Weigh(who, now), [Enter(who)] + []);
        Blocked(s, [Weigh(who, now)] + ([Enter(who)] + []), 0);
      }
    }
  }

  lemma Blocked(s: State, after: seq<Step>, now: int)
    requires s.clearing > 0 && NobodyComes(after) && forall step | step in after :: !step.Clear? && !step.Reset?
    requires CanRun(After(After(s, Clear), Reset), after)
    requires Final(After(After(s, Clear), Reset), after).inFlight.Some?
    ensures !SureToLoad(s)
  {
    hide CanRun;
    NothingRuns(After(s, Clear));
    assert SinceClearing(s, [], after);
    assert !AnswerTo(Outcome(s, [], after), now).Leads?;
  }

  lemma NothingRuns(s: State)
    ensures CanRun(s, []) && Final(s, []) == s
  {
  }

  // ----- Where the promise fails -----

  lemma OneStep(s: State, step: Step, rest: seq<Step>)
    requires Enabled(s, step) && CanRun(After(s, step), rest)
    ensures CanRun(s, [step] + rest) && Final(s, [step] + rest) == Final(After(s, step), rest)
  {
    hide Enabled, After;
    assert ([step] + rest)[1..] == rest;
  }

  lemma {:induction false} OneMoreStep(s: State, steps: seq<Step>, step: Step)
    requires CanRun(s, steps) && Enabled(Final(s, steps), step)
    ensures CanRun(s, steps + [step]) && Final(s, steps + [step]) == After(Final(s, steps), step)
    ensures NeverStale(s, steps) && !Stale(Final(s, steps), step) ==> NeverStale(s, steps + [step])
    decreases |steps|
  {
    hide Enabled, After, Stale;
    var all := steps + [step];
    if steps == [] {
      assert all[1..] == [];
    } else {
      assert all[1..] == steps[1..] + [step];
      OneMoreStep(After(s, steps[0]), steps[1..], step);
    }
  }

  /** The key changes while a fetch is under way, and cache and list state are cleared before the fetch is back. */
  const CHANGED := [] + [Look(0, 0)] + [Enter(0)] + [ChangeKey] + [Clear] + [Reset]

  /** Where that leaves everything: the fetch for the old key is still in flight. */
  const OVERTAKEN :=
    State(false, 0, Some(0), NeverFetched, None, 1, 0, 0, map[0 := Load(0, Fetching)], 1, map[], map[])

  lemma Overtaken()
    ensures CanRun(START, CHANGED) && NeverStale(START, CHANGED) && Final(START, CHANGED) == OVERTAKEN
  {
    var looked, entered := [] + [Look(0, 0)], [] + [Look(0, 0)] + [Enter(0)];
    OneMoreStep(START, [], Look(0, 0));
    OneMoreStep(START, looked, Enter(0));
    assert Final(START, entered).asking == map[];
    hide CanRun, NeverStale, Final;
    OneMoreStep(START, entered, ChangeKey);
    OneMoreStep(START, entered + [ChangeKey], Clear);
    OneMoreStep(START, entered + [ChangeKey] + [Clear], Reset);
  }

  /** A stale catalogue gets in: the fetch begun before the key changed is not dropped. */
  lemma AStaleCatalogueGetsIn()
    ensures var steps := CHANGED + [Cache(0)] + [Tell(0)];
            && CanRun(START, steps)
            && var t := Final(START, steps);
               t.ready && t.cachedFor == 0 && t.key == 1 && t.clearing == 0 && t.resetting == 0 && t.list == Fetched
  {
    Overtaken();
    hide CanRun, NeverStale, Final;
    OneMoreStep(START, CHANGED, Cache(0));
    OneMoreStep(START, CHANGED + [Cache(0)], Tell(0));
  }

  /** Nothing stale gets in where that fetch fails; but the demand with the new key is refused for its failure. */
  lemma AnOldFailureRefuses()
    ensures var steps := CHANGED + [Fail(0)] + [Stamp(0, 100)] + [Close(0)];
            && CanRun(START, steps) && NeverStale(START, steps)
            && var t := Final(START, steps);
               && t.key == 1 && t.clearing == 0 && t.resetting == 0 && !t.ready && t.loads == map[]
               && AnswerTo(t, 129) == Refused && AnswerTo(t, 130).Leads?
  {
    Overtaken();
    hide CanRun, NeverStale, Final;
    OneMoreStep(START, CHANGED, Fail(0));
    OneMoreStep(START, CHANGED + [Fail(0)], Stamp(0, 100));
    OneMoreStep(START, CHANGED + [Fail(0)] + [Stamp(0, 100)], Close(0));
  }

  /** And before it is back, the demand with the new key waits for the fetch made with the old one. */
  lemma AnOldFetchIsJoined()
    ensures CanRun(START, CHANGED) && NeverStale(START, CHANGED)
    ensures var t := Final(START, CHANGED);
            && t.key == 1 && t.clearing == 0 && t.resetting == 0
            && 0 in t.loads && t.loads[0].key == 0 && AnswerTo(t, 0) == Waits(0)
  {
    Overtaken();
    hide CanRun, NeverStale, Final;
  }

  // ----- How long a failure counts -----

  /** The last failure told has not been stamped yet. */
  predicate FailedLast(steps: seq<Step>) {
    steps != [] &&
      var n := |steps| - 1;
      steps[n].Fail? || (!steps[n].Stamp? && FailedLast(steps[..n]))
  }

  predicate NoneStamped(steps: seq<Step>) { forall step | step in steps :: !step.Stamp? }

  lemma {:induction false} FailedFromRest(steps: seq<Step>)
    requires steps != []
    ensures FailedLast(steps) <==> FailedLast(steps[1..]) || (steps[0].Fail? && NoneStamped(steps[1..]))
  {
    var n := |steps| - 1;
    if n > 0 {
      assert steps[..n][1..] == steps[1..][..n - 1] && steps[1..] == steps[1..][..n - 1] + [steps[n]];
      FailedFromRest(steps[..n]);
    } else {
      assert steps[..n] == [] && steps[1..] == [];
    }
  }

  predicate Unstamped(s: State) { s.inFlight.Some? && At(s, s.inFlight.value, Failing) }

  lemma StampedStep(s: State, step: Step)
    requires SingleFlight(s) && Enabled(s, step)
    ensures Unstamped(After(s, step)) <==> step.Fail? || (Unstamped(s) && !step.Stamp?)
  {
  }

  lemma {:induction false} UnstampedIsFailedLast(s: State, steps: seq<Step>)
    requires SingleFlight(s) && CanRun(s, steps)
    ensures Unstamped(Final(s, steps)) <==> FailedLast(steps) || (Unstamped(s) && NoneStamped(steps))
    decreases |steps|
  {
    if steps != [] {
      FailedFromRest(steps);
      FirstAndRest(steps);
      StepKeeps(s, steps[0]);
      StampedStep(s, steps[0]);
      hide SingleFlight, Enabled, After, Unstamped;
      UnstampedIsFailedLast(After(s, steps[0]), steps[1..]);
    }
  }

  /** A list that is unavailable refuses demands for thirty seconds from the last stamp; and that is the
      stamp of the last failure exactly if the fetch that failed has got round to it. */
  lemma BackoffCountsFromTheStamp(steps: seq<Step>, now: int)
    requires CanRun(START, steps) && Final(START, steps).list == Unavailable
    ensures RetryDue(Final(START, steps), now) <==> Due(LastStamp(steps), now)
    ensures FailedLast(steps) <==> Unstamped(Final(START, steps))
  {
    FailedAtIsLastStamp(START, steps);
    UnstampedIsFailedLast(START, steps);
  }

  /** Until then a first failure refuses nobody. */
  lemma AnUnstampedFailureRefusesNobody(now: int)
    ensures var steps := [] + [Look(0, 0)] + [Enter(0)] + [Fail(0)];
            CanRun(START, steps) && Final(START, steps).list == Unavailable && RetryDue(Final(START, steps), now)
  {
    var looked, entered := [] + [Look(0, 0)], [] + [Look(0, 0)] + [Enter(0)];
    OneMoreStep(START, [], Look(0, 0));
    OneMoreStep(START, looked, Enter(0));
    OneMoreStep(START, entered, Fail(0));
  }

  // ----- What those who wait are told -----

  /** The cache was filled, and not cleared since. */
  predicate FilledLast(steps: seq<Step>) {
    steps != [] &&
      var n := |steps| - 1;
      steps[n].Cache? || (!steps[n].Clear? && FilledLast(steps[..n]))
  }

  lemma {:induction false} FilledFromRest(steps: seq<Step>)
    requires steps != []
    ensures FilledLast(steps) <==>
            FilledLast(steps[1..]) || (steps[0].Cache? && forall step | step in steps[1..] :: !step.Clear?)
  {
    var n := |steps| - 1;
    if n > 0 {
      assert steps[..n][1..] == steps[1..][..n - 1] && steps[1..] == steps[1..][..n - 1] + [steps[n]];
      FilledFromRest(steps[..n]);
    } else {
      assert steps[..n] == [] && steps[1..] == [];
    }
  }

  lemma {:induction false} ReadyIsFilledLast(s: State, steps: seq<Step>)
    requires CanRun(s, steps)
    ensures Final(s, steps).ready <==> FilledLast(steps) || (s.ready && forall step | step in steps :: !step.Clear?)
    decreases |steps|
  {
    if steps != [] {
      FilledFromRest(steps);
      FirstAndRest(steps);
      ReadyIsFilledLast(After(s, steps[0]), steps[1..]);
    }
  }

  lemma {:induction false} WaitsUntilClosed(s: State, who: nat, n: nat, steps: seq<Step>)
    requires SingleFlight(s) && CanRun(s, steps) && who in s.waiting && s.waiting[who] == n && Wake(who) !in steps
    ensures var t := Final(s, steps);
            && who in t.waiting && t.waiting[who] == n
            && (Enabled(t, Wake(who)) <==> n !in s.loads || Close(n) in steps)
    decreases |steps|
  {
    if steps != [] {
      FirstAndRest(steps);
      StepKeeps(s, steps[0]);
      StepOfAFetch(s, n, steps[0]);
      assert who in After(s, steps[0]).waiting && After(s, steps[0]).waiting[who] == n;
      hide SingleFlight, After;
      WaitsUntilClosed(After(s, steps[0]), who, n, steps[1..]);
    }
  }

  lemma StepOfAFetch(s: State, n: nat, step: Step)
    requires SingleFlight(s) && Enabled(s, step) && n < s.next
    ensures n in After(s, step).loads <==> n in s.loads && step != Close(n)
  {
  }

  /** A fetch under way is closed only once its models are cached or its failure is told, and never both. */
  lemma {:induction false} ClosedAfterItsOutcome(s: State, n: nat, steps: seq<Step>)
    requires SingleFlight(s) && CanRun(s, steps) && At(s, n, Fetching)
    ensures Close(n) in steps ==> (Cache(n) in steps <==> Fail(n) !in steps)
    decreases |steps|
  {
    if steps != [] {
      FirstAndRest(steps);
      StepKeeps(s, steps[0]);
      if steps[0] == Cache(n) || steps[0] == Fail(n) {
        OutcomeIsFinal(After(s, steps[0]), n, steps[1..]);
      } else {
        ClosedAfterItsOutcome(After(s, steps[0]), n, steps[1..]);
      }
    }
  }

  lemma {:induction false} OutcomeIsFinal(s: State, n: nat, steps: seq<Step>)
    requires SingleFlight(s) && CanRun(s, steps) && n < s.next && !At(s, n, Fetching)
    ensures Cache(n) !in steps && Fail(n) !in steps
    decreases |steps|
  {
    if steps != [] {
      FirstAndRest(steps);
      StepKeeps(s, steps[0]);
      assert !At(After(s, steps[0]), n, Fetching);
      hide SingleFlight, After;
      OutcomeIsFinal(After(s, steps[0]), n, steps[1..]);
    }
  }

  /** Whatever happens meanwhile: whoever waits for a fetch can go on exactly once it has closed, which it
      does with one outcome, and is told the catalogue is there exactly if models came back and nothing
      cleared them since. */
  lemma WaitersHearTheOutcome(s: State, who: nat, steps: seq<Step>)
    requires SingleFlight(s) && s.inFlight.Some? && At(s, s.inFlight.value, Fetching)
    requires who in s.waiting && s.waiting[who] == s.inFlight.value && CanRun(s, steps) && Wake(who) !in steps
    ensures var n, t := s.inFlight.value, Final(s, steps);
            && (Enabled(t, Wake(who)) <==> Close(n) in steps)
            && (Close(n) in steps ==> (Cache(n) in steps <==> Fail(n) !in steps))
            && (t.ready <==> FilledLast(steps))
  {
    WaitsUntilClosed(s, who, s.inFlight.value, steps);
    ClosedAfterItsOutcome(s, s.inFlight.value, steps);
    ReadyIsFilledLast(s, steps);
  }

  /** The list state calls a filled cache unavailable only between the two halves of a fetch that succeeded. */
  lemma RefusedOnlyBetween(steps: seq<Step>, now: int)
    requires CanRun(START, steps) && !RetryDue(Final(START, steps), now) && Final(START, steps).ready
    ensures var t := Final(START, steps); t.inFlight.Some? && At(t, t.inFlight.value, Cached)
  {
    OneFetchAtATime(START, steps);
  }

  class ModelCatalogue {
    var ready: bool
    var cachedFor: nat
    var inFlight: Option<nat>
    var list: ListState
    var failedAt: Option<int>
    ghost var key: nat
    ghost var clearing: nat
    ghost var resetting: nat
    ghost var loads: map<nat, Load>
    var next: nat
    ghost var asking: map<nat, Asker>
    ghost var waiting: map<nat, nat>

    ghost function Abs(): State
      reads this
    {
      State(ready, cachedFor, inFlight, list, failedAt, key, clearing, resetting, loads, next, asking, waiting)
    }

    /** A demand reads the list state; only a failed one makes it look further. */
    method LookAtList(ghost who: nat, ghost with: nat) returns (through: bool)
      requires SingleFlight(Abs()) && Enabled(Abs(), Look(who, with))
      modifies this
      ensures Abs() == After(old(Abs()), Look(who, with)) && SingleFlight(Abs())
      ensures through == Asking(Abs(), who, true)
    {
      StepKeeps(Abs(), Look(who, with));
      through := list != Unavailable;
      asking := asking[who := Asker(with, through)];
    }

    /** Whether the failure is old enough to try again. */
    method RetryIsDue(ghost who: nat, now: int) returns (due: bool)
      requires SingleFlight(Abs()) && Enabled(Abs(), Weigh(who, now))
      modifies this
      ensures Abs() == After(old(Abs()), Weigh(who, now)) && SingleFlight(Abs())
      ensures due == Asking(Abs(), who, true)
    {
      StepKeeps(Abs(), Weigh(who, now));
      due := failedAt.None? || now - failedAt.value >= RETRY_BACKOFF;
      asking := if due then asking[who := asking[who].(through := true)] else asking - {who};
    }

    /** A demand that may go on looks at the cache, joins the fetch in flight or leads one of its own. */
    method EnsureLoaded(ghost who: nat) returns (r: Answer)
      requires SingleFlight(Abs()) && Enabled(Abs(), Enter(who))
      modifies this
      ensures Abs() == After(old(Abs()), Enter(who)) && SingleFlight(Abs()) && !r.Refused?
      ensures r.Leads? ==> old(inFlight) == None && inFlight == Some(r.load)
      ensures r.Leads? ==> r.load in loads && loads[r.load] == Load(old(asking[who].key), Fetching)
      ensures r.Waits? ==> r.load in loads && who in waiting && waiting[who] == r.load
      ensures r.Ready? <==> old(ready)
    {
      StepKeeps(Abs(), Enter(who));
      assert After(Abs(), Enter(who)) == Entered(Abs(), who);
      hide After;
      ghost var with := asking[who].key;
      asking := asking - {who};
      if ready {
        return Ready;
      }
      if inFlight.Some? {
        waiting := waiting[who := inFlight.value];
        return Waits(inFlight.value);
      }
      r := Leads(next);
      inFlight := Some(next);
      loads := loads[next := Load(with, Fetching)];
      next := next + 1;
    }

    /** The models of a fetch, put in the cache under its lock. */
    method CacheModels(n: nat, fetchedFor: nat)
      requires SingleFlight(Abs()) && n in loads && loads[n] == Load(fetchedFor, Fetching)
      modifies this
      ensures Abs() == After(old(Abs()), Cache(n)) && SingleFlight(Abs())
    {
      StepKeeps(Abs(), Cache(n));
      loads := loads[n := Load(fetchedFor, Cached)];
      ready, cachedFor := true, fetchedFor;
    }

    /** The list state after a fetch: told of the models once they are cached, or of the failure. */
    method SettleList(n: nat, ok: bool)
      requires SingleFlight(Abs()) && At(Abs(), n, if ok then Cached else Fetching)
      modifies this
      ensures Abs() == After(old(Abs()), if ok then Tell(n) else Fail(n)) && SingleFlight(Abs())
    {
      StepKeeps(Abs(), if ok then Tell(n) else Fail(n));
      loads := loads[n := loads[n].(stage := if ok then Settled else Failing)];
      list := if ok then Fetched else Unavailable;
    }

    /** When the failure was, once the list state has it. */
    method StampFailure(n: nat, now: int)
      requires SingleFlight(Abs()) && At(Abs(), n, Failing)
      modifies this
      ensures Abs() == After(old(Abs()), Stamp(n, now)) && SingleFlight(Abs())
    {
      StepKeeps(Abs(), Stamp(n, now));
      loads := loads[n := loads[n].(stage := Settled)];
      failedAt := Some(now);
    }

    /** What a change of key does to the cache, under its lock. */
    method ClearCache()
      requires SingleFlight(Abs()) && clearing > 0
      modifies this
      ensures Abs() == After(old(Abs()), Clear) && SingleFlight(Abs())
    {
      StepKeeps(Abs(), Clear);
      ready, clearing, resetting := false, clearing - 1, resetting + 1;
    }

    /** And, after that, to the list state. */
    method ResetList()
      requires SingleFlight(Abs()) && resetting > 0
      modifies this
      ensures Abs() == After(old(Abs()), Reset) && SingleFlight(Abs())
    {
      StepKeeps(Abs(), Reset);
      list, resetting := NeverFetched, resetting - 1;
    }
  }
}
