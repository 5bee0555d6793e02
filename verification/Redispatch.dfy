/** The dispatch loop of one model client: bursts filed into one batch a window,
    and the single second attempt a transient failure earns. */
module Redispatch {
  import opened Options
  import TurnLoop

  type Channel = string

  datatype Trigger = Invite(body: string) | Traffic(body: string)

  /** What a delivery means to the loop: it raises a turn, opens or closes a window, or neither. */
  datatype Delivery =
    | Raises(channel: Channel, trigger: Trigger)
    | Opens(channel: Channel)
    | Closes(channel: Channel)
    | Quiet

  datatype Batch = Batch(id: nat, channel: Channel, triggers: seq<Trigger>, retried: bool)

  /** Names the batch a re-dispatch was scheduled for; a later batch may take its place behind it. */
  datatype Token = Token(id: nat, channel: Channel)

  datatype Pending = Pending(token: Token, batch: Batch)

  /** One attempt that was made. */
  datatype Run = Run(id: nat, retried: bool, executed: bool)

  /** How an attempt can end: one that ran a tool is never replayable. */
  datatype Ending = Ending(failure: Option<TurnLoop.Failure>, executed: bool)
  type Possible = e: Ending | CanEnd(e) witness Ending(None, false)

  predicate CanEnd(e: Ending) { e.executed && e.failure.Some? ==> !TurnLoop.Replayable(e.failure.value) }

  /** However a turn ends, it ends in one of the ways the loop is proved for. */
  method OneTurn(w: TurnLoop.World, a: TurnLoop.Attempt)
    returns (failure: Option<TurnLoop.Failure>, ghost ending: Possible)
    requires a.log == []
    modifies a
    ensures ending == Ending(failure, TurnLoop.HasRun(a.log))
  {
    hide TurnLoop.HasRun, TurnLoop.Chain, TurnLoop.Final;
    var o;
    o, failure := TurnLoop.RunTurn(w, a);
    if TurnLoop.HasRun(a.log) && failure.Some? {
      TurnLoop.RanIsNotReplayed(w, a.log, o, failure);
    }
    ending := Ending(failure, TurnLoop.HasRun(a.log));
  }

  // ----- Filing a burst -----

  /** The triggers a window has gathered since it was last closed. */
  function TriggersFor(ds: seq<Delivery>, ch: Channel): seq<Trigger> {
    if ds == [] then []
    else
      var d, rest := ds[|ds| - 1], TriggersFor(ds[..|ds| - 1], ch);
      match d
      case Raises(c, t) => if c == ch then rest + [t] else rest
      case Closes(c) => if c == ch then [] else rest
      case _ => rest
  }

  predicate Raised(ds: seq<Delivery>, ch: Channel) { exists d | d in ds :: d.Raises? && d.channel == ch }

  predicate ClosedIn(ds: seq<Delivery>, ch: Channel) { Closes(ch) in ds }

  /** Whether the last of the burst to open or close a window closed it. */
  predicate LeftClosed(ds: seq<Delivery>, ch: Channel) {
    if ds == [] then false
    else
      match ds[|ds| - 1]
      case Closes(c) => c == ch || LeftClosed(ds[..|ds| - 1], ch)
      case Opens(c) => c != ch && LeftClosed(ds[..|ds| - 1], ch)
      case _ => LeftClosed(ds[..|ds| - 1], ch)
  }

  predicate Invitation(b: Batch) { b.triggers != [] && forall t | t in b.triggers :: t.Invite? }

  predicate HasWindow(bs: seq<Batch>, ch: Channel) { exists i | 0 <= i < |bs| :: bs[i].channel == ch }

  /** The windows a burst raises, in the order it first does. */
  function Windows(ds: seq<Delivery>): seq<Channel> {
    if ds == [] then []
    else
      var before, d := Windows(ds[..|ds| - 1]), ds[|ds| - 1];
      if d.Raises? && d.channel !in before then before + [d.channel] else before
  }

  function Channels(bs: seq<Batch>): seq<Channel> { seq(|bs|, i requires 0 <= i < |bs| => bs[i].channel) }

  /** One batch for each window the burst raises, in the order it first does, each holding what
      the window has gathered. */
  ghost predicate Filed(all: seq<Delivery>, ds: seq<Delivery>, first: nat, bs: seq<Batch>) {
    && (forall i | 0 <= i < |bs| ::
          bs[i].id == first + i && !bs[i].retried && bs[i].triggers == TriggersFor(ds, bs[i].channel))
    && (forall i, j | 0 <= i < j < |bs| :: bs[i].channel != bs[j].channel)
    && (forall ch :: Raised(all, ch) <==> HasWindow(bs, ch)) && Channels(bs) == Windows(all)
  }

  method FileBatch(ds: seq<Delivery>, first: nat) returns (bs: seq<Batch>)
    ensures Filed(ds, ds, first, bs)
  {
    bs := OpenBatches(ds, first);
    for i := 0 to |ds|
      invariant Filed(ds, ds[..i], first, bs)
    {
      assert ds[..i + 1] == ds[..i] + [ds[i]];
      bs := FileDelivery(ds, ds[..i], first, bs, ds[i]);
    }
    assert ds[..|ds|] == ds;
  }

  method OpenBatches(ds: seq<Delivery>, first: nat) returns (bs: seq<Batch>)
    ensures Filed(ds, [], first, bs)
  {
    bs := [];
    for i := 0 to |ds|
      invariant Filed(ds[..i], [], first, bs)
    {
      assert ds[..i + 1] == ds[..i] + [ds[i]];
      bs := OpenBatch(ds[..i], first, bs, ds[i]);
    }
    assert ds[..|ds|] == ds;
  }

  method OpenBatch(ghost before: seq<Delivery>, first: nat, bs: seq<Batch>, d: Delivery) returns (r: seq<Batch>)
    requires Filed(before, [], first, bs)
    ensures Filed(before + [d], [], first, r)
  {
    NothingYet();
    hide HasWindow, TriggersFor, Raised, Windows;
    r := bs;
    RaisedMore(before, d);
    WindowsMore(before, d);
    if !d.Raises? {
      return;
    }
    var i := WindowIndex(bs, d.channel);
    ChannelsHave(bs, d.channel);
    if i == |bs| {
      r := bs + [Batch(first + |bs|, d.channel, [], false)];
      OneMoreWindow(bs, r[|bs|]);
      assert Channels(r) == Channels(bs) + [d.channel];
    }
  }

  method FileDelivery(ghost all: seq<Delivery>, ghost before: seq<Delivery>, first: nat, bs: seq<Batch>, d: Delivery)
    returns (r: seq<Batch>)
    requires Filed(all, before, first, bs) && d in all
    ensures Filed(all, before + [d], first, r)
  {
    RaisesIn(all, d);
    hide HasWindow, TriggersFor, Raised, Windows;
    r := bs;
    RaisedMore(before, d);
    if d.Quiet? || d.Opens? {
      return;
    }
    var i := WindowIndex(bs, d.channel);
    if i < |bs| {
      r := bs[i := bs[i].(triggers := if d.Closes? then [] else bs[i].triggers + [d.trigger])];
      SameWindows(bs, r);
      assert Channels(r) == Channels(bs);
    }
  }

  lemma WindowsMore(before: seq<Delivery>, d: Delivery)
    ensures Windows(before + [d]) ==
            if d.Raises? && d.channel !in Windows(before) then Windows(before) + [d.channel] else Windows(before)
  {
    assert (before + [d])[..|before|] == before;
  }

  lemma ChannelsHave(bs: seq<Batch>, ch: Channel)
    ensures ch in Channels(bs) <==> HasWindow(bs, ch)
  {
    if HasWindow(bs, ch) {
      var i :| 0 <= i < |bs| && bs[i].channel == ch;
      assert Channels(bs)[i] == ch;
    }
  }

  method WindowIndex(bs: seq<Batch>, ch: Channel) returns (i: nat)
    ensures i <= |bs| && (i < |bs| ==> bs[i].channel == ch)
    ensures forall k | 0 <= k < i :: bs[k].channel != ch
    ensures HasWindow(bs, ch) <==> i < |bs|
  {
    i := 0;
    while i < |bs| && bs[i].channel != ch
      invariant 0 <= i <= |bs| && forall k | 0 <= k < i :: bs[k].channel != ch
    {
      i := i + 1;
    }
  }

  lemma RaisedMore(before: seq<Delivery>, d: Delivery)
    ensures forall ch :: Raised(before + [d], ch) <==> Raised(before, ch) || (d.Raises? && d.channel == ch)
    ensures forall ch :: TriggersFor(before + [d], ch) == match d
        case Raises(c, t) => if c == ch then TriggersFor(before, ch) + [t] else TriggersFor(before, ch)
        case Closes(c) => if c == ch then [] else TriggersFor(before, ch)
        case _ => TriggersFor(before, ch)
  {
    assert (before + [d])[..|before|] == before;
  }

  lemma NothingYet()
    ensures forall ch :: TriggersFor([], ch) == []
  {
  }

  lemma RaisesIn(ds: seq<Delivery>, d: Delivery)
    ensures d in ds && d.Raises? ==> Raised(ds, d.channel)
  {
  }

  lemma SameWindows(bs: seq<Batch>, r: seq<Batch>)
    requires |r| == |bs| && forall k | 0 <= k < |bs| :: r[k].channel == bs[k].channel
    ensures forall ch :: HasWindow(r, ch) <==> HasWindow(bs, ch)
  {
  }

  lemma OneMoreWindow(bs: seq<Batch>, b: Batch)
    ensures forall ch :: HasWindow(bs + [b], ch) <==> HasWindow(bs, ch) || b.channel == ch
  {
    assert (bs + [b])[|bs|].channel == b.channel;
    forall ch | HasWindow(bs, ch)
      ensures HasWindow(bs + [b], ch)
    {
      var i :| 0 <= i < |bs| && bs[i].channel == ch;
      assert (bs + [b])[i].channel == ch;
    }
  }

  /** A batch that gathered nothing belongs to a window the burst closed. */
  lemma {:induction false} EmptyMeansClosed(ds: seq<Delivery>, ch: Channel)
    requires Raised(ds, ch) && TriggersFor(ds, ch) == []
    ensures ClosedIn(ds, ch)
  {
    var last := ds[|ds| - 1];
    if last != Closes(ch) {
      var d :| d in ds && d.Raises? && d.channel == ch;
      assert d in ds[..|ds| - 1];
      EmptyMeansClosed(ds[..|ds| - 1], ch);
    }
  }

  // ----- The loop's state -----

  /** The waiting re-dispatches by window; the timers still to fire, each with
      the token it was started for; and every attempt made so far, oldest first. */
  datatype State = State(pending: map<Channel, Pending>, timers: multiset<Token>, runs: seq<Run>, nextId: nat)

  predicate Tried(runs: seq<Run>, id: nat) { exists i | 0 <= i < |runs| :: runs[i].id == id }

  /** Every attempt made of the batch so far was a first one that ran no tool. */
  predicate MayRetry(runs: seq<Run>, id: nat) {
    forall i | 0 <= i < |runs| && runs[i].id == id :: !runs[i].executed && !runs[i].retried
  }

  /** A batch is attempted again only after a first attempt that ran no tool, and then never more. */
  predicate RunsOk(runs: seq<Run>, nextId: nat) {
    && (forall i, j | 0 <= i < j < |runs| && runs[i].id == runs[j].id ::
         !runs[i].executed && !runs[i].retried && runs[j].retried)
    && (forall i | 0 <= i < |runs| :: runs[i].id < nextId)
  }

  /** A waiting batch waits in its own window, has used up its retry, and has one timer out with its token. */
  predicate Waiting(s: State, ch: Channel)
    requires ch in s.pending
  {
    var Pending(t, b) := s.pending[ch];
    && t.channel == ch && b.channel == ch && b.retried && b.triggers != []
    && s.timers[t] == 1 && b.id < s.nextId && MayRetry(s.runs, b.id)
  }

  ghost predicate Sound(s: State) {
    && (forall ch | ch in s.pending :: Waiting(s, ch))
    && (forall a, b | a in s.pending && b in s.pending && a != b :: s.pending[a].batch.id != s.pending[b].batch.id)
    && (forall t | t in s.timers :: s.timers[t] == 1 && Tried(s.runs, t.id))
    && RunsOk(s.runs, s.nextId)
  }

  predicate Unqueued(s: State, id: nat) { forall ch | ch in s.pending :: s.pending[ch].batch.id != id }

  /** A batch newer than anything the loop has attempted or holds. */
  predicate Fresh(s: State, b: Batch) { !b.retried && b.id < s.nextId && !Tried(s.runs, b.id) && Unqueued(s, b.id) }

  /** A batch that may be attempted now: nothing waits in its window, and it is new or was claimed. */
  predicate Ready(s: State, b: Batch) {
    && b.channel !in s.pending && b.triggers != []
    && (Fresh(s, b) || (b.retried && b.id < s.nextId && Unqueued(s, b.id) && MayRetry(s.runs, b.id)))
  }

  function Merged(s: State, b: Batch): State {
    if b.channel !in s.pending then s
    else s.(pending := s.pending[b.channel := Pending(s.pending[b.channel].token, b.(retried := true))])
  }

  function Ran(s: State, b: Batch, executed: bool): State { s.(runs := s.runs + [Run(b.id, b.retried, executed)]) }

  function Held(s: State, b: Batch): State {
    var t := Token(b.id, b.channel);
    s.(pending := s.pending[b.channel := Pending(t, b.(retried := true))], timers := s.timers + multiset{t})
  }

  function Attempted(s: State, b: Batch, executed: bool, again: bool): State {
    if again then Held(Ran(s, b, executed), b) else Ran(s, b, executed)
  }

  lemma RanMore(runs: seq<Run>, r: Run)
    ensures forall id :: Tried(runs + [r], id) <==> Tried(runs, id) || id == r.id
    ensures forall id :: MayRetry(runs + [r], id) <==> MayRetry(runs, id) && (id == r.id ==> !r.executed && !r.retried)
  {
    var more := runs + [r];
    assert more[|runs|] == r;
    forall id
      ensures Tried(more, id) <==> Tried(runs, id) || id == r.id
      ensures MayRetry(more, id) <==> MayRetry(runs, id) && (id == r.id ==> !r.executed && !r.retried)
    {
      assert forall i | 0 <= i < |runs| :: more[i] == runs[i];
    }
  }

  lemma RunsGrow(runs: seq<Run>, nextId: nat, r: Run)
    requires RunsOk(runs, nextId) && r.id < nextId
    requires if r.retried then MayRetry(runs, r.id) else !Tried(runs, r.id)
    ensures RunsOk(runs + [r], nextId)
  {
  }

  lemma UntriedMayRetry(runs: seq<Run>, id: nat)
    ensures !Tried(runs, id) ==> MayRetry(runs, id)
  {
  }

  lemma SupersedeKeeps(s: State, ch: Channel)
    requires Sound(s)
    ensures Sound(s.(pending := s.pending - {ch}))
  {
    hide MayRetry, Tried, RunsOk;
    var r := s.(pending := s.pending - {ch});
    assert forall c | c in r.pending :: Waiting(s, c);
  }

  lemma MergeKeeps(s: State, b: Batch)
    requires Sound(s) && Fresh(s, b) && b.triggers != []
    ensures Sound(Merged(s, b))
  {
    UntriedMayRetry(s.runs, b.id);
    hide MayRetry, Tried, RunsOk;
    var r := Merged(s, b);
    assert forall c | c in r.pending :: Waiting(s, c);
    assert forall t | t in r.timers :: t in s.timers;
  }

  lemma ClaimKeeps(s: State, t: Token)
    requires Sound(s) && t in s.timers
    ensures var live := t.channel in s.pending && s.pending[t.channel].token == t;
            var p := if live then s.pending - {t.channel} else s.pending;
            Sound(s.(pending := p, timers := s.timers - multiset{t}))
  {
    hide MayRetry, Tried, RunsOk;
    assert forall c | c in s.pending :: Waiting(s, c);
    assert forall u | u in s.timers - multiset{t} :: u in s.timers;
  }

  lemma RunKeeps(s: State, b: Batch, executed: bool)
    requires Sound(s) && Ready(s, b)
    ensures Sound(Ran(s, b, executed))
  {
    var run := Run(b.id, b.retried, executed);
    RanMore(s.runs, run);
    RunsGrow(s.runs, s.nextId, run);
    hide MayRetry, Tried, RunsOk;
    var r := Ran(s, b, executed);
    assert forall c | c in r.pending :: Waiting(s, c) && Waiting(r, c);
  }

  lemma HoldKeeps(s: State, b: Batch)
    requires Sound(s) && b.channel !in s.pending && Unqueued(s, b.id) && b.triggers != [] && b.id < s.nextId
    requires Tried(s.runs, b.id) && MayRetry(s.runs, b.id) && s.timers[Token(b.id, b.channel)] == 0
    ensures Sound(Held(s, b))
  {
    hide MayRetry, Tried, RunsOk;
    var r := Held(s, b);
    forall c | c in r.pending
      ensures Waiting(r, c)
    {
      assert c in s.pending ==> Waiting(s, c);
    }
  }

  /** An attempt keeps the books: a batch scheduled again was new, so its token cannot be out already. */
  lemma AttemptKeeps(s: State, b: Batch, executed: bool, again: bool)
    requires Sound(s) && Ready(s, b) && (again ==> !b.retried && !executed)
    ensures Sound(Attempted(s, b, executed, again))
  {
    RunKeeps(s, b, executed);
    if again {
      RanMore(s.runs, Run(b.id, b.retried, executed));
      UntriedMayRetry(s.runs, b.id);
      hide MayRetry, Tried, RunsOk, Waiting;
      assert Token(b.id, b.channel) !in s.timers;
      HoldKeeps(Ran(s, b, executed), b);
    }
  }

  /** What is ready besides the attempted batch stays ready. */
  lemma StillReady(s: State, b: Batch, executed: bool, again: bool, c: Batch)
    requires Ready(s, b) && Ready(s, c) && b.channel != c.channel && b.id != c.id
    ensures Ready(Attempted(s, b, executed, again), c)
  {
    RanMore(s.runs, Run(b.id, b.retried, executed));
    hide MayRetry, Tried;
  }

  /** What the world makes of one attempt: how it ends, whether a delay can be drawn
      for another, and whether it ends the client's connection. */
  datatype Verdict = Verdict(ending: Possible, scheduled: bool, leaves: bool)

  /** A first attempt that failed transiently, or over the length of its prompt, and a delay could be drawn. */
  predicate EarnsAnother(b: Batch, v: Verdict) {
    && !b.retried && v.scheduled
    && (v.ending.failure == Some(TurnLoop.Transient) || v.ending.failure == Some(TurnLoop.PromptTooLong))
  }

  /** The batch waits in its window for the one timer started for it, and nothing else has changed. */
  predicate WaitsAgain(was: map<Channel, Pending>, out: multiset<Token>, pending: map<Channel, Pending>,
                       timers: multiset<Token>, b: Batch) {
    && b.channel in pending && pending[b.channel].batch == b.(retried := true)
    && timers == out + multiset{pending[b.channel].token} && timers[pending[b.channel].token] == 1
    && pending - {b.channel} == was - {b.channel}
  }

  predicate Again(b: Batch, v: Verdict) {
    v.ending.failure.Some? && !b.retried && TurnLoop.Replayable(v.ending.failure.value) && v.scheduled
  }

  lemma EarnsExactly(b: Batch, v: Verdict)
    ensures Again(b, v) <==> EarnsAnother(b, v)
  {
  }

  /** A new batch that is held waits behind a token that is not out yet. */
  lemma HeldWaits(s: State, b: Batch, executed: bool)
    requires Sound(s) && Ready(s, b) && !b.retried
    ensures var r := Attempted(s, b, executed, true); WaitsAgain(s.pending, s.timers, r.pending, r.timers, b)
  {
    hide MayRetry, RunsOk, Waiting;
    assert Token(b.id, b.channel) !in s.timers;
  }

  /** After these attempts what waited still waits, and besides it exactly the batches that earned another. */
  predicate WaitFor(was: map<Channel, Pending>, now: map<Channel, Pending>, done: seq<Batch>,
                    verdict: Batch -> Verdict) {
    && (forall ch | ch in was :: ch in now && now[ch] == was[ch])
    && (forall ch | ch in now && ch !in was ::
          exists b | b in done ::
            b.channel == ch && EarnsAnother(b, verdict(b)) && now[ch].batch == b.(retried := true))
    && (forall b | b in done && EarnsAnother(b, verdict(b)) ::
          b.channel in now && now[b.channel].batch == b.(retried := true))
  }

  lemma NobodyWaits(was: map<Channel, Pending>, verdict: Batch -> Verdict)
    ensures WaitFor(was, was, [], verdict)
  {
  }

  lemma OneMoreWaits(was: map<Channel, Pending>, mid: map<Channel, Pending>, now: map<Channel, Pending>,
                     out: multiset<Token>, timers: multiset<Token>, done: seq<Batch>, b: Batch,
                     verdict: Batch -> Verdict)
    requires WaitFor(was, mid, done, verdict) && b.channel !in mid
    requires if EarnsAnother(b, verdict(b)) then WaitsAgain(mid, out, now, timers, b) else now == mid
    ensures WaitFor(was, now, done + [b], verdict)
  {
    hide EarnsAnother;
    if EarnsAnother(b, verdict(b)) {
      forall ch | ch != b.channel
        ensures (ch in now <==> ch in mid) && (ch in now ==> now[ch] == mid[ch])
      {
        assert ch in now <==> ch in now - {b.channel};
        assert ch in now ==> (now - {b.channel})[ch] == now[ch];
      }
    }
    assert b in done + [b];
    assert forall c | c in done :: c in done + [b];
  }

  // ----- A burst against what waits -----

  predicate Skipped(b: Batch, closed: set<Channel>) { b.channel in closed && !Invitation(b) }

  function MergedAll(s: State, bs: seq<Batch>, closed: set<Channel>): State {
    if bs == [] then s
    else
      var b, before := bs[|bs| - 1], MergedAll(s, bs[..|bs| - 1], closed);
      if Skipped(b, closed) then before else Merged(before, b)
  }

  /** The batches left to run: not skipped, with something to answer, and nothing waiting in their window. */
  function Kept(s: State, bs: seq<Batch>, closed: set<Channel>): seq<Batch> {
    if bs == [] then []
    else
      var b, before := bs[|bs| - 1], Kept(s, bs[..|bs| - 1], closed);
      if Skipped(b, closed) || b.channel in s.pending || b.triggers == [] then before else before + [b]
  }

  /** One batch a window, in the order they were filed. */
  predicate Distinct(bs: seq<Batch>) {
    forall i, j | 0 <= i < j < |bs| :: bs[i].channel != bs[j].channel && bs[i].id < bs[j].id
  }

  /** Batches a burst filed: new to the loop, and none empty or closed in a window where something waits. */
  predicate Mergeable(s: State, bs: seq<Batch>, closed: set<Channel>) {
    && Distinct(bs) && (forall b | b in bs :: Fresh(s, b))
    && (forall b | b in bs && b.channel in s.pending :: b.channel !in closed && b.triggers != [])
  }

  /** The batch that waits in a window once a burst is merged: the burst's last for it, or else the old one. */
  function NewestFor(waiting: Batch, bs: seq<Batch>, ch: Channel): Batch {
    if bs == [] then waiting
    else if bs[|bs| - 1].channel == ch then bs[|bs| - 1].(retried := true)
    else NewestFor(waiting, bs[..|bs| - 1], ch)
  }

  /** The same windows wait behind the same timers, each for the newest batch filed for it. */
  predicate Replaced(s: State, bs: seq<Batch>, r: State) {
    && r.pending.Keys == s.pending.Keys && r == s.(pending := r.pending)
    && forall ch | ch in r.pending ::
         r.pending[ch].token == s.pending[ch].token && r.pending[ch].batch == NewestFor(s.pending[ch].batch, bs, ch)
  }

  lemma {:induction false} MergedAllKeeps(s: State, bs: seq<Batch>, closed: set<Channel>)
    requires Sound(s) && Mergeable(s, bs, closed)
    ensures Sound(MergedAll(s, bs, closed)) && Replaced(s, bs, MergedAll(s, bs, closed))
  {
    if bs != [] {
      var before, b := bs[..|bs| - 1], bs[|bs| - 1];
      MergeableBefore(s, bs, closed);
      MergedAllKeeps(s, before, closed);
      var m := MergedAll(s, before, closed);
      NewestId(s, before, b.id);
      FreshAfter(s, m, before, b);
      ReplacedMore(s, bs, m, closed);
      hide Sound, Fresh, Replaced, Distinct;
      if !Skipped(b, closed) && b.channel in s.pending {
        assert b in bs;
        assert b.channel in m.pending;
        MergeKeeps(m, b);
      }
    }
  }

  lemma MergeableBefore(s: State, bs: seq<Batch>, closed: set<Channel>)
    requires bs != [] && Mergeable(s, bs, closed)
    ensures var before, b := bs[..|bs| - 1], bs[|bs| - 1];
            Mergeable(s, before, closed) && Fresh(s, b) && (forall c | c in before :: c.id != b.id)
            && (b.channel in s.pending ==> b.channel !in closed && b.triggers != [])
  {
    hide Fresh;
    assert bs[|bs| - 1] in bs;
    assert forall b | b in bs[..|bs| - 1] :: b in bs;
  }

  lemma {:induction false} NewestId(s: State, bs: seq<Batch>, id: nat)
    requires Unqueued(s, id) && forall b | b in bs :: b.id != id
    ensures forall ch | ch in s.pending :: NewestFor(s.pending[ch].batch, bs, ch).id != id
  {
    if bs != [] {
      NewestId(s, bs[..|bs| - 1], id);
    }
  }

  lemma FreshAfter(s: State, m: State, before: seq<Batch>, b: Batch)
    requires Fresh(s, b) && Replaced(s, before, m)
    requires forall ch | ch in s.pending :: NewestFor(s.pending[ch].batch, before, ch).id != b.id
    ensures Fresh(m, b)
  {
  }

  lemma ReplacedMore(s: State, bs: seq<Batch>, m: State, closed: set<Channel>)
    requires bs != [] && Replaced(s, bs[..|bs| - 1], m)
    requires bs[|bs| - 1].channel in s.pending ==> bs[|bs| - 1].channel !in closed
    ensures Replaced(s, bs, if Skipped(bs[|bs| - 1], closed) then m else Merged(m, bs[|bs| - 1]))
  {
  }

  lemma {:induction false} KeptExactly(s: State, bs: seq<Batch>, closed: set<Channel>)
    requires Distinct(bs)
    ensures Distinct(Kept(s, bs, closed))
    ensures forall b :: b in Kept(s, bs, closed) <==>
                        b in bs && !Skipped(b, closed) && b.channel !in s.pending && b.triggers != []
  {
    if bs != [] {
      KeptExactly(s, bs[..|bs| - 1], closed);
      DistinctGrows(Kept(s, bs[..|bs| - 1], closed), bs);
      assert forall b :: b in bs <==> b in bs[..|bs| - 1] || b == bs[|bs| - 1];
    }
  }

  lemma DistinctGrows(kept: seq<Batch>, bs: seq<Batch>)
    requires bs != [] && Distinct(bs) && Distinct(kept) && forall b | b in kept :: b in bs[..|bs| - 1]
    ensures Distinct(kept + [bs[|bs| - 1]])
  {
    assert forall i | 0 <= i < |kept| :: kept[i] in kept;
  }

  function Unclosed(pending: map<Channel, Pending>, ds: seq<Delivery>): map<Channel, Pending> {
    map ch | ch in pending && !ClosedIn(ds, ch) :: pending[ch]
  }

  lemma UnclosedMore(pending: map<Channel, Pending>, ds: seq<Delivery>, d: Delivery)
    ensures Unclosed(pending, ds + [d]) ==
            if d.Closes? then Unclosed(pending, ds) - {d.channel} else Unclosed(pending, ds)
    ensures forall ch :: LeftClosed(ds + [d], ch) <==>
              if d == Closes(ch) then true else LeftClosed(ds, ch) && d != Opens(ch)
  {
    assert (ds + [d])[..|ds|] == ds;
    forall ch
      ensures ClosedIn(ds + [d], ch) <==> ClosedIn(ds, ch) || d == Closes(ch)
    {
    }
  }

  lemma FiledIsMergeable(s: State, ds: seq<Delivery>, first: nat, bs: seq<Batch>, closed: set<Channel>)
    requires Sound(s.(nextId := first)) && Filed(ds, ds, first, bs) && s.nextId == first + |bs|
    requires (forall ch | ch in s.pending :: !ClosedIn(ds, ch)) && (forall ch | ch in closed :: ClosedIn(ds, ch))
    ensures Sound(s) && Mergeable(s, bs, closed)
  {
    var was := s.(nextId := first);
    hide MayRetry, TriggersFor, ClosedIn, Raised;
    assert forall ch | ch in s.pending :: Waiting(was, ch) && Waiting(s, ch);
    forall b | b in bs
      ensures Fresh(s, b) && (b.channel in s.pending ==> b.channel !in closed && b.triggers != [])
    {
      var i :| 0 <= i < |bs| && bs[i] == b;
      assert HasWindow(bs, b.channel);
      if b.channel in s.pending && b.triggers == [] {
        EmptyMeansClosed(ds, b.channel);
      }
    }
  }

  /** What a burst makes of the loop: closing a window cancels what waits for it; a
      window where something waits keeps its timer and waits for the newest traffic;
      every other window with something to answer has one batch to run now, unless
      the burst left it closed and it holds more than invitations. */
  ghost predicate Taken(ds: seq<Delivery>, was: State, s: State, kept: seq<Batch>) {
    && s.timers == was.timers && s.runs == was.runs
    && (forall ch :: ch in s.pending <==> ch in was.pending && !ClosedIn(ds, ch))
    && (forall ch | ch in s.pending :: s.pending[ch].token == was.pending[ch].token
         && NowWaiting(ds, was, ch, s.pending[ch].batch))
    && Distinct(kept)
    && (forall b | b in kept :: Ready(s, b) && Fresh(s, b) && b.triggers == TriggersFor(ds, b.channel))
    && forall ch :: HasWindow(kept, ch) <==> RunsNow(ds, s, ch)
  }

  lemma TakenIsReady(ds: seq<Delivery>, was: State, s: State, kept: seq<Batch>)
    requires Taken(ds, was, s, kept)
    ensures AllReady(s, kept)
  {
    hide Ready, Fresh, RunsNow, NowWaiting, TriggersFor;
  }

  predicate NowWaiting(ds: seq<Delivery>, was: State, ch: Channel, b: Batch)
    requires ch in was.pending
  {
    if Raised(ds, ch) then b.id >= was.nextId && b.triggers == TriggersFor(ds, ch) else b == was.pending[ch].batch
  }

  predicate RunsNow(ds: seq<Delivery>, s: State, ch: Channel) {
    && Raised(ds, ch) && TriggersFor(ds, ch) != [] && ch !in s.pending
    && (LeftClosed(ds, ch) ==> forall t | t in TriggersFor(ds, ch) :: t.Invite?)
  }

  /** Every batch of the list may be attempted, in any order. */
  predicate AllReady(s: State, bs: seq<Batch>) { Distinct(bs) && forall b | b in bs :: Ready(s, b) }

  lemma ReadyIsAlone(s: State, b: Batch)
    requires Ready(s, b)
    ensures b.channel !in s.pending
  {
  }

  lemma FirstReady(s: State, bs: seq<Batch>)
    requires bs != [] && AllReady(s, bs)
    ensures Ready(s, bs[0])
  {
  }

  lemma RestReady(s: State, bs: seq<Batch>, executed: bool, again: bool)
    requires bs != [] && AllReady(s, bs)
    ensures AllReady(Attempted(s, bs[0], executed, again), bs[1..])
  {
    forall c | c in bs[1..]
      ensures Ready(Attempted(s, bs[0], executed, again), c)
    {
      StillReady(s, bs[0], executed, again, c);
    }
  }

  /** The runs a list of batches makes until the client leaves. */
  function RunsFor(bs: seq<Batch>, verdict: Batch -> Verdict): seq<Run> {
    if bs == [] then []
    else
      var v := verdict(bs[0]);
      [Run(bs[0].id, bs[0].retried, v.ending.executed)] + if v.leaves then [] else RunsFor(bs[1..], verdict)
  }

  lemma RunsForFirst(bs: seq<Batch>, verdict: Batch -> Verdict)
    ensures RunsFor([], verdict) == []
    ensures bs != [] ==> var v := verdict(bs[0]);
              RunsFor(bs, verdict) == [Run(bs[0].id, bs[0].retried, v.ending.executed)]
                                        + if v.leaves then [] else RunsFor(bs[1..], verdict)
  {
  }

  lemma RunsForRest(bs: seq<Batch>, n: nat, verdict: Batch -> Verdict)
    requires n < |bs|
    ensures var v := verdict(bs[n]);
            RunsFor(bs[n..], verdict) == [Run(bs[n].id, bs[n].retried, v.ending.executed)]
                                           + if v.leaves then [] else RunsFor(bs[n + 1..], verdict)
  {
    assert bs[n..][1..] == bs[n + 1..];
  }

  lemma {:induction false} NewestIsFiled(waiting: Batch, bs: seq<Batch>, ch: Channel)
    ensures if HasWindow(bs, ch)
            then exists i | 0 <= i < |bs| ::
                   bs[i].channel == ch && NewestFor(waiting, bs, ch) == bs[i].(retried := true)
            else NewestFor(waiting, bs, ch) == waiting
  {
    if bs != [] && bs[|bs| - 1].channel != ch {
      NewestIsFiled(waiting, bs[..|bs| - 1], ch);
    }
  }

  lemma MergedWaits(ds: seq<Delivery>, was: State, bs: seq<Batch>, ch: Channel)
    requires Filed(ds, ds, was.nextId, bs) && ch in was.pending
    ensures NowWaiting(ds, was, ch, NewestFor(was.pending[ch].batch, bs, ch))
  {
    NewestIsFiled(was.pending[ch].batch, bs, ch);
    hide TriggersFor, Raised, NewestFor;
    assert Raised(ds, ch) <==> HasWindow(bs, ch);
  }

  lemma KeptRuns(ds: seq<Delivery>, s: State, first: nat, bs: seq<Batch>, closed: set<Channel>, ch: Channel)
    requires Filed(ds, ds, first, bs) && Mergeable(s, bs, closed) && (ch in closed <==> LeftClosed(ds, ch))
    ensures HasWindow(Kept(s, bs, closed), ch) <==> RunsNow(ds, s, ch)
  {
    KeptExactly(s, bs, closed);
    hide TriggersFor, Raised, LeftClosed, Kept;
    var kept := Kept(s, bs, closed);
    assert Raised(ds, ch) <==> HasWindow(bs, ch);
    if RunsNow(ds, s, ch) {
      var i :| 0 <= i < |bs| && bs[i].channel == ch;
      assert bs[i] in kept;
    }
    if HasWindow(kept, ch) {
      var i :| 0 <= i < |kept| && kept[i].channel == ch;
      assert kept[i] in kept;
    }
  }

  /** A batch kept to run is in no window's wait, also once the others are merged. */
  lemma KeptReady(ds: seq<Delivery>, s: State, bs: seq<Batch>, closed: set<Channel>, first: nat, b: Batch)
    requires Mergeable(s, bs, closed) && Replaced(s, bs, MergedAll(s, bs, closed))
    requires b in Kept(s, bs, closed) && Filed(ds, ds, first, bs)
    ensures var m := MergedAll(s, bs, closed); Ready(m, b) && Fresh(m, b) && b.triggers == TriggersFor(ds, b.channel)
  {
    KeptExactly(s, bs, closed);
    hide TriggersFor, Raised, Kept, MergedAll, Tried, MayRetry, NewestFor, HasWindow;
    var m := MergedAll(s, bs, closed);
    assert Fresh(s, b);
    forall ch | ch in m.pending
      ensures m.pending[ch].batch.id != b.id
    {
      NewestIsFiled(s.pending[ch].batch, bs, ch);
    }
  }

  lemma UnclosedKeeps(s: State, ds: seq<Delivery>)
    requires Sound(s)
    ensures Sound(s.(pending := Unclosed(s.pending, ds)))
  {
    hide MayRetry, Tried, RunsOk, ClosedIn;
    var r := s.(pending := Unclosed(s.pending, ds));
    assert forall c | c in r.pending :: Waiting(s, c);
  }

  function ClosedState(was: State, ds: seq<Delivery>, filed: nat): State {
    was.(pending := Unclosed(was.pending, ds), nextId := was.nextId + filed)
  }

  lemma BurstIsSettled(ds: seq<Delivery>, was: State, bs: seq<Batch>, closed: set<Channel>)
    requires Sound(was) && Filed(ds, ds, was.nextId, bs) && forall ch :: ch in closed <==> LeftClosed(ds, ch)
    ensures var s := ClosedState(was, ds, |bs|);
            Sound(s) && Mergeable(s, bs, closed) && Replaced(s, bs, MergedAll(s, bs, closed))
  {
    var s := ClosedState(was, ds, |bs|);
    UnclosedKeeps(was, ds);
    forall ch | ch in closed
      ensures ClosedIn(ds, ch)
    {
      LeftIsClosed(ds, ch);
    }
    assert s.(nextId := was.nextId) == was.(pending := Unclosed(was.pending, ds));
    FiledIsMergeable(s, ds, was.nextId, bs, closed);
    MergedAllKeeps(s, bs, closed);
  }

  lemma {:induction false} LeftIsClosed(ds: seq<Delivery>, ch: Channel)
    ensures LeftClosed(ds, ch) ==> ClosedIn(ds, ch)
  {
    if ds != [] {
      LeftIsClosed(ds[..|ds| - 1], ch);
    }
  }

  lemma BurstIsTaken(ds: seq<Delivery>, was: State, bs: seq<Batch>, closed: set<Channel>)
    requires Sound(was) && Filed(ds, ds, was.nextId, bs) && forall ch :: ch in closed <==> LeftClosed(ds, ch)
    ensures var s := ClosedState(was, ds, |bs|);
            Sound(s) && Mergeable(s, bs, closed) && Taken(ds, was, MergedAll(s, bs, closed), Kept(s, bs, closed))
  {
    BurstIsSettled(ds, was, bs, closed);
    var s := ClosedState(was, ds, |bs|);
    var m, kept := MergedAll(s, bs, closed), Kept(s, bs, closed);
    assert Unclosed(was.pending, ds) == s.pending;
    hide Sound, Mergeable, Filed, TriggersFor, Raised, LeftClosed, Kept, MergedAll, Ready, Fresh, ClosedIn;
    forall ch | ch in m.pending
      ensures NowWaiting(ds, was, ch, m.pending[ch].batch)
    {
      MergedWaits(ds, was, bs, ch);
    }
    forall b | b in kept
      ensures Ready(m, b) && Fresh(m, b) && b.triggers == TriggersFor(ds, b.channel)
    {
      KeptReady(ds, s, bs, closed, was.nextId, b);
    }
    forall ch
      ensures HasWindow(kept, ch) <==> RunsNow(ds, m, ch)
    {
      KeptRuns(ds, s, was.nextId, bs, closed, ch);
    }
    KeptDistinct(s, bs, closed);
  }

  lemma KeptDistinct(s: State, bs: seq<Batch>, closed: set<Channel>)
    requires Mergeable(s, bs, closed)
    ensures Distinct(Kept(s, bs, closed))
  {
    KeptExactly(s, bs, closed);
  }

  /** What a timer that fires comes to. */
  predicate FiringServed(was: State, now: State, t: Token, verdict: Batch -> Verdict) {
    if t.channel in was.pending && was.pending[t.channel].token == t then
      var b := was.pending[t.channel].batch;
      now.pending == was.pending - {t.channel} && now.runs == was.runs + [Run(b.id, true, verdict(b).ending.executed)]
    else now.pending == was.pending && now.runs == was.runs
  }

  /** What the batches a burst left to run come to: attempted in order, until one of them ends the connection. */
  predicate BurstServed(mid: State, now: State, kept: seq<Batch>, verdict: Batch -> Verdict) {
    var made := RunsFor(kept, verdict);
    now.runs == mid.runs + made && |made| <= |kept| && WaitFor(mid.pending, now.pending, kept[..|made|], verdict)
  }

  // ----- What the books say about whole runs -----

  function AttemptsOf(runs: seq<Run>, id: nat): seq<Run> {
    if runs == [] then []
    else
      var r, rest := runs[|runs| - 1], AttemptsOf(runs[..|runs| - 1], id);
      if r.id == id then rest + [r] else rest
  }

  predicate AttemptedSafely(a: seq<Run>) {
    |a| <= 2 && (|a| == 2 ==> !a[0].executed && !a[0].retried && a[1].retried)
  }

  /** No batch is attempted more than twice, and a tool that ran ran in the last attempt. */
  lemma {:induction false} AtMostTwice(runs: seq<Run>, nextId: nat, id: nat)
    requires RunsOk(runs, nextId)
    ensures AttemptedSafely(AttemptsOf(runs, id))
    ensures forall a | a in AttemptsOf(runs, id) :: a in runs && a.id == id
  {
    if runs != [] {
      var before := runs[..|runs| - 1];
      AtMostTwice(before, nextId, id);
      var a := AttemptsOf(before, id);
      if runs[|before|].id == id && a != [] {
        assert a[|a| - 1] in before;
        assert a[0] in before;
      }
    }
  }

  // ----- The loop -----

  /** What the loop's select can wake for: a burst taken off the queue, or a timer. */
  datatype Input = Delivered(ds: seq<Delivery>) | Fires(token: Token)

  class DispatchLoop {
    var pending: map<Channel, Pending>
    var timers: multiset<Token>
    ghost var runs: seq<Run>
    var nextId: nat
    /** Set once the client has left: nothing is dispatched after it. */
    var released: bool

    ghost function Abs(): State
      reads this
    {
      State(pending, timers, runs, nextId)
    }

    constructor ()
      ensures Sound(Abs()) && Abs() == State(map[], multiset{}, [], 0) && !released
    {
      pending, timers, runs, nextId, released := map[], multiset{}, [], 0, false;
    }

    /** Newer traffic takes the place of a waiting batch, behind the same timer. */
    method Merge(b: Batch) returns (r: Option<Batch>)
      requires b.channel in pending ==> pending[b.channel].batch.retried
      modifies this`pending
      ensures Abs() == Merged(old(Abs()), b)
      ensures r == if b.channel in old(pending) then None else Some(b)
    {
      if b.channel !in pending {
        return Some(b);
      }
      var p := pending[b.channel];
      pending := pending[b.channel := Pending(p.token, b.(retried := p.batch.retried || b.retried))];
      return None;
    }

    /** The newest batch waiting under a fired token; nothing for a token that was cancelled. */
    method Claim(t: Token) returns (r: Option<Batch>)
      requires Sound(Abs()) && t in timers
      modifies this`pending, this`timers
      ensures Sound(Abs()) && timers == old(timers) - multiset{t}
      ensures r.Some? <==> t.channel in old(pending) && old(pending)[t.channel].token == t
      ensures r.Some? ==> r.value == old(pending)[t.channel].batch && pending == old(pending) - {t.channel}
      ensures r.Some? ==> Ready(Abs(), r.value) && r.value.retried && t !in timers
      ensures r.None? ==> pending == old(pending)
    {
      ClaimKeeps(Abs(), t);
      hide MayRetry, Tried, RunsOk;
      timers := timers - multiset{t};
      if t.channel !in pending || pending[t.channel].token != t {
        return None;
      }
      assert old(Waiting(Abs(), t.channel));
      r := Some(pending[t.channel].batch);
      pending := pending - {t.channel};
    }

    /** One attempt, and the one timer a transient failure of a first attempt starts. */
    method RunBatch(b: Batch, v: Verdict)
      requires Sound(Abs()) && Ready(Abs(), b)
      modifies this
      ensures Sound(Abs())
      ensures Abs() == if old(released) then old(Abs()) else Attempted(old(Abs()), b, v.ending.executed, Again(b, v))
      ensures released == (old(released) || v.leaves)
      ensures runs == old(runs) + if old(released) then [] else [Run(b.id, b.retried, v.ending.executed)]
      ensures if !old(released) && EarnsAnother(b, v) then WaitsAgain(old(pending), old(timers), pending, timers, b)
              else pending == old(pending) && timers == old(timers)
    {
      hide Sound, Ready, WaitsAgain;
      if released {
        return;
      }
      ghost var was := Abs();
      AttemptKeeps(was, b, v.ending.executed, Again(b, v));
      EarnsExactly(b, v);
      runs := runs + [Run(b.id, b.retried, v.ending.executed)];
      released := v.leaves;
      if v.ending.failure.None? || b.retried || !TurnLoop.Replayable(v.ending.failure.value) || !v.scheduled {
        return;
      }
      HeldWaits(was, b, v.ending.executed);
      Hold(b);
    }

    method Hold(b: Batch)
      modifies this`pending, this`timers
      ensures Abs() == Held(old(Abs()), b)
    {
      timers := timers + multiset{Token(b.id, b.channel)};
      pending := pending[b.channel := Pending(Token(b.id, b.channel), b.(retried := true))];
    }

    /** Cancels what waits in the windows a burst closes, and gives those left closed. */
    method Supersede(ds: seq<Delivery>) returns (closed: set<Channel>)
      modifies this`pending
      ensures pending == Unclosed(old(pending), ds)
      ensures forall ch :: ch in closed <==> LeftClosed(ds, ch)
    {
      closed := {};
      for i := 0 to |ds|
        invariant pending == Unclosed(old(pending), ds[..i])
        invariant forall ch :: ch in closed <==> LeftClosed(ds[..i], ch)
      {
        assert ds[..i + 1] == ds[..i] + [ds[i]];
        UnclosedMore(old(pending), ds[..i], ds[i]);
        match ds[i]
        case Closes(ch) =>
          pending := pending - {ch};
          closed := closed + {ch};
        case Opens(ch) => closed := closed - {ch};
        case _ =>
      }
      assert ds[..|ds|] == ds;
    }

    method KeepOne(kept: seq<Batch>, b: Batch, closed: set<Channel>) returns (r: seq<Batch>)
      requires forall ch | ch in pending :: pending[ch].batch.retried
      modifies this`pending
      ensures Abs() == (if Skipped(b, closed) then old(Abs()) else Merged(old(Abs()), b))
      ensures r == if Skipped(b, closed) || b.channel in old(pending) || b.triggers == [] then kept else kept + [b]
      ensures pending.Keys == old(pending.Keys) && forall ch | ch in pending :: pending[ch].batch.retried
    {
      r := kept;
      if b.channel in closed && !Invitation(b) {
        return;
      }
      var left := Merge(b);
      if left.None? || left.value.triggers == [] {
        return;
      }
      r := kept + [left.value];
    }

    method Keep(bs: seq<Batch>, closed: set<Channel>) returns (kept: seq<Batch>)
      requires Sound(Abs()) && Mergeable(Abs(), bs, closed)
      modifies this`pending
      ensures Sound(Abs()) && Abs() == MergedAll(old(Abs()), bs, closed)
      ensures kept == Kept(old(Abs()), bs, closed)
    {
      MergedAllKeeps(Abs(), bs, closed);
      assert forall ch | ch in pending :: Waiting(Abs(), ch);
      hide Sound, Mergeable, Waiting, Invitation, Skipped, Merged;
      kept := [];
      for i := 0 to |bs|
        invariant Abs() == MergedAll(old(Abs()), bs[..i], closed)
        invariant kept == Kept(old(Abs()), bs[..i], closed)
        invariant pending.Keys == old(pending.Keys) && forall ch | ch in pending :: pending[ch].batch.retried
      {
        assert bs[..i + 1][..i] == bs[..i];
        kept := KeepOne(kept, bs[i], closed);
      }
      assert bs[..|bs|] == bs;
    }

    /** Files a burst, settles it against what waits, and gives the batches to run now. */
    method Take(ds: seq<Delivery>) returns (kept: seq<Batch>)
      requires Sound(Abs())
      modifies this`pending, this`nextId
      ensures Sound(Abs()) && Taken(ds, old(Abs()), Abs(), kept)
    {
      hide Sound, Taken, Filed, Mergeable, LeftClosed, Unclosed, Kept, MergedAll;
      var bs := FileBatch(ds, nextId);
      var closed := Supersede(ds);
      nextId := nextId + |bs|;
      assert Abs() == ClosedState(old(Abs()), ds, |bs|);
      BurstIsTaken(ds, old(Abs()), bs, closed);
      kept := Keep(bs, closed);
    }

    method RunFirst(bs: seq<Batch>, v: Verdict)
      requires bs != [] && Sound(Abs()) && AllReady(Abs(), bs) && !released
      modifies this
      ensures Sound(Abs()) && AllReady(Abs(), bs[1..]) && nextId == old(nextId)
      ensures released == v.leaves && runs == old(runs) + [Run(bs[0].id, bs[0].retried, v.ending.executed)]
      ensures bs[0].channel !in old(pending)
      ensures if EarnsAnother(bs[0], v) then WaitsAgain(old(pending), old(timers), pending, timers, bs[0])
              else pending == old(pending) && timers == old(timers)
    {
      hide Sound, AllReady, Ready;
      FirstReady(Abs(), bs);
      assert bs[0].channel !in pending by { ReadyIsAlone(Abs(), bs[0]); }
      RestReady(Abs(), bs, v.ending.executed, Again(bs[0], v));
      RunBatch(bs[0], v);
    }

    method RunNext(kept: seq<Batch>, n: nat, verdict: Batch -> Verdict, ghost was: map<Channel, Pending>)
      requires n < |kept| && Sound(Abs()) && AllReady(Abs(), kept[n..]) && !released
      requires WaitFor(was, pending, kept[..n], verdict)
      modifies this
      ensures Sound(Abs()) && AllReady(Abs(), kept[n + 1..]) && nextId == old(nextId)
      ensures released == verdict(kept[n]).leaves
      ensures runs == old(runs) + [Run(kept[n].id, kept[n].retried, verdict(kept[n]).ending.executed)]
      ensures WaitFor(was, pending, kept[..n + 1], verdict)
    {
      hide Sound, AllReady, WaitFor, WaitsAgain, EarnsAnother;
      ghost var mid, out := pending, timers;
      assert kept[n..][1..] == kept[n + 1..] && kept[..n] + [kept[n]] == kept[..n + 1];
      RunFirst(kept[n..], verdict(kept[n]));
      OneMoreWaits(was, mid, pending, out, timers, kept[..n], kept[n], verdict);
    }

    /** Attempts each batch once, in order, until one of them ends the connection. */
    method RunAll(kept: seq<Batch>, verdict: Batch -> Verdict)
      requires Sound(Abs()) && AllReady(Abs(), kept) && !released
      modifies this
      ensures Sound(Abs()) && nextId == old(nextId) && runs == old(runs) + RunsFor(kept, verdict)
      ensures |RunsFor(kept, verdict)| <= |kept|
      ensures WaitFor(old(pending), pending, kept[..|RunsFor(kept, verdict)|], verdict)
      ensures !released ==> |RunsFor(kept, verdict)| == |kept|
    {
      hide Sound, AllReady, RunsFor, WaitFor, WaitsAgain, EarnsAnother;
      var n := 0;
      NobodyWaits(pending, verdict);
      assert kept[..0] == [] && kept[0..] == kept;
      while n < |kept| && !released
        invariant n <= |kept| && Sound(Abs()) && AllReady(Abs(), kept[n..]) && nextId == old(nextId)
        invariant |runs| == |old(runs)| + n && WaitFor(old(pending), pending, kept[..n], verdict)
        invariant old(runs) + RunsFor(kept, verdict) == runs + if released then [] else RunsFor(kept[n..], verdict)
        decreases |kept| - n
      {
        RunsForRest(kept, n, verdict);
        RunNext(kept, n, verdict, old(pending));
        n := n + 1;
      }
      RunsForFirst(kept[n..], verdict);
    }

    /** One turn of the loop's select: a burst is taken and what it leaves to run is attempted; a timer that
        fires for what still waits behind it has it attempted, for the last time, and any other does nothing. */
    method Serve(input: Input, verdict: Batch -> Verdict)
      requires Sound(Abs()) && !released && (input.Fires? ==> input.token in timers)
      modifies this
      ensures Sound(Abs())
      ensures input.Fires? ==>
                FiringServed(old(Abs()), Abs(), input.token, verdict) && timers == old(timers) - multiset{input.token}
      ensures input.Delivered? ==>
                exists mid, kept :: Taken(input.ds, old(Abs()), mid, kept) && BurstServed(mid, Abs(), kept, verdict)
    {
      hide Sound, Taken, WaitFor, WaitsAgain;
      match input
      case Delivered(ds) =>
        var kept := Take(ds);
        TakenIsReady(ds, old(Abs()), Abs(), kept);
        RunAll(kept, verdict);
      case Fires(t) =>
        var claimed := Claim(t);
        if claimed.Some? {
          RunBatch(claimed.value, verdict(claimed.value));
        }
    }

    /** A first attempt that fails transiently is made a second time once its timer fires, if its window was not
        closed and nothing newer came. */
    method AttemptedAgain(b: Batch, first: Verdict, verdict: Batch -> Verdict)
      requires Sound(Abs()) && Ready(Abs(), b) && !released && !b.retried
      requires first.ending.failure == Some(TurnLoop.Transient) && first.scheduled && !first.leaves
      modifies this
      ensures runs == old(runs) + [Run(b.id, false, first.ending.executed),
                                   Run(b.id, true, verdict(b.(retried := true)).ending.executed)]
      ensures b.channel !in pending && timers == old(timers)
    {
      hide Sound, Ready;
      RunBatch(b, first);
      Serve(Fires(pending[b.channel].token), verdict);
    }

    /** A whole life of the loop: no batch is attempted more than twice, and none again once a tool has run. */
    method ServeAll(inputs: seq<Input>, verdict: Batch -> Verdict)
      requires Sound(Abs()) && runs == []
      modifies this
      ensures Sound(Abs())
      ensures forall id :: AttemptedSafely(AttemptsOf(runs, id))
    {
      for i := 0 to |inputs|
        invariant Sound(Abs())
      {
        if released {
          break;
        }
        if inputs[i].Delivered? || inputs[i].token in timers {
          Serve(inputs[i], verdict);
        }
      }
      forall id
        ensures AttemptedSafely(AttemptsOf(runs, id))
      {
        AtMostTwice(runs, nextId, id);
      }
    }
  }
}
