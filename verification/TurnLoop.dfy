/** One attempt at a dispatch turn: the first request, the tool loop, and the
    error an attempt may end in. Every answer from outside is arbitrary. */
module TurnLoop {
  import opened Options

  const MAX_TOOL_TURNS := 5

  datatype Tool = Pass | Quit | Other(name: string)

  datatype ToolCall = ToolCall(id: nat, tool: Tool)

  /** `NonReplayable` wraps the error it was raised for. */
  datatype Failure =
    | Transient
    | PromptTooLong
    | ModelRefused
    | ContentFiltered
    | WindowClosed
    | Unclassified
    | NonReplayable(inner: Failure)

  /** Whether dispatching the same batch again could answer differently and is allowed to. */
  predicate Replayable(f: Failure) { f.Transient? || f.PromptTooLong? }

  predicate Silence(f: Failure) { f.ModelRefused? || f.ContentFiltered? }

  /** What can cut a wait short: never the provider. */
  type Interruption = f: Failure | !Silence(f) witness Unclassified

  datatype Reply = Reply(calls: seq<ToolCall>) | Failed(failure: Failure)

  datatype Execution = Done(ok: bool) | Rejected | Crashed(failure: Failure)

  /** Everything outside the turn, each answer depending on how many were given before it. */
  datatype World = World(
    revoked: nat -> bool,
    send: nat -> Reply,
    wait: nat -> Option<Interruption>,
    renders: nat -> bool,
    authorise: nat -> Option<Failure>,
    execute: (nat, ToolCall) -> Execution,
    available: Tool -> bool)

  /** What the model is told of one of its calls. */
  datatype Answer = Answer(id: nat, ok: bool)

  /** A call of the batch of one turn, the calls before it having been answered. */
  datatype Place = Place(turn: nat, calls: seq<ToolCall>, answers: seq<Answer>)

  /** What happens in an attempt, with how often the world had been asked when it did: requests
      with the provider's reply, batches of calls and what becomes of each, and what cuts the attempt short. */
  datatype Event =
    | Sent(n: nat, reply: Reply)
    | Batch(n: nat, turn: nat, calls: seq<ToolCall>)
    | Executed(n: nat, at: Place, execution: Execution)
    | Skipped(n: nat, at: Place)
    | Refused(n: nat, at: Place, failure: Failure)
    | Continued(n: nat, turn: nat, answers: seq<Answer>, again: bool, reply: Reply)
    | Closed(n: nat, turns: nat, resuming: bool)
    | Unrendered(n: nat, turns: nat)
    | Interrupted(n: nat, turns: nat, cause: Interruption)

  /** What one attempt did, and how often it has asked the world. */
  class Attempt {
    ghost var log: seq<Event>
    var asked: nat
  }

  // ----- What may follow what -----

  predicate MixedPass(calls: seq<ToolCall>) {
    (exists c | c in calls :: c.tool.Pass?) && exists c | c in calls :: !c.tool.Pass?
  }

  predicate Inside(p: Place) { |p.answers| < |p.calls| }

  /** The call a place stands for. */
  function CallAt(p: Place): ToolCall
    requires Inside(p)
  {
    p.calls[|p.answers|]
  }

  predicate OnCall(e: Event) { (e.Executed? || e.Skipped? || e.Refused?) && Inside(e.at) }

  predicate Succeeded(e: Event) { e.Executed? && e.execution == Done(true) }

  /** A successful `pass` or `quit`. */
  predicate EndsTurn(e: Event) { OnCall(e) && Succeeded(e) && !CallAt(e.at).tool.Other? }

  /** The call was answered and the turn is still open. */
  predicate PassedOver(e: Event) { OnCall(e) && !e.Refused? && !(e.Executed? && e.execution.Crashed?) && !EndsTurn(e) }

  function Answered(e: Event): seq<Answer>
    requires OnCall(e)
  {
    e.at.answers + [Answer(CallAt(e.at).id, Succeeded(e))]
  }

  /** All calls answered alike, as failed. */
  function Rejections(calls: seq<ToolCall>): seq<Answer> {
    seq(|calls|, i requires 0 <= i < |calls| => Answer(calls[i].id, false))
  }

  /** The batch is through and has left the turn open. */
  predicate LeftOpen(e: Event) {
    if e.Batch? then MixedPass(e.calls) else PassedOver(e) && |e.at.answers| + 1 == |e.at.calls|
  }

  /** What the model is to be told then. */
  function AnswersOf(e: Event): seq<Answer>
    requires LeftOpen(e)
  {
    if e.Batch? then Rejections(e.calls) else Answered(e)
  }

  /** How many batches were begun by the time of an event. */
  function TurnsOf(e: Event): nat {
    match e
    case Sent(_, _) => 0
    case Batch(_, turn, _) => turn + 1
    case Executed(_, at, _) => at.turn + 1
    case Skipped(_, at) => at.turn + 1
    case Refused(_, at, _) => at.turn + 1
    case Continued(_, turn, _, _, _) => turn + 1
    case Closed(_, turns, _) => turns
    case Unrendered(_, turns) => turns
    case Interrupted(_, turns, _) => turns
  }

  /** The provider's last word was a reply asking for these calls. */
  predicate AsksFor(e: Event, calls: seq<ToolCall>) { (e.Sent? || e.Continued?) && e.reply == Reply(calls) }

  /** A first continuation that failed transiently. */
  predicate MayRetry(e: Event) { e.Continued? && !e.again && e.reply == Failed(Transient) }

  /** The model is to hear what became of the calls, and there is another turn for it. */
  predicate Resumes(e: Event) { LeftOpen(e) && TurnsOf(e) < MAX_TOOL_TURNS }

  predicate First(e: Event) { e.Sent? || (e.Closed? && e.turns == 0 && !e.resuming) }

  /** What may follow an event in an attempt. */
  predicate Leads(e: Event, next: Event) {
    && e.n <= next.n
    && match next
       case Sent(_, _) => false
       case Batch(_, turn, calls) => calls != [] && AsksFor(e, calls) && turn == TurnsOf(e)
       case Executed(_, at, _) => LeadsTo(e, at)
       case Skipped(_, at) => LeadsTo(e, at)
       case Refused(_, at, _) => LeadsTo(e, at)
       case Continued(n, turn, answers, again, _) =>
         && e.n < n && turn + 1 == TurnsOf(e)
         && if again then MayRetry(e) && answers == e.answers else Resumes(e) && answers == AnswersOf(e)
       case Closed(_, turns, resuming) =>
         && turns == TurnsOf(e)
         && if resuming then Resumes(e) || (e.Continued? && e.reply.Failed?)
            else e.Sent? || (e.Continued? && e.reply.Reply?) || LeftOpen(e) || EndsTurn(e)
       case Unrendered(_, turns) => turns == TurnsOf(e) && (Resumes(e) || MayRetry(e))
       case Interrupted(_, turns, _) => turns == TurnsOf(e) && MayRetry(e)
  }

  /** The calls of a batch come one after the other, the first right after the batch was begun. */
  predicate LeadsTo(e: Event, at: Place) {
    && Inside(at)
    && if at.answers == [] then e.Batch? && e.turn == at.turn && e.calls == at.calls && !MixedPass(at.calls)
       else PassedOver(e) && e.at.turn == at.turn && e.at.calls == at.calls && at.answers == Answered(e)
  }

  /** The event is what the world said. */
  predicate Truthful(w: World, e: Event) {
    match e
    case Sent(n, reply) => w.send(n) == reply
    case Batch(_, _, _) => true
    case Executed(n, at, execution) =>
      Inside(at) && w.available(CallAt(at).tool) && w.execute(n, CallAt(at)) == execution
    case Skipped(_, at) => Inside(at) && !w.available(CallAt(at).tool)
    case Refused(n, _, failure) => w.authorise(n) == Some(failure)
    case Continued(n, _, _, _, reply) => w.send(n) == reply
    case Closed(n, _, _) => w.revoked(n)
    case Unrendered(n, _) => !w.renders(n)
    case Interrupted(n, _, cause) => w.wait(n) == Some(cause)
  }

  /** Everything that happened is what the world said, and each thing leads to the next. */
  ghost predicate Chain(w: World, log: seq<Event>) {
    && (forall i | 0 <= i < |log| :: Truthful(w, log[i]))
    && (log != [] ==> First(log[0]))
    && (forall i | 0 < i < |log| :: Leads(log[i - 1], log[i]))
  }

  lemma ChainMore(w: World, log: seq<Event>, e: Event)
    requires Chain(w, log) && Truthful(w, e)
    requires if log == [] then First(e) else Leads(log[|log| - 1], e)
    ensures Chain(w, log + [e])
  {
    hide First, Leads, Truthful;
  }

  lemma NothingYet(w: World)
    ensures Chain(w, [])
  {
  }

  /** A tool ran. */
  predicate HasRun(log: seq<Event>) { exists e | e in log :: e.Executed? }

  lemma HasRunMore(log: seq<Event>, e: Event)
    ensures HasRun(log + [e]) <==> HasRun(log) || e.Executed?
  {
    assert e in log + [e];
  }

  // ----- How an attempt ends -----

  datatype PassReason = Unset | ModelPass | LoopExhausted | RefusedUpstream | FilteredUpstream

  datatype TurnOutcome = TurnOutcome(toolTurns: nat, reason: PassReason)

  function SilenceReason(f: Failure): PassReason {
    if f.ModelRefused? then RefusedUpstream else FilteredUpstream
  }

  /** A failure once a tool ran is of no kind that is dispatched again. */
  function Wrapped(log: seq<Event>, f: Failure): Failure { if HasRun(log) then NonReplayable(f) else f }

  /** What a failure of the provider makes of the attempt. */
  predicate GivesUp(log: seq<Event>, f: Failure, reason: PassReason, failure: Option<Failure>) {
    if Silence(f) then reason == SilenceReason(f) && failure == None
    else reason == Unset && failure == Some(Wrapped(log, f))
  }

  /** The outcome is what the last event makes it. */
  predicate Final(log: seq<Event>, o: TurnOutcome, failure: Option<Failure>) {
    log != [] &&
      var e := log[|log| - 1];
      && o.toolTurns == TurnsOf(e)
      && match e
         case Sent(_, reply) =>
           if reply.Failed? then GivesUp(log, reply.failure, o.reason, failure)
           else reply.calls == [] && o.reason == ModelPass && failure == None
         case Continued(_, _, _, _, reply) =>
           if reply.Failed? then !MayRetry(e) && GivesUp(log, reply.failure, o.reason, failure)
           else reply.calls == [] && o.reason == ModelPass && failure == None
         case Executed(_, at, execution) =>
           if execution.Crashed? then o.reason == Unset && failure == Some(NonReplayable(execution.failure))
           else if EndsTurn(e) then failure == None && o.reason == if CallAt(at).tool.Pass? then ModelPass else Unset
           else Exhausted(e, o.reason, failure)
         case Batch(_, _, _) => Exhausted(e, o.reason, failure)
         case Skipped(_, _) => Exhausted(e, o.reason, failure)
         case Refused(_, _, f) => o.reason == Unset && failure == Some(NonReplayable(f))
         case Closed(_, _, resuming) =>
           o.reason == Unset && failure == Some(if resuming then Wrapped(log, WindowClosed) else WindowClosed)
         case Unrendered(_, _) => o.reason == Unset && failure == Some(Wrapped(log, NonReplayable(Unclassified)))
         case Interrupted(_, _, f) => o.reason == Unset && failure == Some(Wrapped(log, f))
  }

  predicate Exhausted(e: Event, reason: PassReason, failure: Option<Failure>) {
    LeftOpen(e) && TurnsOf(e) == MAX_TOOL_TURNS && reason == LoopExhausted && failure == None
  }

  // ----- One batch of tool calls -----

  method RejectMixedPass(calls: seq<ToolCall>) returns (mixed: bool)
    ensures mixed == MixedPass(calls)
  {
    var hasPass, hasOther := false, false;
    for i := 0 to |calls|
      invariant hasPass == exists c | c in calls[..i] :: c.tool.Pass?
      invariant hasOther == exists c | c in calls[..i] :: !c.tool.Pass?
    {
      assert calls[..i + 1] == calls[..i] + [calls[i]];
      if calls[i].tool.Pass? {
        hasPass := true;
      } else {
        hasOther := true;
      }
    }
    assert calls[..|calls|] == calls;
    mixed := hasPass && hasOther;
  }

  /** The last event, and nothing asked of the world before it is still to be logged. */
  ghost predicate Stands(w: World, a: Attempt, e: Event)
    reads a
  {
    a.log != [] && a.log[|a.log| - 1] == e && e.n <= a.asked && Chain(w, a.log)
  }

  ghost method Log(w: World, a: Attempt, e: Event)
    requires Chain(w, a.log) && Truthful(w, e) && e.n <= a.asked
    requires if a.log == [] then First(e) else Leads(a.log[|a.log| - 1], e)
    modifies a`log
    ensures a.log == old(a.log) + [e] && Stands(w, a, e) && (HasRun(a.log) <==> HasRun(old(a.log)) || e.Executed?)
  {
    ChainMore(w, a.log, e);
    HasRunMore(a.log, e);
    hide First, Leads, Truthful, Chain, HasRun;
    a.log := a.log + [e];
  }

  /** One call: refused with the window's authority, skipped when it may not run, or run. */
  method ExecuteCall(w: World, a: Attempt, at: Place, ghost before: Event) returns (e: Event)
    requires Stands(w, a, before) && LeadsTo(before, at)
    modifies a
    ensures a.log == old(a.log) + [e] && Stands(w, a, e) && OnCall(e) && e.at == at
    ensures HasRun(a.log) <==> HasRun(old(a.log)) || e.Executed?
    ensures var n := old(a.asked) + 1;
            if w.authorise(n).Some? then e == Refused(n, at, w.authorise(n).value)
            else if !w.available(CallAt(at).tool) then e == Skipped(n, at)
            else e == Executed(n + 1, at, w.execute(n + 1, CallAt(at)))
  {
    hide HasRun, Chain;
    var call := CallAt(at);
    a.asked := a.asked + 1;
    var refused := w.authorise(a.asked);
    if refused.Some? {
      e := Refused(a.asked, at, refused.value);
      Log(w, a, e);
      return;
    }
    if !w.available(call.tool) {
      e := Skipped(a.asked, at);
      Log(w, a, e);
      return;
    }
    a.asked := a.asked + 1;
    e := Executed(a.asked, at, w.execute(a.asked, call));
    Log(w, a, e);
  }

  datatype BatchOutcome =
    BatchOutcome(answers: seq<Answer>, terminal: Option<Tool>, executed: bool, failure: Option<Failure>)

  /** What the last event of a batch makes of it. */
  predicate BatchEnds(e: Event, turn: nat, calls: seq<ToolCall>, o: BatchOutcome) {
    if LeftOpen(e) then
      TurnsOf(e) == turn + 1 && o.answers == AnswersOf(e) && o.terminal == None && o.failure == None
    else
      && OnCall(e) && e.at.turn == turn && e.at.calls == calls
      && if EndsTurn(e) then o.answers == Answered(e) && o.terminal == Some(CallAt(e.at).tool) && o.failure == None
         else
           && o.answers == e.at.answers && o.terminal == None
           && match e
              case Refused(_, _, f) => o.failure == Some(NonReplayable(f))
              case Executed(_, _, execution) =>
                execution.Crashed? && o.failure == Some(NonReplayable(execution.failure))
              case _ => false
  }

  /** Runs the calls in order, up to the first that ends the turn. */
  method ExecuteTools(w: World, a: Attempt, turn: nat, calls: seq<ToolCall>) returns (o: BatchOutcome, ghost e: Event)
    requires calls != [] && Stands(w, a, Batch(a.asked, turn, calls))
    modifies a
    ensures Stands(w, a, e) && BatchEnds(e, turn, calls, o)
    ensures HasRun(a.log) <==> HasRun(old(a.log)) || o.executed
  {
    hide HasRun, Chain, MixedPass;
    e := Batch(a.asked, turn, calls);
    var mixed := RejectMixedPass(calls);
    if mixed {
      return BatchOutcome(Rejections(calls), None, false, None), e;
    }
    var executed := false;
    var answers: seq<Answer> := [];
    while |answers| < |calls|
      invariant |answers| <= |calls| && Stands(w, a, e)
      invariant HasRun(a.log) <==> HasRun(old(a.log)) || executed
      invariant |answers| < |calls| ==> LeadsTo(e, Place(turn, calls, answers))
      invariant answers != [] ==> PassedOver(e) && e.at.turn == turn && e.at.calls == calls && Answered(e) == answers
      decreases |calls| - |answers|
    {
      var at := Place(turn, calls, answers);
      var step := ExecuteCall(w, a, at, e);
      e := step;
      executed := executed || step.Executed?;
      if step.Refused? {
        return BatchOutcome(answers, None, executed, Some(NonReplayable(step.failure))), e;
      }
      if step.Executed? && step.execution.Crashed? {
        return BatchOutcome(answers, None, executed, Some(NonReplayable(step.execution.failure))), e;
      }
      answers := answers + [Answer(calls[|answers|].id, Succeeded(step))];
      if Succeeded(step) && !CallAt(at).tool.Other? {
        return BatchOutcome(answers, Some(CallAt(at).tool), executed, None), e;
      }
    }
    return BatchOutcome(answers, None, executed, None), e;
  }

  // ----- One attempt -----

  /** The window's authority, asked once. */
  method Revoked(w: World, a: Attempt) returns (r: bool)
    modifies a`asked
    ensures a.asked == old(a.asked) + 1 && r == w.revoked(a.asked)
  {
    a.asked := a.asked + 1;
    r := w.revoked(a.asked);
  }

  /** What a request that failed comes to: the provider's failure, or the window found closed after it. */
  predicate FailedAt(e: Event, f: Failure) {
    if e.Closed? then f == WindowClosed else (e.Sent? || e.Continued?) && e.reply == Failed(f)
  }

  method SendTurnEvents(w: World, a: Attempt) returns (r: Reply, ghost e: Event)
    requires a.log == []
    modifies a
    ensures Stands(w, a, e) && !HasRun(a.log) && TurnsOf(e) == 0 && (e.Sent? || e.Closed?)
    ensures if r.Failed? then FailedAt(e, r.failure) && (e.Closed? ==> !e.resuming) else AsksFor(e, r.calls)
  {
    hide Chain;
    NothingYet(w);
    var revoked := Revoked(w, a);
    if revoked {
      e := Closed(a.asked, 0, false);
      Log(w, a, e);
      return Failed(WindowClosed), e;
    }
    a.asked := a.asked + 1;
    r := w.send(a.asked);
    e := Sent(a.asked, r);
    Log(w, a, e);
    if r.Failed? {
      revoked := Revoked(w, a);
      if revoked {
        r, e := Failed(WindowClosed), Closed(a.asked, 0, false);
        Log(w, a, e);
      }
    }
  }

  /** An attempt that may go on with its continuation: for the first time, or after a transient failure. */
  predicate GoesOn(e: Event, turn: nat, answers: seq<Answer>, again: bool) {
    && TurnsOf(e) == turn + 1
    && if again then MayRetry(e) && e.answers == answers else Resumes(e) && AnswersOf(e) == answers
  }

  /** Why a continuation failed. */
  predicate Stopped(e: Event, turn: nat, f: Failure) {
    && TurnsOf(e) == turn + 1
    && match e
       case Closed(_, _, resuming) => resuming && f == WindowClosed
       case Unrendered(_, _) => f == NonReplayable(Unclassified)
       case Interrupted(_, _, i) => f == i
       case Continued(_, _, _, _, reply) => reply == Failed(f)
       case _ => false
  }

  method ContinueOnce(w: World, a: Attempt, turn: nat, answers: seq<Answer>, again: bool, ghost before: Event)
    returns (r: Reply, ghost e: Event)
    requires Stands(w, a, before) && GoesOn(before, turn, answers, again)
    modifies a
    ensures Stands(w, a, e) && (HasRun(a.log) <==> HasRun(old(a.log))) && TurnsOf(e) == turn + 1
    ensures if r.Failed? then Stopped(e, turn, r.failure) && !e.Interrupted? else AsksFor(e, r.calls) && e.Continued?
    ensures e.Continued? ==> e.again == again && e.answers == answers
  {
    hide HasRun, Chain;
    var revoked := Revoked(w, a);
    if revoked {
      e := Closed(a.asked, turn + 1, true);
      Log(w, a, e);
      return Failed(WindowClosed), e;
    }
    a.asked := a.asked + 1;
    if !w.renders(a.asked) {
      e := Unrendered(a.asked, turn + 1);
      Log(w, a, e);
      return Failed(NonReplayable(Unclassified)), e;
    }
    a.asked := a.asked + 1;
    r := w.send(a.asked);
    e := Continued(a.asked, turn, answers, again, r);
    Log(w, a, e);
    if r.Failed? {
      revoked := Revoked(w, a);
      if revoked {
        r, e := Failed(WindowClosed), Closed(a.asked, turn + 1, true);
        Log(w, a, e);
      }
    }
  }

  /** Sends the answers back, once more after a transient failure. */
  method ContinueTurn(w: World, a: Attempt, turn: nat, answers: seq<Answer>, ghost before: Event)
    returns (r: Reply, ghost e: Event)
    requires Stands(w, a, before) && GoesOn(before, turn, answers, false)
    modifies a
    ensures Stands(w, a, e) && (HasRun(a.log) <==> HasRun(old(a.log))) && TurnsOf(e) == turn + 1
    ensures if r.Failed? then Stopped(e, turn, r.failure) && !MayRetry(e) else AsksFor(e, r.calls) && e.Continued?
  {
    hide HasRun, Chain;
    r, e := ContinueOnce(w, a, turn, answers, false, before);
    if r.Reply? || !r.failure.Transient? {
      return;
    }
    a.asked := a.asked + 1;
    var waited := w.wait(a.asked);
    if waited.Some? {
      e := Interrupted(a.asked, turn + 1, waited.value);
      Log(w, a, e);
      return Failed(waited.value), e;
    }
    r, e := ContinueOnce(w, a, turn, answers, true, e);
  }

  /** One pass of the tool loop: run what was asked for, and say whether the turn is over. */
  method ToolTurn(w: World, a: Attempt, turn: nat, calls: seq<ToolCall>, ghost before: Event)
    returns (stop: bool, now: nat, reason: PassReason, failed: Option<Failure>, executed: bool, answers: seq<Answer>,
             ghost e: Event)
    requires Stands(w, a, before) && AsksFor(before, calls) && TurnsOf(before) == turn < MAX_TOOL_TURNS
    modifies a
    ensures Stands(w, a, e) && (HasRun(a.log) <==> HasRun(old(a.log)) || executed) && now == TurnsOf(e)
    ensures if stop then Final(a.log, TurnOutcome(now, reason), failed)
            else LeftOpen(e) && answers == AnswersOf(e) && now == turn + 1
  {
    hide HasRun, Chain;
    executed, now, answers, e := false, turn, [], before;
    var revoked := Revoked(w, a);
    if revoked {
      e := Closed(a.asked, turn, false);
      Log(w, a, e);
      return true, turn, Unset, Some(WindowClosed), false, [], e;
    }
    if calls == [] {
      return true, turn, ModelPass, None, false, [], e;
    }
    e := Batch(a.asked, turn, calls);
    Log(w, a, e);
    var batch;
    batch, e := ExecuteTools(w, a, turn, calls);
    executed, now := batch.executed, turn + 1;
    if batch.failure.Some? {
      return true, now, Unset, batch.failure, executed, [], e;
    }
    revoked := Revoked(w, a);
    if revoked {
      e := Closed(a.asked, turn + 1, false);
      Log(w, a, e);
      return true, now, Unset, Some(WindowClosed), executed, [], e;
    }
    if batch.terminal.Some? {
      return true, now, if batch.terminal.value.Pass? then ModelPass else Unset, None, executed, [], e;
    }
    return false, now, Unset, None, executed, batch.answers, e;
  }

  /** One attempt, from its first request to its outcome: what it did is one chain of events, and the
      outcome is what the last of them makes it. */
  method RunTurn(w: World, a: Attempt) returns (o: TurnOutcome, failure: Option<Failure>)
    requires a.log == []
    modifies a
    ensures Chain(w, a.log) && Final(a.log, o, failure)
  {
    hide HasRun, Chain, Leads, Truthful;
    var result;
    ghost var e;
    result, e := SendTurnEvents(w, a);
    if result.Failed? {
      if Silence(result.failure) {
        return TurnOutcome(0, SilenceReason(result.failure)), None;
      }
      return TurnOutcome(0, Unset), Some(result.failure);
    }
    var executedAny := false;
    var turns := 0;
    while turns < MAX_TOOL_TURNS
      invariant turns < MAX_TOOL_TURNS && result.Reply? && Stands(w, a, e) && AsksFor(e, result.calls)
      invariant TurnsOf(e) == turns && (executedAny <==> HasRun(a.log))
    {
      var stop, reason, failed, executed, answers;
      stop, turns, reason, failed, executed, answers, e := ToolTurn(w, a, turns, result.calls, e);
      if stop {
        return TurnOutcome(turns, reason), failed;
      }
      executedAny := executedAny || executed;
      if turns == MAX_TOOL_TURNS {
        return TurnOutcome(turns, LoopExhausted), None;
      }
      result, e := ContinueTurn(w, a, turns - 1, answers, e);
      if result.Failed? {
        failed := if Silence(result.failure) then None
                  else Some(if executedAny then NonReplayable(result.failure) else result.failure);
        reason := if Silence(result.failure) then SilenceReason(result.failure) else Unset;
        return TurnOutcome(turns, reason), failed;
      }
    }
    assert false;
  }

  // ----- What the outcomes mean -----

  function Last(log: seq<Event>): Event
    requires log != []
  {
    log[|log| - 1]
  }

  /** A turn that ends as done and nothing else was ended by a `quit` that succeeded. */
  lemma DoneMeansQuit(w: World, log: seq<Event>, o: TurnOutcome, failure: Option<Failure>)
    requires Chain(w, log) && Final(log, o, failure) && failure == None && o.reason == Unset
    ensures var e := Last(log);
            e.Executed? && Inside(e.at) && CallAt(e.at).tool == Quit && w.execute(e.n, CallAt(e.at)) == Done(true)
  {
    assert Truthful(w, Last(log));
  }

  /** A pass is the model's: a `pass` that succeeded, or a reply that asks for nothing. */
  lemma PassIsTheModels(w: World, log: seq<Event>, o: TurnOutcome, failure: Option<Failure>)
    requires Chain(w, log) && Final(log, o, failure) && o.reason == ModelPass
    ensures var e := Last(log);
            && failure == None
            && if e.Executed? then
                 Inside(e.at) && CallAt(e.at).tool == Pass && w.execute(e.n, CallAt(e.at)) == Done(true)
               else (e.Sent? || e.Continued?) && w.send(e.n) == Reply([])
  {
    assert Truthful(w, Last(log));
  }

  /** The provider's last word was a failure. */
  predicate ProviderFailed(w: World, log: seq<Event>, f: Failure)
    requires log != []
  {
    (Last(log).Sent? || Last(log).Continued?) && w.send(Last(log).n) == Failed(f)
  }

  /** The silences are the provider's, each of its own kind. */
  lemma SilenceIsTheProviders(w: World, log: seq<Event>, o: TurnOutcome, failure: Option<Failure>)
    requires Chain(w, log) && Final(log, o, failure)
    ensures o.reason == RefusedUpstream <==> ProviderFailed(w, log, ModelRefused)
    ensures o.reason == FilteredUpstream <==> ProviderFailed(w, log, ContentFiltered)
    ensures o.reason == RefusedUpstream || o.reason == FilteredUpstream ==> failure == None
  {
    assert Truthful(w, Last(log));
  }

  /** The loop is exhausted after five batches, the last of which the model would have gone on from. */
  lemma ExhaustedMeansFive(w: World, log: seq<Event>, o: TurnOutcome, failure: Option<Failure>)
    requires Chain(w, log) && Final(log, o, failure) && o.reason == LoopExhausted
    ensures failure == None && o.toolTurns == 5 && LeftOpen(Last(log))
  {
  }

  /** Every failure has its cause: the window, the rendering, the wait, a tool, its authority, or the provider. */
  lemma FailureHasItsCause(w: World, log: seq<Event>, o: TurnOutcome, failure: Option<Failure>)
    requires Chain(w, log) && Final(log, o, failure) && failure.Some?
    ensures var e, f := Last(log), failure.value;
            && o.reason == Unset
            && match e
               case Sent(n, _) => w.send(n) == Failed(f) && !HasRun(log)
               case Continued(n, _, _, _, _) =>
                 w.send(n).Failed? && f == if HasRun(log) then NonReplayable(w.send(n).failure) else w.send(n).failure
               case Closed(n, _, _) => w.revoked(n) && (f == WindowClosed || f == NonReplayable(WindowClosed))
               case Unrendered(n, _) => !w.renders(n) && f.NonReplayable?
               case Interrupted(n, _, _) =>
                 w.wait(n).Some? && f == if HasRun(log) then NonReplayable(w.wait(n).value) else w.wait(n).value
               case Executed(n, at, _) =>
                 Inside(at) && exists g :: w.execute(n, CallAt(at)) == Crashed(g) && f == NonReplayable(g)
               case Refused(n, _, _) => exists g :: w.authorise(n) == Some(g) && f == NonReplayable(g)
               case _ => false
  {
    var e := Last(log);
    assert Truthful(w, e);
    if e.Sent? {
      assert |log| > 1 ==> Leads(log[|log| - 2], e);
    }
  }

  /** What was answered is told: a batch that leaves the turn open is the fifth, or its answers go back to the
      model, unless the window is closed or they cannot be rendered. */
  lemma OpenBatchGoesOn(w: World, log: seq<Event>, o: TurnOutcome, failure: Option<Failure>, i: nat)
    requires Chain(w, log) && Final(log, o, failure) && i < |log| && LeftOpen(log[i])
    ensures if i + 1 == |log| then o.toolTurns == 5 && o.reason == LoopExhausted && failure == None
            else
              match log[i + 1]
              case Continued(_, _, answers, again, _) => answers == AnswersOf(log[i]) && !again
              case Closed(n, _, _) => w.revoked(n) && i + 2 == |log|
              case Unrendered(n, _) => !w.renders(n) && i + 2 == |log|
              case _ => false
  {
    if i + 1 < |log| {
      assert Leads(log[i], log[i + 1]) && Truthful(w, log[i + 1]);
      NothingFollows(w, log, i + 1);
    }
  }

  lemma NothingFollows(w: World, log: seq<Event>, i: nat)
    requires Chain(w, log) && i < |log|
    ensures log[i].Closed? || log[i].Unrendered? || log[i].Interrupted? || log[i].Refused? ==> i + 1 == |log|
  {
    if i + 1 < |log| {
      assert Leads(log[i], log[i + 1]);
    }
  }

  /** What the model asks for is begun, unless the window is closed. */
  lemma RepliesAreActedOn(w: World, log: seq<Event>, o: TurnOutcome, failure: Option<Failure>, i: nat,
                          calls: seq<ToolCall>)
    requires Chain(w, log) && Final(log, o, failure) && i < |log| && AsksFor(log[i], calls)
    ensures if i + 1 == |log| then calls == [] && o.reason == ModelPass
            else
              match log[i + 1]
              case Batch(_, _, begun) => begun == calls
              case Closed(n, _, _) => w.revoked(n) && i + 2 == |log|
              case _ => false
  {
    if i + 1 < |log| {
      assert Leads(log[i], log[i + 1]) && Truthful(w, log[i + 1]);
      NothingFollows(w, log, i + 1);
    }
  }

  /** A continuation that failed transiently is sent once more, unless the window is closed, the wait is
      cut short, or it cannot be rendered; and none is sent a third time. */
  lemma TransientIsRetriedOnce(w: World, log: seq<Event>, o: TurnOutcome, failure: Option<Failure>, i: nat)
    requires Chain(w, log) && Final(log, o, failure) && i < |log|
    requires log[i].Continued? && log[i].reply == Failed(Transient)
    ensures if log[i].again then i + 1 == |log| || log[i + 1].Closed?
            else
              i + 1 < |log| &&
              match log[i + 1]
              case Continued(_, _, answers, again, _) => again && answers == log[i].answers
              case Closed(n, _, _) => w.revoked(n)
              case Unrendered(n, _) => !w.renders(n)
              case Interrupted(n, _, cause) => w.wait(n) == Some(cause)
              case _ => false
  {
    if i + 1 < |log| {
      assert Leads(log[i], log[i + 1]) && Truthful(w, log[i + 1]);
    }
  }

  /** The calls of a batch are taken one after the other: after one that was skipped, or ran without crashing and
      was no `pass` or `quit` that succeeded, comes the next, up to the last. */
  lemma CallsAreTakenInOrder(w: World, log: seq<Event>, o: TurnOutcome, failure: Option<Failure>, i: nat)
    requires Chain(w, log) && Final(log, o, failure) && i < |log|
    ensures log[i].Batch? && !MixedPass(log[i].calls) ==>
              i + 1 < |log| && OnCall(log[i + 1]) && log[i + 1].at == Place(log[i].turn, log[i].calls, [])
    ensures var e := log[i];
            OnCall(e) && |e.at.answers| + 1 < |e.at.calls|
            && (e.Skipped? || (e.Executed? && !e.execution.Crashed? &&
                  (e.execution != Done(true) || CallAt(e.at).tool !in [Pass, Quit]))) ==>
              i + 1 < |log| && OnCall(log[i + 1]) && log[i + 1].at == e.at.(answers := Answered(e))
  {
    if i + 1 < |log| {
      assert Leads(log[i], log[i + 1]);
    }
    if i > 0 {
      assert Leads(log[i - 1], log[i]);
    }
  }

  /** The answer to one call of a batch whose first call stands at `first` in the log. */
  predicate Answers(log: seq<Event>, first: nat, calls: seq<ToolCall>, answers: seq<Answer>, k: nat) {
    && k < |calls| && k < |answers| && first + k < |log|
    && answers[k] == Answer(calls[k].id, Succeeded(log[first + k]))
  }

  predicate AnswersAll(log: seq<Event>, first: nat, calls: seq<ToolCall>, answers: seq<Answer>) {
    forall k: nat | k < |answers| :: Answers(log, first, calls, answers, k)
  }

  lemma AnswersMore(log: seq<Event>, first: nat, e: Event)
    requires OnCall(e) && AnswersAll(log, first, e.at.calls, e.at.answers)
    requires first + |e.at.answers| < |log| && log[first + |e.at.answers|] == e
    ensures AnswersAll(log, first, e.at.calls, Answered(e))
  {
    hide Succeeded;
    forall k: nat | k < |Answered(e)|
      ensures Answers(log, first, e.at.calls, Answered(e), k)
    {
      assert k < |e.at.answers| ==> Answers(log, first, e.at.calls, e.at.answers, k);
    }
  }

  /** The answers of a batch are those of its calls, in their order, and favourable where the tool succeeded. */
  lemma {:induction false} AnswersMatch(w: World, log: seq<Event>, i: nat)
    requires Chain(w, log) && i < |log| && OnCall(log[i])
    ensures |log[i].at.answers| < i && AnswersAll(log, i - |log[i].at.answers|, log[i].at.calls, log[i].at.answers)
  {
    assert i > 0 ==> Leads(log[i - 1], log[i]);
    assert First(log[0]);
    hide Chain, AnswersAll, Truthful;
    if log[i].at.answers != [] {
      AnswersMatch(w, log, i - 1);
      AnswersMore(log, i - 1 - |log[i - 1].at.answers|, log[i - 1]);
    } else {
      NoAnswers(log, i, log[i].at.calls);
    }
  }

  lemma NoAnswers(log: seq<Event>, first: nat, calls: seq<ToolCall>)
    ensures AnswersAll(log, first, calls, [])
  {
  }

  /** What the model is told when its turn goes on: an answer to each of its calls, and of a mixed pass that
      each of them failed. */
  lemma TheModelIsToldAll(w: World, log: seq<Event>, i: nat)
    requires Chain(w, log) && i < |log| && log[i].Continued? && !log[i].again
    ensures i > 0
    ensures var before, answers := log[i - 1], log[i].answers;
            if before.Batch? then MixedPass(before.calls) && answers == Rejections(before.calls)
            else
              && OnCall(before) && |answers| == |before.at.calls| <= i
              && AnswersAll(log, i - |answers|, before.at.calls, answers)
  {
    assert First(log[0]) && Leads(log[i - 1], log[i]);
    hide Chain, AnswersAll, Truthful;
    if !log[i - 1].Batch? {
      AnswersMatch(w, log, i - 1);
      AnswersMore(log, i - 1 - |log[i - 1].at.answers|, log[i - 1]);
    }
  }

  /** Nothing is done after a `pass` or `quit` that succeeded. */
  lemma NothingAfterTerminal(w: World, log: seq<Event>, i: nat)
    requires Chain(w, log) && i < |log| && EndsTurn(log[i])
    ensures i + 1 < |log| ==> log[i + 1].Closed? && i + 2 == |log|
  {
    if i + 1 < |log| {
      assert Leads(log[i], log[i + 1]);
      NothingFollows(w, log, i + 1);
    }
  }

  /** An attempt a tool ran in never fails in a way that is dispatched again. */
  lemma RanIsNotReplayed(w: World, log: seq<Event>, o: TurnOutcome, failure: Option<Failure>)
    requires Chain(w, log) && Final(log, o, failure) && HasRun(log) && failure.Some?
    ensures !Replayable(failure.value)
  {
    FailureHasItsCause(w, log, o, failure);
  }

  // ----- Bounds -----

  /** How many requests, batches and continuations a log holds. */
  datatype Tally = Tally(sent: nat, batches: nat, continued: nat)

  function TallyOf(log: seq<Event>): Tally {
    if log == [] then Tally(0, 0, 0)
    else
      var t := TallyOf(log[..|log| - 1]);
      match log[|log| - 1]
      case Sent(_, _) => t.(sent := t.sent + 1)
      case Batch(_, _, _) => t.(batches := t.batches + 1)
      case Continued(_, _, _, _, _) => t.(continued := t.continued + 1)
      case _ => t
  }

  /** How many continuations there can have been by an event. */
  predicate InBounds(t: Tally, e: Event) {
    && t.sent <= 1 && t.batches == TurnsOf(e) <= MAX_TOOL_TURNS && t.continued <= 2 * (MAX_TOOL_TURNS - 1)
    && match e
       case Continued(_, turn, _, again, _) =>
         turn + 1 < MAX_TOOL_TURNS && t.continued <= 2 * turn + if again then 2 else 1
       case Batch(_, turn, _) => t.continued <= 2 * turn
       case Executed(_, at, _) => t.continued <= 2 * at.turn
       case Skipped(_, at) => t.continued <= 2 * at.turn
       case Refused(_, at, _) => t.continued <= 2 * at.turn
       case _ => e.Sent? ==> t.continued == 0
  }

  lemma ChainStart(w: World, log: seq<Event>)
    requires Chain(w, log) && log != []
    ensures Chain(w, log[..|log| - 1])
  {
    hide Truthful, Leads, First;
  }

  /** One first request at most, five batches, and eight continuations. */
  lemma {:induction false} AttemptIsBounded(w: World, log: seq<Event>)
    requires Chain(w, log) && log != []
    ensures InBounds(TallyOf(log), Last(log))
  {
    var n := |log| - 1;
    var before := log[..n];
    if before == [] {
      assert First(log[0]) && TallyOf(before) == Tally(0, 0, 0);
    } else {
      ChainStart(w, log);
      assert before[n - 1] == log[n - 1] && Leads(log[n - 1], log[n]);
      hide Chain, Truthful;
      AttemptIsBounded(w, before);
    }
  }
}
