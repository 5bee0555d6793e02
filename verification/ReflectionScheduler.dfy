/** The worker that watches one instance's inbox and reflects when enough has happened. */
module ReflectionScheduler {
  import opened Options

  const THRESHOLD := 12
  /** One hour, in seconds. */
  const COOLDOWN := 3600

  /** What a snapshot of the inbox says: the substantive events pending and the last attempt the store recorded. */
  datatype Status = Status(substantive: nat, recorded: Option<int>)

  datatype Schedule = Schedule(substantive: nat, dueAt: Option<int>, ready: bool)

  function Later(a: Option<int>, b: Option<int>): Option<int> {
    match (a, b)
    case (Some(x), Some(y)) => if y > x then b else a
    case (None, _) => b
    case (_, None) => a
  }

  function DueAt(recorded: Option<int>, attempted: Option<int>): Option<int> {
    match Later(attempted, recorded)
    case None => None
    case Some(t) => Some(t + COOLDOWN)
  }

  function ScheduleFor(status: Status, lastAttempt: Option<int>, now: int): Schedule {
    var due := DueAt(status.recorded, lastAttempt);
    Schedule(status.substantive, due, status.substantive >= THRESHOLD && (due.None? || now >= due.value))
  }

  /** Where the worker is in its loop. */
  datatype Place =
    | Reading
    | Deciding(status: Status)
    | Parked(failed: bool)
    | Waiting(until: int)
    | Running(since: int, substantive: nat)
    | Ended

  /** One completed run. */
  datatype Run = Run(started: int, ended: int, substantive: nat)

  /** The worker, its wake-up token, and the world around it: the substantive events in
      the store, how many the last snapshot saw, the events stored whose notification has
      not arrived yet, and the runs made. */
  datatype State = State(
    place: Place, wake: bool, lastAttempt: Option<int>,
    pending: nat, recorded: Option<int>, seen: nat, notifying: nat, runs: seq<Run>)

  datatype Step =
    | Record(events: nat)
    | Notify
    | Read(failed: bool)
    | Decide(now: int, again: int)
    | WakeUp
    | Fire
    | Finish(now: int, left: nat, recorded: Option<int>)
    | End

  predicate Enabled(s: State, step: Step) {
    match step
    case Record(_) => true
    case Notify => s.notifying > 0
    case Read(_) => s.place.Reading?
    case Decide(_, _) => s.place.Deciding?
    case WakeUp => s.wake && (s.place.Parked? || s.place.Waiting?)
    case Fire => s.place.Waiting?
    case Finish(now, left, _) => s.place.Running? && now >= s.place.since && left <= s.pending
    case End => true
  }

  /** After the decision: run, park until woken, wait for the cooldown, or read again. */
  function Decided(s: State, now: int, again: int): Place
    requires s.place.Deciding?
  {
    var schedule := ScheduleFor(s.place.status, s.lastAttempt, now);
    if schedule.ready then Running(now, schedule.substantive)
    else if schedule.substantive < THRESHOLD || schedule.dueAt.None? then Parked(false)
    else if schedule.dueAt.value - again <= 0 then Reading
    else Waiting(schedule.dueAt.value)
  }

  function After(s: State, step: Step): State
    requires Enabled(s, step)
  {
    match step
    case Record(n) => s.(pending := s.pending + n, notifying := s.notifying + 1)
    case Notify => s.(notifying := s.notifying - 1, wake := true)
    case Read(failed) =>
      if failed then s.(place := Parked(true))
      else s.(place := Deciding(Status(s.pending, s.recorded)), seen := s.pending)
    case Decide(now, again) => s.(place := Decided(s, now, again))
    case WakeUp => s.(place := Reading, wake := false)
    case Fire => s.(place := Reading)
    case Finish(now, left, recorded) =>
      s.(place := Reading, lastAttempt := Some(now), pending := left, recorded := recorded,
         runs := s.runs + [Run(s.place.since, now, s.place.substantive)])
    case End => s.(place := Ended)
  }

  const START := State(Reading, false, None, 0, None, 0, 0, [])

  /** Enough had happened before every run, and an hour lay between one and the next. */
  predicate RunsOk(s: State) {
    && (forall i | 0 <= i < |s.runs| :: s.runs[i].substantive >= THRESHOLD && s.runs[i].started <= s.runs[i].ended)
    && (forall i | 0 < i < |s.runs| :: s.runs[i].started >= s.runs[i - 1].ended + COOLDOWN)
    && (s.runs != [] ==> s.lastAttempt == Some(s.runs[|s.runs| - 1].ended))
    && (s.place.Running? ==> s.place.substantive >= THRESHOLD)
    && (s.place.Running? && s.lastAttempt.Some? ==> s.place.since >= s.lastAttempt.value + COOLDOWN)
  }

  /** What the worker has not seen is on its way to it: a token, a notification, or a read to come. */
  predicate Heard(s: State) {
    || s.pending <= s.seen || s.wake || s.notifying > 0
    || s.place.Reading? || s.place.Running? || s.place.Ended? || s.place == Parked(true)
  }

  predicate Sound(s: State) {
    && RunsOk(s) && Heard(s)
    && (s.place.Deciding? ==> s.place.status.substantive == s.seen)
    && (s.place == Parked(false) ==> s.seen < THRESHOLD)
    && (s.place.Deciding? ==> s.place.status.recorded == s.recorded)
    && (s.place.Waiting? ==> DueAt(s.recorded, s.lastAttempt) == Some(s.place.until))
  }

  lemma StepKeeps(s: State, step: Step)
    requires Sound(s) && Enabled(s, step)
    ensures Sound(After(s, step))
  {
  }

  /** An hour has passed since then, if there was such a time. */
  predicate HourSince(when: Option<int>, now: int) { when.None? || now - when.value >= 3600 }

  /** A decision runs exactly with twelve events seen and an hour gone by since both the
      worker's own last run and the recorded one; with fewer it parks, and else it waits for
      the later of the two hours to end, unless they ended while it decided. */
  lemma RunsExactlyWhenDue(s: State, now: int, again: int)
    requires s.place.Deciding?
    ensures var status, t := s.place.status, After(s, Decide(now, again));
            && (t.place.Running? <==> status.substantive >= 12 && HourSince(status.recorded, now)
                                      && HourSince(s.lastAttempt, now))
            && (t.place.Parked? <==> status.substantive < 12)
            && (t.place.Running? ==> t.place == Running(now, status.substantive))
            && (t.place.Waiting? ==> !HourSince(status.recorded, again) || !HourSince(s.lastAttempt, again))
            && (t.place.Reading? ==> HourSince(status.recorded, again) && HourSince(s.lastAttempt, again))
            && (t.place.Waiting? ==> forall later ::
                  later >= t.place.until <==> HourSince(status.recorded, later) && HourSince(s.lastAttempt, later))
            && t == s.(place := t.place)
  {
    var status := s.place.status;
    match (s.lastAttempt, status.recorded)
    case (Some(x), Some(y)) =>
      var last := if y > x then y else x;
      assert DueAt(status.recorded, s.lastAttempt) == Some(last + COOLDOWN);
    case (_, _) =>
  }

  ghost predicate CanRun(s: State, steps: seq<Step>)
    decreases |steps|
  {
    steps == [] || (Enabled(s, steps[0]) && CanRun(After(s, steps[0]), steps[1..]))
  }

  ghost function Final(s: State, steps: seq<Step>): State
    requires CanRun(s, steps)
    decreases |steps|
  {
    if steps == [] then s else Final(After(s, steps[0]), steps[1..])
  }

  /** Whatever the interleaving, no wake-up is lost: once every notification has arrived, a
      worker that is parked with no token and whose last read succeeded has too little to do. */
  lemma {:induction false} NoWakeUpIsLost(s: State, steps: seq<Step>)
    requires Sound(s) && CanRun(s, steps)
    ensures var t := Final(s, steps);
            Sound(t) && (t.place == Parked(false) && !t.wake && t.notifying == 0 ==> t.pending < THRESHOLD)
    decreases |steps|
  {
    if steps != [] {
      StepKeeps(s, steps[0]);
      NoWakeUpIsLost(After(s, steps[0]), steps[1..]);
    }
  }

  // ----- A worker that waits for its cooldown -----

  /** A step that neither ends the worker or a run nor fails, and no decision before `due`. */
  predicate Proceeds(step: Step, due: int) {
    match step
    case Read(failed) => !failed
    case Decide(now, _) => now >= due
    case Finish(_, _, _) => false
    case End => false
    case _ => true
  }

  predicate HasDecided(steps: seq<Step>) { exists step | step in steps :: step.Decide? }

  /** Between the start of the wait and the decision after it, with enough to do and `due` the end of the cooldown. */
  predicate OnItsWay(s: State, due: int) {
    && s.pending >= THRESHOLD && DueAt(s.recorded, s.lastAttempt) == Some(due)
    && match s.place
       case Waiting(_) => true
       case Reading => true
       case Deciding(status) => status.substantive >= THRESHOLD && status.recorded == s.recorded
       case _ => false
  }

  lemma ProceedingStep(s: State, due: int, step: Step)
    requires (OnItsWay(s, due) || s.place.Running?) && Enabled(s, step) && Proceeds(step, due)
    ensures var t := After(s, step);
            if s.place.Running? || step.Decide? then t.place.Running? else OnItsWay(t, due)
  {
  }

  lemma {:induction false} ProceedingRuns(s: State, due: int, steps: seq<Step>)
    requires (OnItsWay(s, due) || s.place.Running?) && CanRun(s, steps)
    requires forall step | step in steps :: Proceeds(step, due)
    ensures Final(s, steps).place.Running? <==> s.place.Running? || HasDecided(steps)
    decreases |steps|
  {
    hide OnItsWay, Enabled, After, Proceeds;
    if steps != [] {
      ProceedingStep(s, due, steps[0]);
      ProceedingRuns(After(s, steps[0]), due, steps[1..]);
      assert steps == [steps[0]] + steps[1..];
      assert HasDecided(steps) <==> steps[0].Decide? || HasDecided(steps[1..]);
    } else {
      NotYet(s, due);
    }
  }

  lemma NotYet(s: State, due: int)
    ensures OnItsWay(s, due) ==> !s.place.Running?
  {
  }

  /** However a worker with enough to do leaves the wait for its cooldown, and whatever else
      happens, it runs exactly when it next decides with the cooldown over and its reads succeeding. */
  lemma WaitingEndsInARun(s: State, steps: seq<Step>)
    requires Sound(s) && s.place.Waiting? && s.pending >= THRESHOLD && CanRun(s, steps)
    requires forall step | step in steps :: Proceeds(step, s.place.until)
    ensures Final(s, steps).place.Running? <==> HasDecided(steps)
  {
    ProceedingRuns(s, s.place.until, steps);
  }

  // ----- A worker whose read failed -----

  function AfterReading(s: State, failed: bool, now: int, again: int): State
    requires s.place.Reading?
  {
    var t := After(s, Read(failed));
    if failed then t else After(t, Decide(now, again))
  }

  /** A worker reading with enough to do parks exactly when the read fails, and nothing then is on its way to it. */
  lemma FailedReadParksOnWork(s: State, failed: bool, now: int, again: int)
    requires Sound(s) && s.place.Reading? && !s.wake && s.notifying == 0 && s.pending >= THRESHOLD
    ensures var t := AfterReading(s, failed, now, again);
            Sound(t) && !t.wake && t.notifying == 0 && t.pending >= THRESHOLD && (t.place.Parked? <==> failed)
  {
    StepKeeps(s, Read(failed));
    if !failed {
      StepKeeps(After(s, Read(failed)), Decide(now, again));
    }
  }

  predicate LastReadFailed(steps: seq<Step>) {
    steps != [] &&
      var n := |steps| - 1;
      if steps[n].Read? then steps[n].failed else LastReadFailed(steps[..n])
  }

  /** So over a whole life: a worker that is parked on enough to do, with nothing on its way, failed to read last. */
  lemma ParkedOnWorkFailedToRead(steps: seq<Step>)
    requires CanRun(START, steps)
    ensures var t := Final(START, steps);
            t.place.Parked? && !t.wake && t.notifying == 0 && t.pending >= THRESHOLD ==> LastReadFailed(steps)
  {
    NoWakeUpIsLost(START, steps);
    ParkedRecordsTheRead(steps);
  }

  lemma {:induction false} ParkedRecordsTheRead(steps: seq<Step>)
    requires CanRun(START, steps)
    ensures Final(START, steps).place == Parked(true) ==> LastReadFailed(steps)
    decreases |steps|
  {
    if steps != [] {
      var n := |steps| - 1;
      LastStep(START, steps);
      ParkedRecordsTheRead(steps[..n]);
    }
  }

  lemma {:induction false} LastStep(s: State, steps: seq<Step>)
    requires steps != [] && CanRun(s, steps)
    ensures var n := |steps| - 1;
            CanRun(s, steps[..n]) && Enabled(Final(s, steps[..n]), steps[n])
            && Final(s, steps) == After(Final(s, steps[..n]), steps[n])
    decreases |steps|
  {
    var n := |steps| - 1;
    if n > 0 {
      var rest := steps[1..];
      LastStep(After(s, steps[0]), rest);
      assert steps[..n][0] == steps[0] && steps[..n][1..] == rest[..n - 1];
    } else {
      assert steps[..n] == [] && steps[1..] == [];
    }
  }

  /** Such a life: twelve or more events, their notification, a failed read, the wake-up, and a failed read again. */
  lemma WorkIsLeftParked(n: nat)
    requires n >= THRESHOLD
    ensures var t := After(After(After(START, Record(n)), Notify), Read(true));
            var parked := After(After(t, WakeUp), Read(true));
            Sound(parked) && parked.place == Parked(true) && !parked.wake && parked.notifying == 0
            && parked.pending >= THRESHOLD
  {
    var recorded := After(START, Record(n));
    var notified := After(recorded, Notify);
    StepKeeps(START, Record(n));
    StepKeeps(recorded, Notify);
    StepKeeps(notified, Read(true));
    StepKeeps(After(notified, Read(true)), WakeUp);
    StepKeeps(After(After(notified, Read(true)), WakeUp), Read(true));
  }

  // ----- A worker that ended -----

  /** The worker can still come to read the store. */
  ghost predicate ReadsAgain(s: State) { exists steps :: CanRun(s, steps) && Final(s, steps).place.Reading? }

  lemma {:induction false} EndedStaysEnded(s: State, steps: seq<Step>)
    requires s.place.Ended? && CanRun(s, steps)
    ensures Final(s, steps).place.Ended? && Final(s, steps).runs == s.runs
    decreases |steps|
  {
    if steps != [] {
      EndedStaysEnded(After(s, steps[0]), steps[1..]);
    }
  }

  lemma OneStepReads(s: State, step: Step)
    requires Enabled(s, step) && ReadsAgain(After(s, step))
    ensures ReadsAgain(s)
  {
    var steps :| CanRun(After(s, step), steps) && Final(After(s, step), steps).place.Reading?;
    var more := [step] + steps;
    assert more[1..] == steps;
    assert CanRun(s, more) && Final(s, more).place.Reading?;
  }

  lemma WokenReads(s: State)
    requires s.wake && !s.place.Ended? && !s.place.Deciding?
    ensures ReadsAgain(s)
  {
    if s.place.Reading? {
      assert CanRun(s, []) && Final(s, []).place.Reading?;
    } else {
      var step := if s.place.Running? then Finish(s.place.since, 0, None) else WakeUp;
      var t := After(s, step);
      assert CanRun(t, []) && Final(t, []).place.Reading?;
      OneStepReads(s, step);
    }
  }

  /** A notification is lost exactly when the worker it is handed to has ended. */
  lemma NotificationIsLostExactlyAfterTheEnd(s: State)
    requires s.notifying > 0
    ensures ReadsAgain(After(s, Notify)) <==> !s.place.Ended?
  {
    var t := After(s, Notify);
    if s.place.Ended? {
      forall steps | CanRun(t, steps)
        ensures !Final(t, steps).place.Reading?
      {
        EndedStaysEnded(t, steps);
      }
    } else if s.place.Deciding? {
      WokenReads(After(t, Decide(0, 0)));
      OneStepReads(t, Decide(0, 0));
    } else {
      WokenReads(t);
    }
  }

  /** The events are stored, the worker ends, and only then does their notification arrive: whatever comes after, it
      never runs. */
  lemma LateNotificationIsLost(n: nat, steps: seq<Step>)
    requires n >= THRESHOLD && CanRun(After(After(After(START, Record(n)), End), Notify), steps)
    ensures var s := After(After(After(START, Record(n)), End), Notify);
            s.wake && s.pending == n && Final(s, steps).place.Ended? && Final(s, steps).runs == []
  {
    EndedStaysEnded(After(After(After(START, Record(n)), End), Notify), steps);
  }

  /** Every run of a worker's life had twelve substantive events before it and an hour since the last. */
  lemma RunsAreSpaced(steps: seq<Step>, i: nat, j: nat)
    requires CanRun(START, steps) && i < j < |Final(START, steps).runs|
    ensures var runs := Final(START, steps).runs;
            runs[j].substantive >= THRESHOLD && runs[j].started >= runs[i].ended + COOLDOWN * (j - i)
    decreases j
  {
    NoWakeUpIsLost(START, steps);
    var runs := Final(START, steps).runs;
    if j > i + 1 {
      RunsAreSpaced(steps, i, j - 1);
    }
  }

  // ----- The worker -----

  class Worker {
    var place: Place
    var wake: bool
    var lastAttempt: Option<int>
    ghost var pending: nat
    ghost var recorded: Option<int>
    ghost var seen: nat
    ghost var notifying: nat
    ghost var runs: seq<Run>

    ghost function Abs(): State
      reads this
    {
      State(place, wake, lastAttempt, pending, recorded, seen, notifying, runs)
    }

    constructor ()
      ensures Abs() == START && Sound(Abs())
    {
      place, wake, lastAttempt := Reading, false, None;
      pending, recorded, seen, notifying, runs := 0, None, 0, 0, [];
    }

    /** Leaves a token; one that is already there stands for this wake-up too. */
    method Notify()
      requires Sound(Abs()) && notifying > 0
      modifies this
      ensures Abs() == After(old(Abs()), Step.Notify) && Sound(Abs())
    {
      StepKeeps(Abs(), Step.Notify);
      notifying := notifying - 1;
      wake := true;
    }

    /** Takes a snapshot of the inbox, or parks because it could not be read. */
    method ReadInbox(snapshot: Option<Status>)
      requires Sound(Abs()) && place.Reading? && (snapshot.Some? ==> snapshot.value == Status(pending, recorded))
      modifies this
      ensures Abs() == After(old(Abs()), Read(snapshot.None?)) && Sound(Abs())
    {
      StepKeeps(Abs(), Read(snapshot.None?));
      if snapshot.None? {
        place := Parked(true);
        return;
      }
      place := Deciding(snapshot.value);
      seen := pending;
    }

    /** Runs at once, or finds what to wait for. */
    method Decide(now: int, again: int)
      requires Sound(Abs()) && place.Deciding?
      modifies this
      ensures Abs() == After(old(Abs()), Step.Decide(now, again)) && Sound(Abs())
    {
      StepKeeps(Abs(), Step.Decide(now, again));
      var schedule := ScheduleFor(place.status, lastAttempt, now);
      if schedule.ready {
        place := Running(now, schedule.substantive);
      } else if schedule.substantive < THRESHOLD || schedule.dueAt.None? {
        place := Parked(false);
      } else if schedule.dueAt.value - again <= 0 {
        place := Reading;
      } else {
        place := Waiting(schedule.dueAt.value);
      }
    }

    /** Leaves a wait, by the token, which is gone then, or by the timer, which leaves it. */
    method Resume(byTimer: bool)
      requires Sound(Abs()) && Enabled(Abs(), if byTimer then Fire else WakeUp)
      modifies this
      ensures Abs() == After(old(Abs()), if byTimer then Fire else WakeUp) && Sound(Abs())
    {
      StepKeeps(Abs(), if byTimer then Fire else WakeUp);
      place := Reading;
      wake := wake && byTimer;
    }

    /** Ends a run, whatever it left in the store. */
    method FinishRun(now: int, ghost left: nat, ghost attempt: Option<int>)
      requires Sound(Abs()) && Enabled(Abs(), Finish(now, left, attempt))
      modifies this
      ensures Abs() == After(old(Abs()), Finish(now, left, attempt)) && Sound(Abs())
    {
      StepKeeps(Abs(), Finish(now, left, attempt));
      runs := runs + [Run(place.since, now, place.substantive)];
      pending, recorded := left, attempt;
      place := Reading;
      lastAttempt := Some(now);
    }
  }
}
