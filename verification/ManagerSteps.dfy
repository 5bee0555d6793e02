/** What the manager's steps do to its maps, said of the maps themselves, and how a drain
    and a shutdown go from beginning to end. */
module ManagerSteps {
  import opened ManagerLifecycle

  // ----- Attaching -----

  /** A new client is attached only where none is, and never while stopping; it has a
      number no client had, and nothing else changes. */
  lemma AttachIsExclusive(s: State, id: Id)
    ensures var t := After(s, BeginAttach(id));
            if s.stopping || id in s.attaching || id in s.clients then t == s
            else
              var c := Client(id, s.next);
              && t.clients == s.clients[id := c] && t.attaching == s.attaching[id := c] && t.next == s.next + 1
              && t == s.(clients := t.clients, attaching := t.attaching, next := t.next)
    ensures Sound(s) && s.next < After(s, BeginAttach(id)).next ==>
              forall c | c in s.clients.Values || c in s.running || c in s.released || c in s.finishers ::
                c != After(s, BeginAttach(id)).clients[id]
  {
  }

  /** An attachment that fails leaves no trace but the number it used. */
  lemma FailedAttachLeavesNoTrace(s: State, id: Id)
    requires Sound(s) && !s.stopping && id !in s.attaching && id !in s.clients
    ensures var c := Client(id, s.next);
            CanRun(s, [BeginAttach(id), StartLoop(c), ExitLoop(c), EndAttach(id, true)])
            && End(s, [BeginAttach(id), StartLoop(c), ExitLoop(c), EndAttach(id, true)]) == s.(next := s.next + 1)
  {
    var c := Client(id, s.next);
    var begun := After(s, BeginAttach(id));
    NewIsUnused(s, id);
    var started := After(begun, StartLoop(c));
    assert After(started, ExitLoop(c)) == begun;
    TakenBack(s, id);
    hide Sound, AttachBegun, AttachEnded;
    RunsOn(begun, EndAttach(id, true), []);
    RunsOn(started, ExitLoop(c), [EndAttach(id, true)]);
    RunsOn(begun, StartLoop(c), [ExitLoop(c), EndAttach(id, true)]);
    RunsOn(s, BeginAttach(id), [StartLoop(c), ExitLoop(c), EndAttach(id, true)]);
    assert [EndAttach(id, true)] + [] == [EndAttach(id, true)];
  }

  lemma NewIsUnused(s: State, id: Id)
    requires Sound(s)
    ensures Client(id, s.next) !in s.running + s.released && (id !in s.clients ==> id !in s.pendingDeletes)
  {
  }

  lemma TakenBack(s: State, id: Id)
    requires !s.stopping && id !in s.attaching && id !in s.clients && id !in s.pendingDeletes
    requires Client(id, s.next) !in s.running
    ensures var begun := AttachBegun(s, id);
            Enabled(begun, EndAttach(id, true)) && AttachEnded(begun, id, true) == s.(next := s.next + 1)
  {
    var ended := AttachEnded(AttachBegun(s, id), id, true);
    assert ended.clients == s.clients && ended.attaching == s.attaching && ended.pendingDeletes == s.pendingDeletes;
  }

  /** Ending an attachment takes back the client exactly when it failed and the client is
      still the attached one; the deletion that waited for it is then due. */
  lemma AttachEndsOnce(s: State, id: Id, failed: bool)
    requires Enabled(s, EndAttach(id, failed))
    ensures var t := After(s, EndAttach(id, failed));
            var undone := failed && !s.stopping && id in s.clients && s.clients[id] == s.attaching[id];
            && t.attaching == s.attaching - {id}
            && t.clients == (if undone then s.clients - {id} else s.clients)
            && t.pendingDeletes == (if undone then s.pendingDeletes - {id} else s.pendingDeletes)
            && t.owed == (if undone && id in s.pendingDeletes then s.owed + multiset{id} else s.owed)
            && t == s.(attaching := t.attaching, clients := t.clients, pendingDeletes := t.pendingDeletes,
                       owed := t.owed)
  {
  }

  // ----- Detaching and deleting -----

  /** Detaching moves the client, and any deletion that waited for it, to the drain; the
      drain then waits for the client to be released. */
  lemma DetachStartsADrain(s: State, id: Id, forget: bool)
    requires id in s.clients
    ensures var t, c := After(s, Detach(id, forget)), s.clients[id];
            && t.clients == s.clients - {id}
            && t.draining == s.draining[id := Entry(c, forget || id in s.pendingDeletes, false)]
            && t.finishers == s.finishers[c := Releasing]
            && t.pendingDeletes == s.pendingDeletes - {id} && t.asked == s.asked + (if forget then {id} else {})
            && t == s.(clients := t.clients, draining := t.draining, finishers := t.finishers,
                       pendingDeletes := t.pendingDeletes, asked := t.asked)
  {
  }

  /** Without a client the deletion joins the drain that is under way. */
  lemma DetachJoinsTheDrain(s: State, id: Id, forget: bool)
    requires Sound(s) && id !in s.clients && id in s.draining
    ensures var t, e := After(s, Detach(id, forget)), s.draining[id];
            t == s.(asked := s.asked + (if forget then {id} else {}),
                    draining := s.draining[id := Entry(e.client, e.forget || forget, e.abandoned)])
  {
    PendingAreAttached(s);
    hide Sound;
    assert s.pendingDeletes - {id} == s.pendingDeletes && s.asked + {} == s.asked;
  }

  /** Without a client or a drain the deletion is due at once. */
  lemma DetachFindsNothing(s: State, id: Id, forget: bool)
    requires Sound(s) && id !in s.clients && id !in s.draining
    ensures After(s, Detach(id, forget))
            == if forget then s.(asked := s.asked + {id}, owed := s.owed + multiset{id}) else s
  {
    PendingAreAttached(s);
    hide Sound;
    assert s.pendingDeletes - {id} == s.pendingDeletes;
  }

  /** A deleted instance's records are deleted at once only if nothing of it is left to wait for. */
  lemma DeletionWaitsForTheClient(s: State, id: Id)
    ensures var t := After(s, DeleteInstance(id));
            && t.asked == s.asked + {id}
            && t.pendingDeletes == (if id in s.clients then s.pendingDeletes + {id} else s.pendingDeletes)
            && t.owed == (if id in s.clients || id in s.draining then s.owed else s.owed + multiset{id})
            && t.draining.Keys == s.draining.Keys
            && (forall i | i in s.draining ::
                  t.draining[i] == if i == id && id !in s.clients
                                   then Entry(s.draining[i].client, true, s.draining[i].abandoned)
                                   else s.draining[i])
            && t == s.(asked := t.asked, pendingDeletes := t.pendingDeletes, owed := t.owed, draining := t.draining)
  {
  }

  /** Giving up on some clients marks their drains and no others. */
  lemma AbandonMarksThoseGivenUp(s: State, cs: set<Client>)
    ensures var t := After(s, Abandon(cs));
            && t == s.(draining := t.draining) && t.draining.Keys == s.draining.Keys
            && forall i | i in s.draining ::
                 t.draining[i] == Entry(s.draining[i].client, s.draining[i].forget,
                                        s.draining[i].abandoned || s.draining[i].client in cs)
  {
  }

  // ----- A drain from beginning to end -----

  /** What the goroutine of a drain does: it deletes what the instance owned exactly when
      that was asked for and shutdown has not given up on the drain. */
  function DrainSteps(c: Client, forgets: bool): seq<Step> {
    [Release(c), Join(c)] + if forgets then [BeginForget(c.id), EndDrain(c)] else []
  }

  /** Once its loop is gone, a drain can go on to its end, and then it is the only thing
      that is no longer there; a deletion it carried was begun, or shutdown gave up on it. */
  lemma DrainEndsAlone(s: State, id: Id)
    requires Sound(s) && id in s.draining && s.draining[id].client !in s.running
             && s.finishers[s.draining[id].client] == Releasing
    ensures var e := s.draining[id];
            var c, forgets := e.client, e.forget && !e.abandoned;
            && CanRun(s, DrainSteps(c, forgets))
            && var t := End(s, DrainSteps(c, forgets));
               && t.draining == s.draining - {id} && t.finishers == s.finishers - {c}
               && t.released == s.released + {c} && t.owed == s.owed
               && t.begun == s.begun + (if forgets then {id} else {})
               && t.givenUp == s.givenUp + (if e.forget && e.abandoned then {id} else {})
               && t == s.(draining := t.draining, finishers := t.finishers, released := t.released, begun := t.begun,
                          givenUp := t.givenUp)
  {
    var e := s.draining[id];
    var c := e.client;
    DrainIsItsOwn(s, id);
    var waiting := s.(released := s.released + {c}, finishers := s.finishers[c := Waiting]);
    assert waiting.finishers - {c} == s.finishers - {c};
    hide Sound, Joined, DrainEnded;
    assert Enabled(s, Release(c)) && After(s, Release(c)) == waiting;
    if e.forget && !e.abandoned {
      WantedDrainEnds(waiting, c);
      RunsOn(s, Release(c), [Join(c), BeginForget(id), EndDrain(c)]);
      assert DrainSteps(c, true) == [Release(c)] + [Join(c), BeginForget(id), EndDrain(c)];
    } else {
      UnwantedDrainEnds(waiting, c);
      RunsOn(s, Release(c), [Join(c)]);
      assert DrainSteps(c, false) == [Release(c)] + [Join(c)];
    }
  }

  lemma DrainIsItsOwn(s: State, id: Id)
    requires Sound(s) && id in s.draining
    ensures s.draining[id].client.id == id && s.draining[id].client in s.finishers
  {
  }

  lemma RunsOn(s: State, step: Step, rest: seq<Step>)
    requires Enabled(s, step) && CanRun(After(s, step), rest)
    ensures CanRun(s, [step] + rest) && End(s, [step] + rest) == End(After(s, step), rest)
  {
    var steps := OneMore(s, step, rest);
  }

  lemma UnwantedDrainEnds(s: State, c: Client)
    requires c.id in s.draining && s.draining[c.id].client == c && Enabled(s, Join(c))
             && (s.draining[c.id].abandoned || !s.draining[c.id].forget)
    ensures CanRun(s, [Join(c)])
            && End(s, [Join(c)])
               == s.(draining := s.draining - {c.id}, finishers := s.finishers - {c},
                     givenUp := s.givenUp + if s.draining[c.id].forget then {c.id} else {})
  {
    assert s.givenUp + {} == s.givenUp;
    RunsOn(s, Join(c), []);
    assert [Join(c)] + [] == [Join(c)];
  }

  lemma WantedDrainEnds(s: State, c: Client)
    requires c.id in s.draining && s.draining[c.id].client == c && Enabled(s, Join(c))
             && s.draining[c.id].forget && !s.draining[c.id].abandoned
    ensures CanRun(s, [Join(c), BeginForget(c.id), EndDrain(c)])
            && End(s, [Join(c), BeginForget(c.id), EndDrain(c)])
               == s.(draining := s.draining - {c.id}, finishers := s.finishers - {c}, begun := s.begun + {c.id})
  {
    var joined := s.(owed := s.owed + multiset{c.id}, finishers := s.finishers[c := Forgetting]);
    var begun := s.(begun := s.begun + {c.id}, finishers := s.finishers[c := Forgetting]);
    assert Joined(s, c) == joined;
    assert joined.owed - multiset{c.id} == s.owed;
    assert s.finishers[c := Forgetting] - {c} == s.finishers - {c};
    assert DrainEnded(begun, c)
           == s.(draining := s.draining - {c.id}, finishers := s.finishers - {c}, begun := s.begun + {c.id});
    hide Joined, DrainEnded;
    RunsOn(begun, EndDrain(c), []);
    RunsOn(joined, BeginForget(c.id), [EndDrain(c)]);
    RunsOn(s, Join(c), [BeginForget(c.id), EndDrain(c)]);
    assert [EndDrain(c)] + [] == [EndDrain(c)];
  }

  /** The last steps touch the drain only if it is still the client's own. */
  lemma AnotherDrainIsLeft(s: State, c: Client)
    requires c.id in s.draining ==> s.draining[c.id].client != c
    ensures Enabled(s, Join(c)) ==> After(s, Join(c)) == s.(finishers := s.finishers - {c})
    ensures Enabled(s, EndDrain(c)) ==> After(s, EndDrain(c)) == s.(finishers := s.finishers - {c})
  {
  }

  // ----- Shutdown -----

  /** Shutdown leaves no client attached: each is draining, with the deletion that waited for it. */
  lemma ShutdownDrainsAll(s: State, order: seq<Id>)
    requires Sound(s) && Enabled(s, DrainAll(order))
    ensures var t := After(s, DrainAll(order));
            && t.stopping && t.clients == map[] && t.pendingDeletes == {}
            && t.draining.Keys == s.draining.Keys + s.clients.Keys
            && (forall id | id in t.draining ::
                  t.draining[id] == if id in s.clients then Entry(s.clients[id], id in s.pendingDeletes, false)
                                    else s.draining[id])
            && (forall id | id in s.clients :: s.clients[id] in t.finishers)
            && t == s.(stopping := true, clients := t.clients, pendingDeletes := t.pendingDeletes,
                       draining := t.draining, finishers := t.finishers)
  {
    PendingAreAttached(s);
    DrainEachMoves(s, order);
    DrainAllStops(s, order);
    DrainEachKeeps(s, order);
    var t := DrainEach(s, order);
    hide DrainEach, AllDraining, Sound;
    forall id | id in s.clients
      ensures s.clients[id] in t.finishers
    {
      DrainIsItsOwn(t, id);
    }
  }

  /** Nothing is attached, and no loop of a new client starts, once shutdown has begun. */
  lemma {:induction false} NothingAttachesAfterShutdown(s: State, steps: seq<Step>)
    requires s.stopping && s.clients == map[] && CanRun(s, steps)
    ensures End(s, steps).stopping && End(s, steps).clients == map[] && End(s, steps).next == s.next
    ensures End(s, steps).attaching.Keys <= s.attaching.Keys
    decreases |steps|
  {
    if steps != [] {
      StaysStopped(s, steps[0]);
      NothingAttachesAfterShutdown(After(s, steps[0]), steps[1..]);
    }
  }

  lemma StaysStopped(s: State, step: Step)
    requires s.stopping && s.clients == map[] && Enabled(s, step)
    ensures var t := After(s, step);
            t.stopping && t.clients == map[] && t.next == s.next && t.attaching.Keys <= s.attaching.Keys
  {
    match step
    case DrainAll(order) => DrainEachMoves(s, order);
    case _ =>
  }
}
