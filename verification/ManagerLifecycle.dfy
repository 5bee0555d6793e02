/** The manager's lifecycle of a model client: attaching, releasing, draining in the
    background, and forgetting what belongs to a deleted instance. Each region the
    manager runs under its lock is one step; steps of any number of threads interleave. */
module ManagerLifecycle {
  type Id = string

  /** Each attachment of an id makes a client of its own. */
  datatype Client = Client(id: Id, n: nat)

  datatype Entry = Entry(client: Client, forget: bool, abandoned: bool)

  /** Where the goroutine that finishes a drain is: about to release its client, waiting
      for it, or deleting what the instance owned. */
  datatype Stage = Releasing | Waiting | Forgetting

  /** The manager's own fields come first. The rest records the other goroutines:
      the dispatch loops running, the clients released, the drains being finished, the
      calls of `Forget` some thread is bound to make, those begun, the ids whose
      deletion was asked for, and those whose drain shutdown gave up on. */
  datatype State = State(
    clients: map<Id, Client>,
    attaching: map<Id, Client>,
    draining: map<Id, Entry>,
    pendingDeletes: set<Id>,
    stopping: bool,
    next: nat,
    running: set<Client>,
    released: set<Client>,
    finishers: map<Client, Stage>,
    owed: multiset<Id>,
    begun: set<Id>,
    asked: set<Id>,
    givenUp: set<Id>)

  const START := State(map[], map[], map[], {}, false, 0, {}, {}, map[], multiset{}, {}, {}, {})

  // ----- The steps -----

  datatype Step =
    | BeginAttach(id: Id)
    | StartLoop(client: Client)
    | EndAttach(id: Id, failed: bool)
    | DeleteInstance(id: Id)
    | Detach(id: Id, forget: bool)
    | Release(client: Client)
    | ExitLoop(client: Client)
    | Join(client: Client)
    | BeginForget(id: Id)
    | EndDrain(client: Client)
    | DrainAll(order: seq<Id>)
    | Abandon(clients: set<Client>)

  function AttachBegun(s: State, id: Id): State {
    if s.stopping || id in s.attaching || id in s.clients then s
    else
      var c := Client(id, s.next);
      s.(clients := s.clients[id := c], attaching := s.attaching[id := c], next := s.next + 1)
  }

  function AttachEnded(s: State, id: Id, failed: bool): State
    requires id in s.attaching
  {
    var c, t := s.attaching[id], s.(attaching := s.attaching - {id});
    if s.stopping || id !in s.clients || s.clients[id] != c || !failed then t
    else
      t.(clients := s.clients - {id}, pendingDeletes := s.pendingDeletes - {id},
         owed := if id in s.pendingDeletes then s.owed + multiset{id} else s.owed)
  }

  function InstanceDeleted(s: State, id: Id): State {
    var t := s.(asked := s.asked + {id});
    if id in s.clients then t.(pendingDeletes := s.pendingDeletes + {id})
    else if id in s.draining then t.(draining := s.draining[id := s.draining[id].(forget := true)])
    else t.(owed := s.owed + multiset{id})
  }

  function Drain(s: State, id: Id, forget: bool): State
    requires id in s.clients
  {
    var c := s.clients[id];
    s.(clients := s.clients - {id}, draining := s.draining[id := Entry(c, forget, false)],
       finishers := s.finishers[c := Releasing])
  }

  function Detached(s: State, id: Id, forget: bool): State {
    var want := forget || id in s.pendingDeletes;
    var t := s.(asked := if forget then s.asked + {id} else s.asked, pendingDeletes := s.pendingDeletes - {id});
    if id in s.clients then Drain(t, id, want)
    else if id in s.draining then
      t.(draining := s.draining[id := s.draining[id].(forget := s.draining[id].forget || want)])
    else if forget then t.(owed := s.owed + multiset{id})
    else t
  }

  function Joined(s: State, c: Client): State {
    var id, gone := c.id, s.(finishers := s.finishers - {c});
    if id !in s.draining || s.draining[id].client != c then gone
    else
      var e := s.draining[id];
      if e.abandoned then
        gone.(draining := s.draining - {id}, givenUp := if e.forget then s.givenUp + {id} else s.givenUp)
      else if !e.forget then gone.(draining := s.draining - {id})
      else s.(owed := s.owed + multiset{id}, finishers := s.finishers[c := Forgetting])
  }

  function DrainEnded(s: State, c: Client): State {
    var gone := s.(finishers := s.finishers - {c});
    if c.id in s.draining && s.draining[c.id].client == c then gone.(draining := s.draining - {c.id}) else gone
  }

  /** Every attached client on its way out, in whatever order the manager's map gives them. */
  function DrainEach(s: State, order: seq<Id>): State {
    if order == [] then s
    else
      var t, id := DrainEach(s, order[..|order| - 1]), order[|order| - 1];
      if id in t.clients then Detached(t, id, false) else t
  }

  function AllDraining(s: State, order: seq<Id>): State {
    var t := DrainEach(s, order);
    t.(stopping := true, clients := map[], pendingDeletes := {}, owed := t.owed + multiset(t.pendingDeletes))
  }

  function Abandoned(s: State, cs: set<Client>): State {
    s.(draining := map id | id in s.draining ::
         if s.draining[id].client in cs then s.draining[id].(abandoned := true) else s.draining[id])
  }

  /** When another thread may take a step. A loop starts only inside the attach of its
      client and never once that client was released; an attach that fails has joined
      its loop, unless a release overtook it; and a drain is joined when its loop is gone. */
  predicate Enabled(s: State, step: Step) {
    match step
    case StartLoop(c) => c.id in s.attaching && s.attaching[c.id] == c && c !in s.released
    case EndAttach(id, failed) =>
      id in s.attaching && (failed ==> s.attaching[id] !in s.running || s.attaching[id] in s.released)
    case Release(c) => c in s.finishers && s.finishers[c] == Releasing
    case Join(c) => c in s.finishers && s.finishers[c] == Waiting && c !in s.running
    case BeginForget(id) => id in s.owed
    case EndDrain(c) => c in s.finishers && s.finishers[c] == Forgetting && c.id in s.begun
    case DrainAll(order) => forall id | id in s.clients :: id in order
    case _ => true
  }

  function After(s: State, step: Step): State
    requires Enabled(s, step)
  {
    match step
    case BeginAttach(id) => AttachBegun(s, id)
    case StartLoop(c) => s.(running := s.running + {c})
    case EndAttach(id, failed) => AttachEnded(s, id, failed)
    case DeleteInstance(id) => InstanceDeleted(s, id)
    case Detach(id, forget) => Detached(s, id, forget)
    case Release(c) => s.(released := s.released + {c}, finishers := s.finishers[c := Waiting])
    case ExitLoop(c) => s.(running := s.running - {c})
    case Join(c) => Joined(s, c)
    case BeginForget(id) => s.(owed := s.owed - multiset{id}, begun := s.begun + {id})
    case EndDrain(c) => DrainEnded(s, c)
    case DrainAll(order) => AllDraining(s, order)
    case Abandon(cs) => Abandoned(s, cs)
  }

  /** What the manager's callers promise: an id is not attached again while its last
      client drains, nor once its deletion was asked for. */
  predicate Promised(s: State, step: Step) {
    step.BeginAttach? ==> step.id !in s.draining && step.id !in s.asked
  }

  // ----- The invariant -----

  /** A client whose loop runs or may still start. */
  predicate Alive(s: State, c: Client) {
    c in s.running || (c.id in s.attaching && s.attaching[c.id] == c && c !in s.released)
  }

  predicate Attached(s: State, c: Client) { c.id in s.clients && s.clients[c.id] == c }

  predicate Draining(s: State, c: Client) {
    c in s.finishers && c.id in s.draining && s.draining[c.id].client == c
  }

  /** A live client is the attached one, or has a drain that has not been joined. */
  ghost predicate LiveAreTracked(s: State) {
    forall c | Alive(s, c) :: Attached(s, c) || (Draining(s, c) && s.finishers[c] != Forgetting)
  }

  ghost predicate ClientsOk(s: State) {
    && (forall id | id in s.clients :: var c := s.clients[id];
         c.id == id && c.n < s.next && c !in s.released && c !in s.finishers && id !in s.draining)
    && (forall id | id in s.attaching :: s.attaching[id].id == id && s.attaching[id].n < s.next)
    && (forall c | c in s.running || c in s.released || c in s.finishers :: c.n < s.next)
    && (s.stopping ==> s.clients == map[])
  }

  ghost predicate DrainsOk(s: State) {
    && (forall id | id in s.draining :: s.draining[id].client.id == id && s.draining[id].client in s.finishers)
    && (forall c | c in s.finishers :: Draining(s, c))
    && (forall c | c in s.finishers && s.finishers[c] != Releasing :: c in s.released)
  }

  /** An id whose deletion is bound to begin, or has, is neither attached nor draining a live client. */
  predicate Settled(s: State, id: Id) {
    && id in s.asked && id !in s.clients
    && (id in s.draining ==> s.draining[id].client in s.finishers && s.finishers[s.draining[id].client] == Forgetting)
  }

  ghost predicate ForgetsOk(s: State) {
    && (forall id | id in s.owed || id in s.begun :: Settled(s, id))
    && s.pendingDeletes <= s.clients.Keys && s.pendingDeletes <= s.asked
    && (forall id | id in s.draining && s.draining[id].forget :: id in s.asked)
  }

  /** A deletion that was asked for is recorded with the client or its drain, owed by a
      thread, or begun; shutdown may also have given up on the drain it waited for. */
  predicate Kept(s: State, id: Id) {
    || id in s.pendingDeletes || (id in s.draining && s.draining[id].forget)
    || id in s.owed || id in s.begun || id in s.givenUp
  }

  ghost predicate AllKept(s: State) { forall id | id in s.asked :: Kept(s, id) }

  ghost predicate Sound(s: State) { ClientsOk(s) && DrainsOk(s) && LiveAreTracked(s) && ForgetsOk(s) && AllKept(s) }

  lemma NewClientKeeps(s: State, id: Id, t: State)
    requires Sound(s)
    requires !s.stopping && id !in s.attaching && id !in s.clients && id !in s.draining && id !in s.asked
             && t == AttachBegun(s, id)
    ensures Sound(t)
  {
    forall d | Alive(t, d)
      ensures Attached(t, d) || (Draining(t, d) && t.finishers[d] != Forgetting)
    {
      assert Alive(s, d) || d == Client(id, s.next);
    }
  }

  lemma FailedAttachKeeps(s: State, id: Id, t: State)
    requires Sound(s)
    requires Enabled(s, EndAttach(id, true)) && id in s.clients && s.clients[id] == s.attaching[id]
             && t == AttachEnded(s, id, true)
    ensures Sound(t)
  {
    forall d | Alive(t, d)
      ensures Attached(t, d) || (Draining(t, d) && t.finishers[d] != Forgetting)
    {
      assert Alive(s, d);
    }
  }

  lemma OtherAttachKeeps(s: State, id: Id, failed: bool, t: State)
    requires Sound(s)
    requires Enabled(s, EndAttach(id, failed)) && (!failed || id !in s.clients || s.clients[id] != s.attaching[id])
             && t == AttachEnded(s, id, failed)
    ensures Sound(t)
  {
    forall d | Alive(t, d)
      ensures Attached(t, d) || (Draining(t, d) && t.finishers[d] != Forgetting)
    {
      assert Alive(s, d);
    }
  }

  lemma DeleteAttachedKeeps(s: State, id: Id, t: State)
    requires Sound(s) && id in s.clients && t == InstanceDeleted(s, id)
    ensures Sound(t)
  {
    forall d | Alive(t, d)
      ensures Attached(t, d) || (Draining(t, d) && t.finishers[d] != Forgetting)
    {
      assert Alive(s, d);
    }
  }

  lemma DeleteDrainingKeeps(s: State, id: Id, t: State)
    requires Sound(s) && id !in s.clients && id in s.draining && t == InstanceDeleted(s, id)
    ensures Sound(t)
  {
    forall d | Alive(t, d)
      ensures Attached(t, d) || (Draining(t, d) && t.finishers[d] != Forgetting)
    {
      assert Alive(s, d);
    }
  }

  lemma DeleteGoneKeeps(s: State, id: Id, t: State)
    requires Sound(s) && id !in s.clients && id !in s.draining && t == InstanceDeleted(s, id)
    ensures Sound(t)
  {
    forall d | Alive(t, d)
      ensures Attached(t, d) || (Draining(t, d) && t.finishers[d] != Forgetting)
    {
      assert Alive(s, d);
    }
  }

  lemma DetachAttachedTracks(s: State, id: Id, forget: bool, t: State)
    requires Sound(s) && id in s.clients && t == Detached(s, id, forget)
    ensures LiveAreTracked(t) && ClientsOk(t)
  {
    hide AllKept, ForgetsOk;
    forall d | Alive(t, d)
      ensures Attached(t, d) || (Draining(t, d) && t.finishers[d] != Forgetting)
    {
      assert Alive(s, d);
    }
  }

  lemma DetachAttachedDrains(s: State, id: Id, forget: bool, t: State)
    requires Sound(s) && id in s.clients && t == Detached(s, id, forget)
    ensures DrainsOk(t)
  {
    hide AllKept, ForgetsOk, LiveAreTracked;
  }

  lemma DetachAttachedForgets(s: State, id: Id, forget: bool, t: State)
    requires Sound(s) && id in s.clients && t == Detached(s, id, forget)
    ensures ForgetsOk(t)
  {
    hide LiveAreTracked, DrainsOk, AllKept;
  }

  lemma DetachAttachedKeeps(s: State, id: Id, forget: bool, t: State)
    requires Sound(s) && id in s.clients && t == Detached(s, id, forget)
    ensures Sound(t)
  {
    DetachAttachedTracks(s, id, forget, t);
    DetachAttachedDrains(s, id, forget, t);
    DetachAttachedForgets(s, id, forget, t);
    hide LiveAreTracked, ForgetsOk, DrainsOk;
  }

  lemma DetachDrainingTracks(s: State, id: Id, forget: bool, t: State)
    requires Sound(s) && id !in s.clients && id in s.draining && t == Detached(s, id, forget)
    ensures LiveAreTracked(t) && ClientsOk(t)
  {
    hide AllKept, ForgetsOk;
    forall d | Alive(t, d)
      ensures Attached(t, d) || (Draining(t, d) && t.finishers[d] != Forgetting)
    {
      assert Alive(s, d);
    }
  }

  lemma DetachDrainingDrains(s: State, id: Id, forget: bool, t: State)
    requires Sound(s) && id !in s.clients && id in s.draining && t == Detached(s, id, forget)
    ensures DrainsOk(t)
  {
    hide AllKept, ForgetsOk, LiveAreTracked;
  }

  lemma DetachDrainingKeeps(s: State, id: Id, forget: bool, t: State)
    requires Sound(s) && id !in s.clients && id in s.draining && t == Detached(s, id, forget)
    ensures Sound(t)
  {
    DetachDrainingTracks(s, id, forget, t);
    DetachDrainingDrains(s, id, forget, t);
    hide LiveAreTracked, ClientsOk;
  }

  lemma DetachGoneKeeps(s: State, id: Id, forget: bool, t: State)
    requires Sound(s) && id !in s.clients && id !in s.draining && t == Detached(s, id, forget)
    ensures Sound(t)
  {
    forall d | Alive(t, d)
      ensures Attached(t, d) || (Draining(t, d) && t.finishers[d] != Forgetting)
    {
      assert Alive(s, d);
    }
  }

  lemma JoinUnwantedTracks(s: State, c: Client, t: State)
    requires Sound(s)
    requires Enabled(s, Join(c)) && Draining(s, c) && (s.draining[c.id].abandoned || !s.draining[c.id].forget)
             && t == Joined(s, c)
    ensures LiveAreTracked(t) && ClientsOk(t)
  {
    hide AllKept, ForgetsOk;
    forall d | Alive(t, d)
      ensures Attached(t, d) || (Draining(t, d) && t.finishers[d] != Forgetting)
    {
      assert Alive(s, d);
    }
  }

  lemma JoinUnwantedDrains(s: State, c: Client, t: State)
    requires Sound(s)
    requires Enabled(s, Join(c)) && Draining(s, c) && (s.draining[c.id].abandoned || !s.draining[c.id].forget)
             && t == Joined(s, c)
    ensures DrainsOk(t)
  {
    hide AllKept, ForgetsOk, LiveAreTracked;
  }

  lemma JoinUnwantedKeeps(s: State, c: Client, t: State)
    requires Sound(s)
    requires Enabled(s, Join(c)) && Draining(s, c) && (s.draining[c.id].abandoned || !s.draining[c.id].forget)
             && t == Joined(s, c)
    ensures Sound(t)
  {
    JoinUnwantedTracks(s, c, t);
    JoinUnwantedDrains(s, c, t);
    hide LiveAreTracked, ClientsOk;
  }

  lemma JoinWantedTracks(s: State, c: Client, t: State)
    requires Sound(s)
    requires Enabled(s, Join(c)) && Draining(s, c) && !s.draining[c.id].abandoned && s.draining[c.id].forget
             && t == Joined(s, c)
    ensures LiveAreTracked(t) && ClientsOk(t)
  {
    hide AllKept, ForgetsOk;
    forall d | Alive(t, d)
      ensures Attached(t, d) || (Draining(t, d) && t.finishers[d] != Forgetting)
    {
      assert Alive(s, d);
    }
  }

  lemma JoinWantedDrains(s: State, c: Client, t: State)
    requires Sound(s)
    requires Enabled(s, Join(c)) && Draining(s, c) && !s.draining[c.id].abandoned && s.draining[c.id].forget
             && t == Joined(s, c)
    ensures DrainsOk(t)
  {
    hide AllKept, ForgetsOk, LiveAreTracked;
  }

  lemma JoinWantedKeeps(s: State, c: Client, t: State)
    requires Sound(s)
    requires Enabled(s, Join(c)) && Draining(s, c) && !s.draining[c.id].abandoned && s.draining[c.id].forget
             && t == Joined(s, c)
    ensures Sound(t)
  {
    JoinWantedTracks(s, c, t);
    JoinWantedDrains(s, c, t);
    hide LiveAreTracked, ClientsOk;
  }

  lemma DrainEndTracks(s: State, c: Client, t: State)
    requires Sound(s) && Enabled(s, EndDrain(c)) && Draining(s, c) && t == DrainEnded(s, c)
    ensures LiveAreTracked(t) && ClientsOk(t)
  {
    hide AllKept, ForgetsOk;
    forall d | Alive(t, d)
      ensures Attached(t, d) || (Draining(t, d) && t.finishers[d] != Forgetting)
    {
      assert Alive(s, d);
    }
  }

  lemma DrainEndDrains(s: State, c: Client, t: State)
    requires Sound(s) && Enabled(s, EndDrain(c)) && Draining(s, c) && t == DrainEnded(s, c)
    ensures DrainsOk(t)
  {
    hide AllKept, ForgetsOk, LiveAreTracked;
  }

  lemma DrainEndKeeps(s: State, c: Client, t: State)
    requires Sound(s) && Enabled(s, EndDrain(c)) && Draining(s, c) && t == DrainEnded(s, c)
    ensures Sound(t)
  {
    DrainEndTracks(s, c, t);
    DrainEndDrains(s, c, t);
    hide LiveAreTracked, ClientsOk;
  }

  lemma AbandonDrainsTracks(s: State, cs: set<Client>, t: State)
    requires Sound(s) && t == Abandoned(s, cs)
    ensures LiveAreTracked(t) && ClientsOk(t)
  {
    hide AllKept, ForgetsOk;
    forall d | Alive(t, d)
      ensures Attached(t, d) || (Draining(t, d) && t.finishers[d] != Forgetting)
    {
      assert Alive(s, d);
    }
  }

  lemma AbandonDrainsDrains(s: State, cs: set<Client>, t: State)
    requires Sound(s) && t == Abandoned(s, cs)
    ensures DrainsOk(t)
  {
    hide AllKept, ForgetsOk, LiveAreTracked;
  }

  lemma AbandonDrainsKeeps(s: State, cs: set<Client>, t: State)
    requires Sound(s) && t == Abandoned(s, cs)
    ensures Sound(t)
  {
    AbandonDrainsTracks(s, cs, t);
    AbandonDrainsDrains(s, cs, t);
    hide LiveAreTracked, ClientsOk;
  }

  lemma LoopStartKeeps(s: State, c: Client, t: State)
    requires Sound(s) && Enabled(s, StartLoop(c)) && t == s.(running := s.running + {c})
    ensures Sound(t)
  {
    forall d | Alive(t, d)
      ensures Attached(t, d) || (Draining(t, d) && t.finishers[d] != Forgetting)
    {
      assert Alive(s, d);
    }
  }

  lemma LoopExitKeeps(s: State, c: Client, t: State)
    requires Sound(s) && t == s.(running := s.running - {c})
    ensures Sound(t)
  {
    forall d | Alive(t, d)
      ensures Attached(t, d) || (Draining(t, d) && t.finishers[d] != Forgetting)
    {
      assert Alive(s, d);
    }
  }

  lemma ReleaseClientKeeps(s: State, c: Client, t: State)
    requires Sound(s)
    requires Enabled(s, Release(c)) && t == s.(released := s.released + {c}, finishers := s.finishers[c := Waiting])
    ensures Sound(t)
  {
    forall d | Alive(t, d)
      ensures Attached(t, d) || (Draining(t, d) && t.finishers[d] != Forgetting)
    {
      assert Alive(s, d);
    }
  }

  lemma ForgetStartKeeps(s: State, id: Id, t: State)
    requires Sound(s) && id in s.owed && t == s.(owed := s.owed - multiset{id}, begun := s.begun + {id})
    ensures Sound(t)
  {
    forall d | Alive(t, d)
      ensures Attached(t, d) || (Draining(t, d) && t.finishers[d] != Forgetting)
    {
      assert Alive(s, d);
    }
  }

  lemma {:induction false} DrainEachKeeps(s: State, order: seq<Id>)
    requires Sound(s)
    ensures Sound(DrainEach(s, order))
  {
    if order != [] {
      var id := order[|order| - 1];
      DrainEachKeeps(s, order[..|order| - 1]);
      var t := DrainEach(s, order[..|order| - 1]);
      hide Sound;
      if id in t.clients {
        DetachAttachedKeeps(t, id, false, Detached(t, id, false));
      }
    }
  }

  /** Draining all moves each attached client to the draining ones, with what was asked of it. */
  lemma {:induction false} DrainEachMoves(s: State, order: seq<Id>)
    ensures var t := DrainEach(s, order);
            && t == s.(clients := t.clients, pendingDeletes := t.pendingDeletes, draining := t.draining,
                       finishers := t.finishers)
            && (forall id :: id in t.clients <==> id in s.clients && id !in order)
            && (forall id :: id in t.pendingDeletes <==> id in s.pendingDeletes && !(id in s.clients && id in order))
            && (forall id | id in t.clients :: t.clients[id] == s.clients[id])
            && (forall id :: id in t.draining <==> id in s.draining || (id in s.clients && id in order))
            && forall id | id in t.draining ::
                 t.draining[id] ==
                   if id in s.clients && id in order then Entry(s.clients[id], id in s.pendingDeletes, false)
                                   else s.draining[id]
  {
    if order != [] {
      DrainEachMoves(s, order[..|order| - 1]);
      assert forall id :: id in order <==> id in order[..|order| - 1] || id == order[|order| - 1];
    }
  }

  lemma DrainAllStops(s: State, order: seq<Id>)
    requires s.pendingDeletes <= s.clients.Keys && forall id | id in s.clients :: id in order
    ensures AllDraining(s, order) == DrainEach(s, order).(stopping := true)
    ensures DrainEach(s, order).clients == map[] && DrainEach(s, order).pendingDeletes == {}
  {
    DrainEachMoves(s, order);
    hide DrainEach;
  }

  lemma StopKeeps(s: State)
    requires Sound(s) && s.clients == map[]
    ensures Sound(s.(stopping := true))
  {
    var t := s.(stopping := true);
    assert forall d | Alive(t, d) :: Alive(s, d);
  }

  // ----- What holds of every run -----

  lemma AttachKeeps(s: State, step: Step)
    requires Sound(s) && Enabled(s, step) && Promised(s, step) && (step.BeginAttach? || step.EndAttach?)
    ensures Sound(After(s, step))
  {
    hide Sound;
    match step
    case BeginAttach(id) =>
      if !s.stopping && id !in s.attaching && id !in s.clients {
        NewClientKeeps(s, id, AttachBegun(s, id));
      }
    case EndAttach(id, failed) =>
      if failed && id in s.clients && s.clients[id] == s.attaching[id] {
        FailedAttachKeeps(s, id, AttachEnded(s, id, true));
      } else {
        OtherAttachKeeps(s, id, failed, AttachEnded(s, id, failed));
      }
  }

  lemma RequestKeeps(s: State, step: Step)
    requires Sound(s) && (step.DeleteInstance? || step.Detach?)
    ensures Sound(After(s, step))
  {
    hide Sound;
    var id, t := step.id, After(s, step);
    match step
    case DeleteInstance(_) =>
      if id in s.clients {
        DeleteAttachedKeeps(s, id, t);
      } else if id in s.draining {
        DeleteDrainingKeeps(s, id, t);
      } else {
        DeleteGoneKeeps(s, id, t);
      }
    case Detach(_, forget) =>
      if id in s.clients {
        DetachAttachedKeeps(s, id, forget, t);
      } else if id in s.draining {
        DetachDrainingKeeps(s, id, forget, t);
      } else {
        DetachGoneKeeps(s, id, forget, t);
      }
  }

  lemma FinisherDrains(s: State, c: Client)
    requires Sound(s) && c in s.finishers
    ensures Draining(s, c)
  {
  }

  lemma PendingAreAttached(s: State)
    requires Sound(s)
    ensures s.pendingDeletes <= s.clients.Keys
  {
  }

  /** Every step any thread may take keeps the invariant. */
  lemma StepKeeps(s: State, step: Step)
    requires Sound(s) && Enabled(s, step) && Promised(s, step)
    ensures Sound(After(s, step))
  {
    hide Sound, Draining;
    var t := After(s, step);
    match step
    case BeginAttach(_) => AttachKeeps(s, step);
    case EndAttach(_, _) => AttachKeeps(s, step);
    case DeleteInstance(_) => RequestKeeps(s, step);
    case Detach(_, _) => RequestKeeps(s, step);
    case StartLoop(c) => LoopStartKeeps(s, c, t);
    case ExitLoop(c) => LoopExitKeeps(s, c, t);
    case Release(c) => ReleaseClientKeeps(s, c, t);
    case BeginForget(id) => ForgetStartKeeps(s, id, t);
    case Abandon(cs) => AbandonDrainsKeeps(s, cs, t);
    case EndDrain(c) =>
      FinisherDrains(s, c);
      DrainEndKeeps(s, c, t);
    case Join(c) =>
      FinisherDrains(s, c);
      if s.draining[c.id].abandoned || !s.draining[c.id].forget {
        JoinUnwantedKeeps(s, c, t);
      } else {
        JoinWantedKeeps(s, c, t);
      }
    case DrainAll(order) =>
      PendingAreAttached(s);
      DrainAllStops(s, order);
      DrainEachKeeps(s, order);
      StopKeeps(DrainEach(s, order));
  }

  ghost predicate CanRun(s: State, steps: seq<Step>)
    decreases |steps|
  {
    steps == [] || (Enabled(s, steps[0]) && CanRun(After(s, steps[0]), steps[1..]))
  }

  ghost predicate KeepsPromise(s: State, steps: seq<Step>)
    requires CanRun(s, steps)
    decreases |steps|
  {
    steps == [] || (Promised(s, steps[0]) && KeepsPromise(After(s, steps[0]), steps[1..]))
  }

  ghost function End(s: State, steps: seq<Step>): State
    requires CanRun(s, steps)
    decreases |steps|
  {
    if steps == [] then s else End(After(s, steps[0]), steps[1..])
  }

  /** Whatever the interleaving, no deletion that was asked for is lost. */
  lemma {:induction false} DeletionsAreNeverLost(s: State, steps: seq<Step>)
    requires Sound(s) && CanRun(s, steps) && KeepsPromise(s, steps)
    ensures Sound(End(s, steps)) && forall id | id in End(s, steps).asked :: Kept(End(s, steps), id)
    decreases |steps|
  {
    if steps != [] {
      hide Sound, Kept;
      StepKeeps(s, steps[0]);
      DeletionsAreNeverLost(After(s, steps[0]), steps[1..]);
    }
  }

  lemma StartIsSound()
    ensures Sound(START)
  {
  }

  /** A deletion begins, and goes on, only while no client of the id has a loop that
      runs or could still start; and all steps keep it so. */
  lemma ForgetsOnlyTheJoined(s: State, id: Id, c: Client)
    requires Sound(s) && (id in s.owed || id in s.begun) && c.id == id
    ensures !Alive(s, c)
  {
    assert Settled(s, id);
  }

  /** Once shutdown has begun and nothing is left to drain, no loop runs and none can start. */
  lemma ShutdownJoinsAll(s: State, c: Client)
    requires Sound(s) && s.stopping && s.draining == map[]
    ensures !Alive(s, c)
  {
  }

  /** Shutdown finds no deletion recorded without its client, so all that are recorded ride on a drain. */
  lemma ShutdownFindsNoStrays(s: State, order: seq<Id>, id: Id)
    requires Sound(s) && (forall i | i in s.clients :: i in order)
    ensures DrainEach(s, order).pendingDeletes == {} && AllDraining(s, order).owed == s.owed
    ensures id in s.pendingDeletes ==> id in AllDraining(s, order).draining && AllDraining(s, order).draining[id].forget
  {
    DrainEachMoves(s, order);
    DrainAllStops(s, order);
  }

  // ----- What the promise is for -----

  predicate Elsewhere(s: State, id: Id) {
    id in s.pendingDeletes || id in s.owed || id in s.begun || id in s.givenUp
  }

  /** The step releases a client attached over one whose drain was the only record of a deletion. */
  predicate Overwrites(s: State, step: Step, id: Id) {
    && (step == Detach(id, false) || step.DrainAll?)
    && id in s.clients && id in s.draining && s.draining[id].forget && !Elsewhere(s, id)
  }

  lemma LostByDrainAll(s: State, order: seq<Id>, id: Id)
    requires s.pendingDeletes <= s.clients.Keys && (forall i | i in s.clients :: i in order) && Kept(s, id)
    ensures Kept(AllDraining(s, order), id) <==> !Overwrites(s, DrainAll(order), id)
  {
    DrainEachMoves(s, order);
    DrainAllStops(s, order);
    hide DrainEach, AllDraining;
  }

  lemma LostByDetach(s: State, id: Id, forget: bool, other: Id)
    requires s.pendingDeletes <= s.clients.Keys && Kept(s, other)
    ensures Kept(Detached(s, id, forget), other) <==> !Overwrites(s, Detach(id, forget), other)
  {
  }

  lemma KeptByDrain(s: State, c: Client, id: Id)
    requires Kept(s, id)
    ensures Kept(Joined(s, c), id) && (c.id in s.begun ==> Kept(DrainEnded(s, c), id))
  {
  }

  /** From any state at all, a step loses a deletion exactly when it overwrites its drain. */
  lemma LostExactlyWhenOverwritten(s: State, step: Step, id: Id)
    requires s.pendingDeletes <= s.clients.Keys && Enabled(s, step) && Kept(s, id)
    ensures Kept(After(s, step), id) <==> !Overwrites(s, step, id)
  {
    match step
    case DrainAll(order) => LostByDrainAll(s, order, id);
    case Detach(i, forget) => LostByDetach(s, i, forget, id);
    case Join(c) => KeptByDrain(s, c, id);
    case EndDrain(c) => KeptByDrain(s, c, id);
    case _ =>
  }

  /** And that does happen once an id is attached again while its last client drains. */
  lemma ReattachingLosesADeletion()
    ensures exists steps: seq<Step> | CanRun(START, steps) ::
              "a" in End(START, steps).asked && !Kept(End(START, steps), "a")
  {
    var c, detach, attach := Client("a", 0), Detach("a", false), BeginAttach("a");
    var s1 := AttachBegun(START, "a");
    var s2 := After(s1, StartLoop(c));
    assert s2.attaching == map["a" := c];
    var s3 := AttachEnded(s2, "a", false);
    var s4 := InstanceDeleted(s3, "a");
    var s5 := Detached(s4, "a", false);
    assert s5.draining["a"] == Entry(c, true, false);
    var s6 := AttachBegun(s5, "a");
    var s7 := Detached(s6, "a", false);
    assert s7.draining["a"] == Entry(Client("a", 1), false, false);
    hide AttachBegun, Detached, AttachEnded, InstanceDeleted;
    var steps := OneMore(s6, detach, []);
    steps := OneMore(s5, attach, steps);
    steps := OneMore(s4, detach, steps);
    steps := OneMore(s3, DeleteInstance("a"), steps);
    steps := OneMore(s2, EndAttach("a", false), steps);
    steps := OneMore(s1, StartLoop(c), steps);
    steps := OneMore(START, attach, steps);
    assert End(START, steps) == s7;
  }

  lemma OneMore(s: State, step: Step, rest: seq<Step>) returns (steps: seq<Step>)
    requires Enabled(s, step) && CanRun(After(s, step), rest)
    ensures steps == [step] + rest && CanRun(s, steps) && End(s, steps) == End(After(s, step), rest)
  {
    steps := [step] + rest;
    assert steps[1..] == rest;
  }

  // ----- The manager -----

  datatype AttachAnswer = Refused | AwaitOther(client: Client) | Existing(client: Client) | Fresh(client: Client)

  /** The manager's maps, changed only under its lock; one method for each region.
      The other goroutines appear as ghost state. */
  class Manager {
    var clients: map<Id, Client>
    var attaching: map<Id, Client>
    var draining: map<Id, Entry>
    var pendingDeletes: set<Id>
    var stopping: bool
    var next: nat
    ghost var running: set<Client>
    ghost var released: set<Client>
    ghost var finishers: map<Client, Stage>
    ghost var owed: multiset<Id>
    ghost var begun: set<Id>
    ghost var asked: set<Id>
    ghost var givenUp: set<Id>

    ghost function Abs(): State
      reads this
    {
      State(clients, attaching, draining, pendingDeletes, stopping, next, running, released, finishers, owed, begun,
            asked, givenUp)
    }

    constructor ()
      ensures Abs() == START
    {
      clients, attaching, draining, pendingDeletes, stopping, next := map[], map[], map[], {}, false, 0;
      running, released, finishers, owed, begun, asked, givenUp := {}, {}, map[], multiset{}, {}, {}, {};
    }

    method BeginAttach(id: Id) returns (r: AttachAnswer)
      modifies this
      ensures Abs() == AttachBegun(old(Abs()), id)
      ensures match r
              case Refused => old(stopping)
              case AwaitOther(c) => !old(stopping) && id in old(attaching) && old(attaching)[id] == c
              case Existing(c) =>
                !old(stopping) && id !in old(attaching) && id in old(clients) && old(clients)[id] == c
              case Fresh(c) => id !in old(clients) && Attached(Abs(), c) && c.n == old(next)
    {
      if stopping {
        return Refused;
      }
      if id in attaching {
        return AwaitOther(attaching[id]);
      }
      if id in clients {
        return Existing(clients[id]);
      }
      var c := Client(id, next);
      next := next + 1;
      clients := clients[id := c];
      attaching := attaching[id := c];
      return Fresh(c);
    }

    /** Whether the attach succeeded, and whether its caller must now call `Forget`. */
    method EndAttach(id: Id, failed: bool) returns (ok: bool, forget: bool)
      requires id in attaching
      modifies this
      ensures Abs() == AttachEnded(old(Abs()), id, failed)
      ensures ok <==> !failed && !stopping && id in clients && clients[id] == old(attaching[id])
      ensures owed == if forget then old(owed) + multiset{id} else old(owed)
    {
      var c := attaching[id];
      ok, forget := false, false;
      if stopping || id !in clients || clients[id] != c {
      } else if failed {
        clients := clients - {id};
        forget := id in pendingDeletes;
        pendingDeletes := pendingDeletes - {id};
        owed := if forget then owed + multiset{id} else owed;
      } else {
        ok := true;
      }
      attaching := attaching - {id};
    }

    method DeleteInstance(id: Id) returns (now: bool)
      modifies this
      ensures Abs() == InstanceDeleted(old(Abs()), id)
      ensures owed == if now then old(owed) + multiset{id} else old(owed)
    {
      now := id !in clients && id !in draining;
      asked := asked + {id};
      if id in clients {
        pendingDeletes := pendingDeletes + {id};
      } else if id in draining {
        draining := draining[id := draining[id].(forget := true)];
      }
      owed := if now then owed + multiset{id} else owed;
    }

    /** Whether the id had a client or a drain to leave the deletion to. */
    method DetachClient(id: Id, forget: bool) returns (handled: bool)
      modifies this
      ensures Abs() == Detached(old(Abs()), id, forget)
      ensures handled <==> id in old(clients) || id in old(draining)
      ensures owed == if forget && !handled then old(owed) + multiset{id} else old(owed)
    {
      hide Drain;
      var want := forget || id in pendingDeletes;
      pendingDeletes := pendingDeletes - {id};
      asked := if forget then asked + {id} else asked;
      if id in clients {
        StartDrain(id, want);
        return true;
      }
      if id in draining {
        var e := draining[id];
        draining := draining[id := e.(forget := e.forget || want)];
        return true;
      }
      owed := if forget then owed + multiset{id} else owed;
      return false;
    }

    method StartDrain(id: Id, forget: bool)
      requires id in clients
      modifies this`clients, this`draining, this`finishers
      ensures Abs() == Drain(old(Abs()), id, forget)
    {
      var c := clients[id];
      clients := clients - {id};
      draining := draining[id := Entry(c, forget, false)];
      finishers := finishers[c := Releasing];
    }

    /** Run once the drained client's loop is joined; whether the finisher must now call `Forget`. */
    method JoinDrain(c: Client) returns (forget: bool)
      modifies this
      ensures Abs() == Joined(old(Abs()), c)
      ensures owed == if forget then old(owed) + multiset{c.id} else old(owed)
    {
      forget := false;
      if c.id !in draining || draining[c.id].client != c {
        finishers := finishers - {c};
        return;
      }
      var e := draining[c.id];
      if e.abandoned {
        givenUp := if e.forget then givenUp + {c.id} else givenUp;
      }
      forget := e.forget && !e.abandoned;
      if forget {
        owed, finishers := owed + multiset{c.id}, finishers[c := Forgetting];
      } else {
        draining, finishers := draining - {c.id}, finishers - {c};
      }
    }

    method EndDrain(c: Client)
      modifies this
      ensures Abs() == DrainEnded(old(Abs()), c)
    {
      finishers := finishers - {c};
      if c.id in draining && draining[c.id].client == c {
        draining := draining - {c.id};
      }
    }

    /** Starts the drain of every attached client. Gives the drains shutdown must join
        and the deletions left without a client. */
    method BeginAllDrains() returns (joins: map<Id, Client>, deleted: set<Id>, ghost order: seq<Id>)
      modifies this
      ensures Abs() == AllDraining(old(Abs()), order) && forall id | id in old(clients) :: id in order
      ensures deleted == DrainEach(old(Abs()), order).pendingDeletes
      ensures joins == map id | id in draining && !draining[id].abandoned :: draining[id].client
    {
      hide DrainEach;
      order := DrainAttached();
      stopping := true;
      deleted := pendingDeletes;
      pendingDeletes := {};
      owed := owed + multiset(deleted);
      joins := map id | id in draining && !draining[id].abandoned :: draining[id].client;
    }

    method DrainAttached() returns (ghost order: seq<Id>)
      modifies this
      ensures Abs() == DrainEach(old(Abs()), order) && clients == map[] && forall id | id in old(clients) :: id in order
    {
      hide Detached;
      order := [];
      while clients != map[]
        invariant Abs() == DrainEach(old(Abs()), order)
        invariant forall id | id in old(clients) :: id in clients || id in order
        decreases |clients|
      {
        var id :| id in clients;
        ghost var was := Abs();
        assert (order + [id])[..|order|] == order;
        order := order + [id];
        var handled := DetachClient(id, false);
        FewerLeft(was, id);
      }
    }

    method AbandonDrains(pending: set<Id>, joins: map<Id, Client>)
      requires pending <= joins.Keys
      requires forall id | id in draining :: draining[id].client.id == id
      modifies this
      ensures Abs() == Abandoned(old(Abs()), set id | id in pending && id in draining
                                                      && draining[id].client == joins[id] :: joins[id])
    {
      draining := map id | id in draining ::
          if id in pending && draining[id].client == joins[id] then draining[id].(abandoned := true) else draining[id];
    }
  }

  lemma FewerLeft(s: State, id: Id)
    requires id in s.clients
    ensures Detached(s, id, false).clients == s.clients - {id} && |s.clients - {id}| < |s.clients|
  {
    assert (s.clients - {id}).Keys == s.clients.Keys - {id};
  }
}
