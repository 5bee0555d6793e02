/** When a deletion is bound to begin while a client of its id lives on. */
module ManagerForgets {
  import opened ManagerLifecycle

  predicate Runs(s: State, id: Id) { exists c | c in s.running :: c.id == id }

  predicate MayStart(s: State, id: Id) {
    id in s.attaching && s.attaching[id].id == id && s.attaching[id] !in s.released
  }

  /** Some client of the id has a loop that runs or may still start. */
  predicate LivesOn(s: State, id: Id) { Runs(s, id) || MayStart(s, id) }

  lemma LivesOnIs(s: State, id: Id)
    ensures LivesOn(s, id) <==> exists c: Client :: c.id == id && Alive(s, c)
  {
    if MayStart(s, id) {
      assert Alive(s, s.attaching[id]);
    }
  }

  predicate Bound(s: State, id: Id) { id in s.owed || id in s.begun }

  /** A deletion of the id is bound to begin, or has begun, under a client that lives. */
  predicate ForgetsTheLiving(s: State, id: Id) { Bound(s, id) && LivesOn(s, id) }

  /** The step is an attach under a deletion that is bound to begin, or binds one to begin under a living
      client: by joining a drain that wants it, by asking for it where nothing is attached or drains, or by an
      attach that fails and leaves another client of the id running. */
  predicate Collides(s: State, step: Step, id: Id) {
    match step
    case BeginAttach(i) => i == id && Bound(s, id) && !s.stopping && id !in s.attaching && id !in s.clients
    case Join(c) =>
      && c.id == id && id in s.draining && s.draining[id].client == c && !s.draining[id].abandoned
      && s.draining[id].forget && LivesOn(s, id)
    case DeleteInstance(i) => i == id && id !in s.clients && id !in s.draining && LivesOn(s, id)
    case Detach(i, forget) => i == id && forget && id !in s.clients && id !in s.draining && LivesOn(s, id)
    case EndAttach(i, failed) =>
      && i == id && failed && !s.stopping && id in s.clients && id in s.attaching
      && s.clients[id] == s.attaching[id] && id in s.pendingDeletes && Runs(s, id)
    case _ => false
  }

  lemma AttachCollides(s: State, i: Id, id: Id)
    requires !ForgetsTheLiving(s, id) && forall c | c in s.released :: c.n < s.next
    ensures ForgetsTheLiving(AttachBegun(s, i), id) <==> Collides(s, BeginAttach(i), id)
  {
  }

  lemma EndCollides(s: State, i: Id, failed: bool, id: Id)
    requires !ForgetsTheLiving(s, id) && Enabled(s, EndAttach(i, failed))
    ensures ForgetsTheLiving(AttachEnded(s, i, failed), id) <==> Collides(s, EndAttach(i, failed), id)
  {
  }

  lemma SameLoops(s: State, t: State, id: Id)
    requires t.attaching == s.attaching && t.running == s.running && t.released == s.released
    ensures LivesOn(t, id) <==> LivesOn(s, id)
  {
  }

  lemma DeletingCollides(s: State, i: Id, id: Id)
    requires !ForgetsTheLiving(s, id)
    ensures ForgetsTheLiving(InstanceDeleted(s, i), id) <==> Collides(s, DeleteInstance(i), id)
  {
    SameLoops(s, InstanceDeleted(s, i), id);
    hide LivesOn;
  }

  lemma DetachingCollides(s: State, i: Id, forget: bool, id: Id)
    requires !ForgetsTheLiving(s, id)
    ensures ForgetsTheLiving(Detached(s, i, forget), id) <==> Collides(s, Detach(i, forget), id)
  {
    hide LivesOn;
    SameLoops(s, Detached(s, i, forget), id);
  }

  lemma DrainingCollides(s: State, c: Client, id: Id)
    requires !ForgetsTheLiving(s, id)
    ensures ForgetsTheLiving(Joined(s, c), id) <==> Collides(s, Join(c), id)
    ensures !ForgetsTheLiving(DrainEnded(s, c), id)
  {
  }

  lemma {:induction false} DrainEachKeepsLoops(s: State, order: seq<Id>)
    ensures var t := DrainEach(s, order);
            && t.attaching == s.attaching && t.running == s.running && t.released == s.released
            && t.owed == s.owed && t.begun == s.begun
  {
    if order != [] {
      DrainEachKeepsLoops(s, order[..|order| - 1]);
    }
  }

  lemma AllDrainingCollides(s: State, order: seq<Id>, id: Id)
    requires !ForgetsTheLiving(s, id) && s.pendingDeletes <= s.clients.Keys && forall i | i in s.clients :: i in order
    ensures !ForgetsTheLiving(AllDraining(s, order), id)
  {
    DrainEachKeepsLoops(s, order);
    DrainEachMoves(s, order);
    DrainAllStops(s, order);
    hide DrainEach;
  }

  lemma QuietStep(s: State, step: Step, id: Id)
    requires Enabled(s, step) && !ForgetsTheLiving(s, id)
    requires step.StartLoop? || step.Release? || step.ExitLoop? || step.BeginForget? || step.Abandon?
    ensures !ForgetsTheLiving(After(s, step), id)
  {
  }

  /** From any state at all, promised or not, a step comes to forget a living client exactly when it collides. */
  lemma ForgetsTheLivingExactlyAfterACollision(s: State, step: Step, id: Id)
    requires Enabled(s, step) && s.pendingDeletes <= s.clients.Keys && (forall c | c in s.released :: c.n < s.next)
    requires !ForgetsTheLiving(s, id)
    ensures ForgetsTheLiving(After(s, step), id) <==> Collides(s, step, id)
  {
    match step
    case BeginAttach(i) => AttachCollides(s, i, id);
    case EndAttach(i, failed) => EndCollides(s, i, failed, id);
    case DeleteInstance(i) => DeletingCollides(s, i, id);
    case Detach(i, forget) => DetachingCollides(s, i, forget, id);
    case Join(c) => DrainingCollides(s, c, id);
    case EndDrain(c) => DrainingCollides(s, c, id);
    case DrainAll(order) => AllDrainingCollides(s, order, id);
    case _ => QuietStep(s, step, id);
  }

  /** An id attached again while its deleted client drains: the join of that drain collides. */
  lemma ReattachingForgetsTheLiving()
    ensures exists steps: seq<Step> | CanRun(START, steps) ::
              "a" in End(START, steps).owed && Alive(End(START, steps), Client("a", 1))
  {
    var c, d := Client("a", 0), Client("a", 1);
    var s1 := AttachBegun(START, "a");
    var s2 := AttachEnded(s1, "a", false);
    assert s2.clients == map["a" := c] && s2.attaching == map[];
    var s3 := InstanceDeleted(s2, "a");
    var s4 := Detached(s3, "a", false);
    assert s4.draining["a"] == Entry(c, true, false);
    var s5 := AttachBegun(s4, "a");
    assert s5.attaching == map["a" := d];
    var s6 := After(s5, Release(c));
    var s7 := Joined(s6, c);
    assert "a" in s7.owed && Alive(s7, d);
    hide AttachBegun, Detached, AttachEnded, InstanceDeleted, Joined;
    var steps := OneMore(s6, Join(c), []);
    steps := OneMore(s5, Release(c), steps);
    steps := OneMore(s4, BeginAttach("a"), steps);
    steps := OneMore(s3, Detach("a", false), steps);
    steps := OneMore(s2, DeleteInstance("a"), steps);
    steps := OneMore(s1, EndAttach("a", false), steps);
    steps := OneMore(START, BeginAttach("a"), steps);
    assert End(START, steps) == s7;
  }
}
