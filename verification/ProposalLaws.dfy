/** When a proposal is accepted, said of the fields the model wrote and of the request, with
    nothing resolved, drafted or collected on the way. */
module ProposalLaws {
  import opened Options
  import opened Episodes
  import opened ReflectionValidation

  // ----- Experiences -----

  predicate SourceFits(c: Context, p: ExperienceProposal, s: nat) {
    && s in c.events
    && (p.kind == Assertion ==> p.subject in c.instances && c.events[s].sender == Some(c.instances[p.subject]))
    && (p.kind == Relationship ==>
          p.subject in c.instances
          && (c.events[s].sender == Some(c.instances[p.subject]) || c.events[s].peer == Some(c.instances[p.subject])))
  }

  predicate ExperienceFits(c: Context, p: ExperienceProposal) {
    && c.rules.key(p.key) && c.rules.confidence(p.confidence) && c.rules.text(p.summary)
    && (match p.kind
        case Observation => p.subject == ""
        case Interpretation => p.subject == ""
        case Assertion => p.subject != "" && p.subject in c.instances
        case Relationship => p.subject != "" && p.subject in c.instances
        case UnknownKind => false)
    && |p.sources| > 0 && (forall s | s in p.sources :: SourceFits(c, p, s))
    && forall a, b | 0 <= a < b < |p.sources| :: p.sources[a] != p.sources[b]
  }

  predicate ExperiencesFit(c: Context, ps: seq<ExperienceProposal>) {
    && |ps| <= 3 && (forall p | p in ps :: ExperienceFits(c, p))
    && (forall i, h | 0 <= i < h < |ps| :: ps[i].key != ps[h].key)
    && NoneShared(ps)
  }

  predicate NoneShared(ps: seq<ExperienceProposal>) {
    forall i, h | 0 <= i < h < |ps| :: Disjoint(ps[i].sources, ps[h].sources)
  }

  predicate Disjoint(a: seq<nat>, b: seq<nat>) { forall s | s in a :: s !in b }

  lemma ExperienceExactly(c: Context, p: ExperienceProposal)
    ensures ExperienceOk(c, p) <==> ExperienceFits(c, p)
  {
    if p.subject != "" && p.subject in c.instances && p.kind != UnknownKind && TakesSubject(p.kind) {
      assert forall s | s in p.sources :: SourceOk(c, p, s) <==> SourceFits(c, p, s);
    } else if p.subject == "" && !TakesSubject(p.kind) {
      assert forall s | s in p.sources :: SourceOk(c, p, s) <==> SourceFits(c, p, s);
    }
  }

  lemma {:induction false} SourceIsOfOne(ps: seq<ExperienceProposal>, s: nat)
    ensures s in AllSources(ps) <==> exists p :: p in ps && s in p.sources
  {
    if ps != [] {
      var before, p := ps[..|ps| - 1], ps[|ps| - 1];
      SourceIsOfOne(before, s);
      assert forall q :: q in ps <==> q in before || q == p;
    }
  }

  lemma {:induction false} SourcesApart(ps: seq<ExperienceProposal>)
    ensures NoRepeat(AllSources(ps)) <==>
              (forall p | p in ps :: NoRepeat(p.sources)) && NoneShared(ps)
  {
    if ps != [] {
      var before, p := ps[..|ps| - 1], ps[|ps| - 1];
      SourcesApart(before);
      NoRepeatJoined(AllSources(before), p.sources);
      hide NoRepeat, Disjoint;
      assert forall q :: q in ps <==> q in before || q == p;
      hide NoneShared;
      LastIsApart(ps);
      NoneSharedMore(ps);
    }
  }

  lemma NoneSharedMore(ps: seq<ExperienceProposal>)
    requires ps != []
    ensures var before, p := ps[..|ps| - 1], ps[|ps| - 1];
            NoneShared(ps) <==>
              NoneShared(before) && forall i | 0 <= i < |before| :: Disjoint(before[i].sources, p.sources)
  {
    hide Disjoint;
    var before := ps[..|ps| - 1];
    assert forall i | 0 <= i < |before| :: before[i] == ps[i];
  }

  lemma LastIsApart(ps: seq<ExperienceProposal>)
    requires ps != []
    ensures var before, p := ps[..|ps| - 1], ps[|ps| - 1];
            (forall s | s in p.sources :: s !in AllSources(before)) <==>
              forall i | 0 <= i < |before| :: Disjoint(before[i].sources, p.sources)
  {
    hide AllSources;
    var before, p := ps[..|ps| - 1], ps[|ps| - 1];
    forall s
      ensures s in AllSources(before) <==> exists i | 0 <= i < |before| :: s in before[i].sources
    {
      SourceIsOfOne(before, s);
    }
  }

  lemma ExperiencesExactly(c: Context, ps: seq<ExperienceProposal>)
    ensures |ps| <= MAX_EXPERIENCES && ExperiencesOk(c, ps) <==> ExperiencesFit(c, ps)
  {
    SourcesApart(ps);
    forall p
      ensures ExperienceOk(c, p) <==> ExperienceFits(c, p)
      ensures ExperienceOk(c, p) ==> NoRepeat(p.sources)
    {
      ExperienceExactly(c, p);
    }
    hide ExperienceOk, ExperienceFits, AllSources, NoneShared;
    assert forall i | 0 <= i < |ps| :: Keys(ps)[i] == ps[i].key;
    assert NoRepeat(Keys(ps)) <==> forall i, h | 0 <= i < h < |ps| :: ps[i].key != ps[h].key;
  }

  // ----- Evidence -----

  /** The key is of a proposed experience that, where somebody is meant, is about them: its
      subject, if it has one, and every event it cites. */
  predicate Backed(c: Context, ps: seq<ExperienceProposal>, key: string, about: Option<Id>) {
    exists p | p in ps :: p.key == key && (about.Some? ==> AllAbout(c, p, about.value))
  }

  predicate AllAbout(c: Context, p: ExperienceProposal, id: Id) {
    && (p.subject != "" ==> p.subject in c.instances && c.instances[p.subject] == id)
    && forall s | s in p.sources :: s in c.events && (c.events[s].sender == Some(id) || c.events[s].peer == Some(id))
  }

  predicate EvidenceFits(c: Context, ps: seq<ExperienceProposal>, keys: seq<string>, about: Option<Id>) {
    && |keys| > 0 && (forall i, h | 0 <= i < h < |keys| :: keys[i] != keys[h])
    && forall k | k in keys :: Backed(c, ps, k, about)
  }

  /** Two of the events cited under those keys are on different occasions. */
  ghost predicate TwoOccasions(c: Context, ps: seq<ExperienceProposal>, keys: seq<string>) {
    exists s, u | CitedUnder(ps, keys, s) && CitedUnder(ps, keys, u) ::
      s in c.events && u in c.events && Apart(c.stream, c.events[s], c.events[u])
  }

  predicate CitedUnder(ps: seq<ExperienceProposal>, keys: seq<string>, s: nat) {
    exists p | p in ps :: p.key in keys && s in p.sources
  }

  /** The map holds each proposed experience under its key, and nothing else. */
  predicate Keyed(c: Context, ps: seq<ExperienceProposal>, xs: map<string, Experience>)
    requires forall p | p in ps :: ExperienceOk(c, p)
  {
    && (forall k | k in xs :: exists p | p in ps :: p.key == k)
    && forall p | p in ps :: p.key in xs && xs[p.key] == Validated(c, p)
  }

  lemma {:induction false} ByKeyIs(c: Context, ps: seq<ExperienceProposal>)
    requires ExperiencesOk(c, ps)
    ensures (forall p | p in ps :: ExperienceOk(c, p)) && Keyed(c, ps, ByKey(AllValidated(c, ps)))
  {
    EachIsOk(c, ps);
    if ps != [] {
      hide ExperiencesOk, ExperienceOk, Keyed, ByKey, AllValidated, Validated;
      AllButLast(c, ps);
      ByKeyIs(c, ps[..|ps| - 1]);
      ByKeyMore(c, ps);
      KeyedMore(c, ps, ByKey(AllValidated(c, ps[..|ps| - 1])));
    } else {
      hide ExperiencesOk, ExperienceOk;
    }
  }

  lemma AllButLast(c: Context, ps: seq<ExperienceProposal>)
    requires ps != [] && ExperiencesOk(c, ps)
    ensures ExperiencesOk(c, ps[..|ps| - 1]) && forall q | q in ps[..|ps| - 1] :: q.key != ps[|ps| - 1].key
  {
    var n := |ps| - 1;
    OneMoreExperience(c, ps, n);
    assert ps[..n + 1] == ps;
    hide ExperiencesOk, ExperienceOk;
    KeyIsNew(ps);
  }

  lemma ByKeyMore(c: Context, ps: seq<ExperienceProposal>)
    requires ps != [] && forall p | p in ps :: ExperienceOk(c, p)
    ensures ByKey(AllValidated(c, ps))
            == ByKey(AllValidated(c, ps[..|ps| - 1]))[ps[|ps| - 1].key := Validated(c, ps[|ps| - 1])]
  {
    var n := |ps| - 1;
    assert ps[n] in ps;
    KeyIsKept(c, ps[n]);
    hide ExperienceOk, Validated;
    assert AllValidated(c, ps)[..n] == AllValidated(c, ps[..n]);
  }

  lemma KeyedMore(c: Context, ps: seq<ExperienceProposal>, xs: map<string, Experience>)
    requires ps != [] && forall p | p in ps :: ExperienceOk(c, p)
    requires Keyed(c, ps[..|ps| - 1], xs) && forall q | q in ps[..|ps| - 1] :: q.key != ps[|ps| - 1].key
    ensures Keyed(c, ps, xs[ps[|ps| - 1].key := Validated(c, ps[|ps| - 1])])
  {
    hide ExperienceOk, Validated;
    assert forall q :: q in ps <==> q in ps[..|ps| - 1] || q == ps[|ps| - 1];
  }

  lemma EachIsOk(c: Context, ps: seq<ExperienceProposal>)
    requires ExperiencesOk(c, ps)
    ensures forall p | p in ps :: ExperienceOk(c, p)
  {
  }

  lemma KeyIsKept(c: Context, p: ExperienceProposal)
    requires ExperienceOk(c, p)
    ensures Validated(c, p).key == p.key
  {
  }

  lemma KeyIsNew(ps: seq<ExperienceProposal>)
    requires ps != [] && ps[|ps| - 1].key !in Keys(ps[..|ps| - 1])
    ensures forall q | q in ps[..|ps| - 1] :: q.key != ps[|ps| - 1].key
  {
    var before := ps[..|ps| - 1];
    forall q | q in before
      ensures q.key != ps[|ps| - 1].key
    {
      var i :| 0 <= i < |before| && before[i] == q;
      assert Keys(before)[i] == q.key;
    }
  }

  lemma EventsOfSources(c: Context, p: ExperienceProposal, e: Event)
    requires ExperienceOk(c, p)
    ensures e in Validated(c, p).sources <==> exists s :: s in p.sources && c.events[s] == e
  {
    var es := Validated(c, p).sources;
    assert forall i | 0 <= i < |p.sources| :: SourceOk(c, p, p.sources[i]);
    assert forall i | 0 <= i < |es| :: es[i] == c.events[p.sources[i]];
    if s :| s in p.sources && c.events[s] == e {
      var i :| 0 <= i < |p.sources| && p.sources[i] == s;
      assert es[i] == e;
    }
  }

  lemma AboutExactly(c: Context, p: ExperienceProposal, id: Id)
    requires ExperienceOk(c, p)
    ensures Matches(Validated(c, p), id) <==> AllAbout(c, p, id)
  {
    var x := Validated(c, p);
    forall e
      ensures e in x.sources <==> exists s :: s in p.sources && c.events[s] == e
    {
      EventsOfSources(c, p, e);
    }
    assert forall s | s in p.sources :: SourceOk(c, p, s) && c.events[s] in x.sources;
  }

  lemma EvidenceExactly(c: Context, ps: seq<ExperienceProposal>, keys: seq<string>, about: Option<Id>)
    requires ExperiencesOk(c, ps)
    ensures keys != [] && KeysOk(ByKey(AllValidated(c, ps)), keys, about) <==> EvidenceFits(c, ps, keys, about)
  {
    ByKeyIs(c, ps);
    EachIsOk(c, ps);
    hide ExperiencesOk, ExperienceOk, Validated, ByKey, AllValidated, Matches, AllAbout;
    var xs := ByKey(AllValidated(c, ps));
    forall k
      ensures k in xs && (about.Some? ==> Matches(xs[k], about.value)) <==> Backed(c, ps, k, about)
    {
      KeyExactly(c, ps, k, about);
    }
  }

  lemma KeyExactly(c: Context, ps: seq<ExperienceProposal>, k: string, about: Option<Id>)
    requires ExperiencesOk(c, ps)
    ensures var xs := ByKey(AllValidated(c, ps));
            k in xs && (about.Some? ==> Matches(xs[k], about.value)) <==> Backed(c, ps, k, about)
  {
    ByKeyIs(c, ps);
    EachIsOk(c, ps);
    hide ExperiencesOk, ExperienceOk, Validated, ByKey, AllValidated, Matches, AllAbout;
    if about.Some? {
      forall p | p in ps
        ensures Matches(Validated(c, p), about.value) <==> AllAbout(c, p, about.value)
      {
        AboutExactly(c, p, about.value);
      }
    }
  }

  lemma {:induction false} CitedIs(xs: map<string, Experience>, keys: seq<string>, e: Event)
    requires forall k | k in keys :: k in xs
    ensures e in Cited(xs, keys) <==> exists k | k in keys :: e in xs[k].sources
  {
    if keys != [] {
      var n := |keys| - 1;
      CitedIs(xs, keys[..n], e);
      assert forall k :: k in keys <==> k in keys[..n] || k == keys[n];
    }
  }

  ghost predicate CitedEvent(c: Context, ps: seq<ExperienceProposal>, keys: seq<string>, e: Event) {
    exists s | CitedUnder(ps, keys, s) :: s in c.events && c.events[s] == e
  }

  lemma CitedExactly(c: Context, ps: seq<ExperienceProposal>, keys: seq<string>, e: Event)
    requires ExperiencesOk(c, ps) && EvidenceFits(c, ps, keys, None)
    ensures KeysOk(ByKey(AllValidated(c, ps)), keys, None)
    ensures e in Cited(ByKey(AllValidated(c, ps)), keys) <==> CitedEvent(c, ps, keys, e)
  {
    EvidenceExactly(c, ps, keys, None);
    ByKeyIs(c, ps);
    EachIsOk(c, ps);
    var xs := ByKey(AllValidated(c, ps));
    CitedIs(xs, keys, e);
    SourcesKnown(c, ps);
    hide ExperiencesOk, ExperienceOk, Validated, ByKey, AllValidated, Matches, AllAbout, Cited;
    if k :| k in keys && e in xs[k].sources {
      var p :| p in ps && p.key == k;
      EventsOfSources(c, p, e);
      var s :| s in p.sources && c.events[s] == e;
      assert CitedUnder(ps, keys, s);
    }
    if s :| CitedUnder(ps, keys, s) && s in c.events && c.events[s] == e {
      var p :| p in ps && p.key in keys && s in p.sources;
      EventsOfSources(c, p, e);
      assert e in xs[p.key].sources;
    }
  }

  lemma SourcesKnown(c: Context, ps: seq<ExperienceProposal>)
    requires ExperiencesOk(c, ps)
    ensures forall p, s | p in ps && s in p.sources :: s in c.events
  {
    forall p, s | p in ps && s in p.sources
      ensures s in c.events
    {
      assert ExperienceOk(c, p) && SourceOk(c, p, s);
    }
  }

  lemma OccasionsExactly(c: Context, ps: seq<ExperienceProposal>, keys: seq<string>)
    requires ExperiencesOk(c, ps) && EvidenceFits(c, ps, keys, None)
    ensures KeysOk(ByKey(AllValidated(c, ps)), keys, None)
    ensures Spans(c.stream, Cited(ByKey(AllValidated(c, ps)), keys)) <==> TwoOccasions(c, ps, keys)
  {
    hide ExperiencesOk, EvidenceFits, ByKey, AllValidated, Cited, Apart, CitedUnder, KeysOk;
    EvidenceExactly(c, ps, keys, None);
    EachIsOk(c, ps);
    assert KeysOk(ByKey(AllValidated(c, ps)), keys, None) by { CitedExactly(c, ps, keys, Event(0, 0, None, None)); }
    KnownKeys(ByKey(AllValidated(c, ps)), keys, None);
    forall e
      ensures e in Cited(ByKey(AllValidated(c, ps)), keys) <==> CitedEvent(c, ps, keys, e)
    {
      CitedExactly(c, ps, keys, e);
    }
  }

  // ----- Amendments -----

  /** A global amendment is about nobody and rests on more than one occasion; one of a
      relationship rests on what is about the counterpart. */
  ghost predicate AmendmentFits(c: Context, ps: seq<ExperienceProposal>, a: AmendmentProposal) {
    && c.rules.confidence(a.confidence) && c.rules.text(a.tendency)
    && (a.supersedes == "" || a.supersedes in c.amendments)
    && match a.scope
       case GlobalScope =>
         a.counterpart == "" && EvidenceFits(c, ps, a.evidence, None) && TwoOccasions(c, ps, a.evidence)
       case RelationshipScope =>
         && a.counterpart != "" && a.counterpart in c.instances
         && EvidenceFits(c, ps, a.evidence, Some(c.instances[a.counterpart]))
       case UnknownScope => false
  }

  /** They are about different ones, and do not supersede the same amendment. */
  predicate Compatible(c: Context, a: AmendmentProposal, b: AmendmentProposal) {
    && !(a.scope == GlobalScope && b.scope == GlobalScope)
    && !(a.scope == RelationshipScope && b.scope == RelationshipScope && a.counterpart in c.instances
         && b.counterpart in c.instances && c.instances[a.counterpart] == c.instances[b.counterpart])
    && !(a.supersedes != "" && b.supersedes != "" && a.supersedes in c.amendments && b.supersedes in c.amendments
         && c.amendments[a.supersedes] == c.amendments[b.supersedes])
  }

  ghost predicate AmendmentsFit(c: Context, ps: seq<ExperienceProposal>, ams: seq<AmendmentProposal>) {
    && |ams| <= 4 && (forall a | a in ams :: AmendmentFits(c, ps, a))
    && forall i, h | 0 <= i < h < |ams| :: Compatible(c, ams[i], ams[h])
  }

  lemma AmendmentExactly(c: Context, ps: seq<ExperienceProposal>, a: AmendmentProposal)
    requires ExperiencesOk(c, ps)
    ensures AmendmentOk(c, ByKey(AllValidated(c, ps)), a) <==> AmendmentFits(c, ps, a)
  {
    hide ExperiencesOk, EvidenceFits, ByKey, AllValidated, Cited, Spans, KeysOk, TwoOccasions;
    if ScopeOk(c, a) {
      EvidenceExactly(c, ps, a.evidence, CounterpartOf(c, a));
      if a.scope == GlobalScope && EvidenceFits(c, ps, a.evidence, None) {
        OccasionsExactly(c, ps, a.evidence);
      }
    }
  }

  lemma CounterpartsApart(c: Context, ams: seq<AmendmentProposal>)
    requires Resolvable(c, ams)
    ensures NoRepeat(Counterparts(AllDrafted(c, ams))) <==>
              forall i, h | 0 <= i < h < |ams| :: CounterpartOf(c, ams[i]) != CounterpartOf(c, ams[h])
  {
    var cs := Counterparts(AllDrafted(c, ams));
    assert forall i | 0 <= i < |ams| :: cs[i] == CounterpartOf(c, ams[i]);
  }

  lemma {:induction false} SupersededIs(c: Context, ams: seq<AmendmentProposal>, id: AmendmentId)
    requires Resolvable(c, ams)
    ensures id in SupersededBy(AllDrafted(c, ams)) <==> exists a | a in ams :: Superseded(c, a) == Some(id)
  {
    if ams != [] {
      var n := |ams| - 1;
      SupersededIs(c, ams[..n], id);
      assert AllDrafted(c, ams)[..n] == AllDrafted(c, ams[..n]);
      assert forall a :: a in ams <==> a in ams[..n] || a == ams[n];
    }
  }

  predicate SupersedeApart(c: Context, a: AmendmentProposal, b: AmendmentProposal)
    requires SupersedesOk(c, a) && SupersedesOk(c, b)
  {
    Superseded(c, a).Some? ==> Superseded(c, a) != Superseded(c, b)
  }

  lemma {:induction false} SupersededApart(c: Context, ams: seq<AmendmentProposal>)
    requires Resolvable(c, ams)
    ensures NoRepeat(SupersededBy(AllDrafted(c, ams))) <==> AllSupersedeApart(c, ams)
  {
    if ams != [] {
      var n := |ams| - 1;
      SupersededApart(c, ams[..n]);
      var ds, d := AllDrafted(c, ams[..n]), Drafted(c, ams[n]);
      assert AllDrafted(c, ams) == ds + [d];
      DraftsGrow(ds, d);
      if d.supersedes.Some? {
        SupersededIs(c, ams[..n], d.supersedes.value);
      }
      hide NoRepeat, SupersededBy, AllDrafted, AllSupersedeApart, SupersedeApart, Superseded, SupersedesOk, ScopeOk;
      SupersedeApartMore(c, ams);
      LastSupersedes(c, ams);
    }
  }

  predicate AllSupersedeApart(c: Context, ams: seq<AmendmentProposal>)
    requires Resolvable(c, ams)
  {
    forall i, h | 0 <= i < h < |ams| :: SupersedeApart(c, ams[i], ams[h])
  }

  lemma SupersedeApartMore(c: Context, ams: seq<AmendmentProposal>)
    requires ams != [] && Resolvable(c, ams)
    ensures var before, a := ams[..|ams| - 1], ams[|ams| - 1];
            AllSupersedeApart(c, ams) <==>
              AllSupersedeApart(c, before) && forall b | b in before :: SupersedeApart(c, b, a)
  {
    hide SupersedeApart, SupersedesOk, ScopeOk;
    var before := ams[..|ams| - 1];
    assert forall i | 0 <= i < |before| :: before[i] == ams[i] && before[i] in before;
  }

  lemma LastSupersedes(c: Context, ams: seq<AmendmentProposal>)
    requires ams != [] && Resolvable(c, ams)
    ensures var before, a := ams[..|ams| - 1], ams[|ams| - 1];
            (forall b | b in before :: SupersedeApart(c, b, a)) <==>
              (Superseded(c, a).Some? ==> !exists b | b in before :: Superseded(c, b) == Superseded(c, a))
  {
    hide SupersedesOk, ScopeOk, Superseded;
  }

  lemma AmendmentsExactly(c: Context, ps: seq<ExperienceProposal>, ams: seq<AmendmentProposal>)
    requires ExperiencesOk(c, ps)
    ensures |ams| <= MAX_AMENDMENTS && AmendmentsOk(c, ByKey(AllValidated(c, ps)), ams) <==> AmendmentsFit(c, ps, ams)
  {
    EachIsOk(c, ps);
    var xs := ByKey(AllValidated(c, ps));
    forall a
      ensures AmendmentOk(c, xs, a) <==> AmendmentFits(c, ps, a)
      ensures AmendmentOk(c, xs, a) ==> ScopeOk(c, a) && SupersedesOk(c, a)
    {
      AmendmentExactly(c, ps, a);
    }
    hide ByKey, AllValidated, AmendmentOk, AmendmentFits, NoRepeat, Counterparts, SupersededBy, AllDrafted,
         ExperiencesOk;
    if forall a | a in ams :: AmendmentOk(c, xs, a) {
      assert Resolvable(c, ams);
      CounterpartsApart(c, ams);
      SupersededApart(c, ams);
      forall i, h | 0 <= i < h < |ams|
        ensures Compatible(c, ams[i], ams[h]) <==>
                  CounterpartOf(c, ams[i]) != CounterpartOf(c, ams[h]) && SupersedeApart(c, ams[i], ams[h])
      {
        CompatibleIs(c, ams[i], ams[h]);
      }
    }
  }

  lemma CompatibleIs(c: Context, a: AmendmentProposal, b: AmendmentProposal)
    requires ScopeOk(c, a) && SupersedesOk(c, a) && ScopeOk(c, b) && SupersedesOk(c, b)
    ensures Compatible(c, a, b) <==> CounterpartOf(c, a) != CounterpartOf(c, b) && SupersedeApart(c, a, b)
  {
  }

  // ----- The description -----

  ghost predicate DescriptionFits(c: Context, ps: seq<ExperienceProposal>, d: PersonaProposal) {
    if c.rules.blank(d.description) then |d.consolidates| == 0
    else
      && c.rules.text(d.description) && !c.rules.namesContext(d.description)
      && EvidenceFits(c, ps, d.evidence, None) && TwoOccasions(c, ps, d.evidence)
      && AllDifferent(c, d.consolidates)
  }

  /** Tokens of active amendments, no two of the same. */
  predicate AllDifferent(c: Context, tokens: seq<string>) {
    && (forall t | t in tokens :: t in c.amendments)
    && forall i, h | 0 <= i < h < |tokens| && tokens[i] in c.amendments && tokens[h] in c.amendments ::
         c.amendments[tokens[i]] != c.amendments[tokens[h]]
  }

  lemma TokensExactly(c: Context, tokens: seq<string>)
    ensures AllKnown(c.amendments, tokens) && NoRepeat(Resolved(c.amendments, tokens)) <==> AllDifferent(c, tokens)
  {
    if AllKnown(c.amendments, tokens) {
      var r := Resolved(c.amendments, tokens);
      assert forall i | 0 <= i < |tokens| :: r[i] == c.amendments[tokens[i]] && tokens[i] in c.amendments;
    }
  }

  lemma DescriptionExactly(c: Context, ps: seq<ExperienceProposal>, d: PersonaProposal)
    requires ExperiencesOk(c, ps)
    ensures PersonaOk(c, ByKey(AllValidated(c, ps)), d) <==> DescriptionFits(c, ps, d)
  {
    hide ExperiencesOk, EvidenceFits, ByKey, AllValidated, Cited, Spans, KeysOk, TwoOccasions, AllDifferent, AllKnown,
         NoRepeat, Resolved;
    EvidenceExactly(c, ps, d.evidence, None);
    TokensExactly(c, d.consolidates);
    if EvidenceFits(c, ps, d.evidence, None) {
      OccasionsExactly(c, ps, d.evidence);
    }
  }

  // ----- What is removed -----

  /** The amendment is retracted, absorbed by the description or superseded. */
  predicate Retracts(c: Context, p: Proposal, id: AmendmentId) {
    exists t | t in p.retract :: t in c.amendments && c.amendments[t] == id
  }

  predicate Absorbs(c: Context, p: Proposal, id: AmendmentId) {
    exists t | t in p.persona.consolidates :: t in c.amendments && c.amendments[t] == id
  }

  predicate Supersedes(c: Context, p: Proposal, id: AmendmentId) {
    exists a | a in p.amendments ::
      a.supersedes != "" && a.supersedes in c.amendments && c.amendments[a.supersedes] == id
  }

  ghost predicate RemovedOnce(c: Context, p: Proposal) {
    && AllDifferent(c, p.retract)
    && (forall id | Retracts(c, p, id) :: !Absorbs(c, p, id) && !Supersedes(c, p, id))
    && forall id | Absorbs(c, p, id) :: !Supersedes(c, p, id)
  }

  function Superseding(ams: seq<AmendmentProposal>): set<int> {
    set i | 0 <= i < |ams| && ams[i].supersedes != ""
  }

  lemma {:induction false} SupersedingCount(c: Context, ams: seq<AmendmentProposal>)
    requires Resolvable(c, ams)
    ensures |SupersededBy(AllDrafted(c, ams))| == |Superseding(ams)|
  {
    if ams != [] {
      var n := |ams| - 1;
      SupersedingCount(c, ams[..n]);
      assert AllDrafted(c, ams)[..n] == AllDrafted(c, ams[..n]);
      assert Superseding(ams) == Superseding(ams[..n]) + if ams[n].supersedes != "" then {n} else {};
    }
  }

  /** A proposal fits the request: its parts do, no amendment is removed twice, and at most twelve stay. */
  ghost predicate ProposalFits(c: Context, p: Proposal) {
    && ExperiencesFit(c, p.experiences) && AmendmentsFit(c, p.experiences, p.amendments)
    && DescriptionFits(c, p.experiences, p.persona) && RemovedOnce(c, p)
    && |c.active| - |p.retract| - |p.persona.consolidates| - |Superseding(p.amendments)| + |p.amendments| <= 12
  }

  lemma ResolvedIs(c: Context, tokens: seq<string>, id: AmendmentId)
    requires AllKnown(c.amendments, tokens)
    ensures id in Resolved(c.amendments, tokens) <==> exists t | t in tokens :: c.amendments[t] == id
  {
    var r := Resolved(c.amendments, tokens);
    assert forall i | 0 <= i < |tokens| :: r[i] == c.amendments[tokens[i]];
    if t :| t in tokens && c.amendments[t] == id {
      var i :| 0 <= i < |tokens| && tokens[i] == t;
      assert r[i] == id;
    }
  }

  lemma SupersedesIs(c: Context, p: Proposal, id: AmendmentId)
    requires Resolvable(c, p.amendments)
    ensures id in SupersededBy(AllDrafted(c, p.amendments)) <==> Supersedes(c, p, id)
  {
    hide SupersededBy, AllDrafted;
    SupersededIs(c, p.amendments, id);
    assert forall a | a in p.amendments :: SupersedesOk(c, a);
  }

  lemma RemovedExactly(c: Context, p: Proposal)
    requires AllKnown(c.amendments, p.retract) && AllKnown(c.amendments, p.persona.consolidates)
             && Resolvable(c, p.amendments)
    requires NoRepeat(Resolved(c.amendments, p.persona.consolidates))
             && NoRepeat(SupersededBy(AllDrafted(c, p.amendments)))
    ensures RemovedOnce(c, p) <==> NoRepeat(Resolved(c.amendments, p.retract)
                                            + Resolved(c.amendments, p.persona.consolidates)
                                            + SupersededBy(AllDrafted(c, p.amendments)))
  {
    var r, n, s := Resolved(c.amendments, p.retract), Resolved(c.amendments, p.persona.consolidates),
                   SupersededBy(AllDrafted(c, p.amendments));
    TokensExactly(c, p.retract);
    NoRepeatJoined(r, n);
    NoRepeatJoined(r + n, s);
    hide NoRepeat, AllDifferent, Resolved, SupersededBy, AllDrafted, Resolvable;
    forall id
      ensures (id in r <==> Retracts(c, p, id)) && (id in n <==> Absorbs(c, p, id))
      ensures id in s <==> Supersedes(c, p, id)
    {
      ResolvedIs(c, p.retract, id);
      ResolvedIs(c, p.persona.consolidates, id);
      SupersedesIs(c, p, id);
    }
    hide Retracts, Absorbs, Supersedes;
  }

  // ----- The whole -----

  lemma RemovalAndCount(c: Context, p: Proposal)
    requires ExperiencesOk(c, p.experiences)
    requires AmendmentsOk(c, ByKey(AllValidated(c, p.experiences)), p.amendments)
    requires PersonaOk(c, ByKey(AllValidated(c, p.experiences)), p.persona)
    ensures Acceptable(c, p) <==>
              && |p.experiences| <= MAX_EXPERIENCES && |p.amendments| <= MAX_AMENDMENTS && RemovedOnce(c, p)
              && |c.active| - |p.retract| - |p.persona.consolidates| - |Superseding(p.amendments)| + |p.amendments|
                 <= 12
  {
    var xs := ByKey(AllValidated(c, p.experiences));
    AmendmentsResolvable(c, xs, p.amendments);
    Absorbed(c, xs, p.persona);
    SupersedesOnce(c, xs, p.amendments);
    SupersedingCount(c, p.amendments);
    TokensExactly(c, p.retract);
    hide ExperiencesOk, AmendmentsOk, PersonaOk, ByKey, NoRepeat, SupersededBy, Superseding, AllDrafted, Resolvable,
         AllDifferent;
    if AllKnown(c.amendments, p.retract) {
      RemovedExactly(c, p);
      hide RemovedOnce;
      EachIsOk(c, p.experiences);
      assert DescribedBy(c, p.persona).consolidate == Resolved(c.amendments, p.persona.consolidates);
    }
  }

  lemma Absorbed(c: Context, xs: map<string, Experience>, d: PersonaProposal)
    requires PersonaOk(c, xs, d)
    ensures AllKnown(c.amendments, d.consolidates) && NoRepeat(Resolved(c.amendments, d.consolidates))
    ensures DescribedBy(c, d).consolidate == Resolved(c.amendments, d.consolidates)
  {
  }

  lemma SupersedesOnce(c: Context, xs: map<string, Experience>, ams: seq<AmendmentProposal>)
    requires AmendmentsOk(c, xs, ams)
    ensures Resolvable(c, ams) && NoRepeat(SupersededBy(AllDrafted(c, ams)))
  {
  }

  /** A proposal is accepted exactly when it fits. */
  lemma AcceptedExactlyWhenItFits(c: Context, p: Proposal)
    ensures Acceptable(c, p) <==> ProposalFits(c, p)
  {
    hide *;
    AcceptableParts(c, p);
    FittingParts(c, p);
    ExperiencesExactly(c, p.experiences);
    if ExperiencesOk(c, p.experiences) {
      AmendmentsExactly(c, p.experiences, p.amendments);
      DescriptionExactly(c, p.experiences, p.persona);
      var xs := ByKey(AllValidated(c, p.experiences)) by { EachIsOk(c, p.experiences); }
      if AmendmentsOk(c, xs, p.amendments) && PersonaOk(c, xs, p.persona) {
        RemovalAndCount(c, p);
      }
    }
  }

  lemma AcceptableParts(c: Context, p: Proposal)
    ensures Acceptable(c, p) ==>
              && |p.experiences| <= MAX_EXPERIENCES && |p.amendments| <= MAX_AMENDMENTS
              && ExperiencesOk(c, p.experiences)
              && AmendmentsOk(c, ByKey(AllValidated(c, p.experiences)), p.amendments)
              && PersonaOk(c, ByKey(AllValidated(c, p.experiences)), p.persona)
  {
  }

  lemma FittingParts(c: Context, p: Proposal)
    ensures ProposalFits(c, p) <==>
              && ExperiencesFit(c, p.experiences) && AmendmentsFit(c, p.experiences, p.amendments)
              && DescriptionFits(c, p.experiences, p.persona) && RemovedOnce(c, p)
              && |c.active| - |p.retract| - |p.persona.consolidates| - |Superseding(p.amendments)| + |p.amendments|
                 <= 12
  {
  }

  // ----- What is accepted -----

  /** Experience by experience and amendment by amendment, with each token replaced by what it stands for. */
  predicate TakenOver(c: Context, p: Proposal, a: Acceptance) {
    && |a.experiences| == |p.experiences| && |a.amendments| == |p.amendments|
    && (forall i | 0 <= i < |p.experiences| :: ExperienceTaken(c, p.experiences[i], a.experiences[i]))
    && (forall i | 0 <= i < |p.amendments| :: AmendmentTaken(c, p.amendments[i], a.amendments[i]))
    && TokensTaken(c, p.retract, a.retract) && TokensTaken(c, p.persona.consolidates, a.persona.consolidate)
    && (if c.rules.blank(p.persona.description) then a.persona.description == None && a.persona.evidence == []
        else a.persona.description == Some(p.persona.description) && a.persona.evidence == p.persona.evidence)
  }

  predicate ExperienceTaken(c: Context, p: ExperienceProposal, x: Experience) {
    && x.key == p.key && x.kind == p.kind && |x.sources| == |p.sources|
    && (if p.subject == "" then x.subject == None else Stands(c.instances, p.subject, x.subject))
    && forall j | 0 <= j < |p.sources| :: p.sources[j] in c.events && x.sources[j] == c.events[p.sources[j]]
  }

  predicate AmendmentTaken(c: Context, p: AmendmentProposal, d: Draft) {
    && d.scope == p.scope && d.evidence == p.evidence
    && (if p.scope == GlobalScope then d.counterpart == None else Stands(c.instances, p.counterpart, d.counterpart))
    && (if p.supersedes == "" then d.supersedes == None else Stands(c.amendments, p.supersedes, d.supersedes))
  }

  predicate Stands<T(==)>(names: map<string, T>, token: string, x: Option<T>) {
    token in names && x == Some(names[token])
  }

  predicate TokensTaken(c: Context, tokens: seq<string>, ids: seq<AmendmentId>) {
    |ids| == |tokens| && forall j | 0 <= j < |tokens| :: tokens[j] in c.amendments && ids[j] == c.amendments[tokens[j]]
  }

  lemma ExperienceIsTaken(c: Context, p: ExperienceProposal)
    requires ExperienceOk(c, p)
    ensures ExperienceTaken(c, p, Validated(c, p))
  {
    assert forall j | 0 <= j < |p.sources| :: SourceOk(c, p, p.sources[j]);
  }

  lemma AcceptedIsTakenOver(c: Context, p: Proposal)
    requires Acceptable(c, p)
    ensures TakenOver(c, p, Accepted(c, p))
  {
    EachIsOk(c, p.experiences);
    Absorbed(c, ByKey(AllValidated(c, p.experiences)), p.persona);
    hide ExperienceOk, ExperiencesOk, Validated, ByKey, PersonaOk, AmendmentsOk, NoRepeat, ExperienceTaken;
    forall i | 0 <= i < |p.experiences|
      ensures ExperienceTaken(c, p.experiences[i], Validated(c, p.experiences[i]))
    {
      assert p.experiences[i] in p.experiences;
      ExperienceIsTaken(c, p.experiences[i]);
    }
    forall i | 0 <= i < |p.amendments|
      ensures AmendmentTaken(c, p.amendments[i], Accepted(c, p).amendments[i])
    {
      assert p.amendments[i] in p.amendments;
    }
  }
}
