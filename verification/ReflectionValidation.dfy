/** What a reflection's proposal must satisfy before it may change an instance's persona. */
module ReflectionValidation {
  import opened Options
  import opened Episodes
  import ReflectionAliases

  type AmendmentId = ReflectionAliases.AmendmentId

  const MAX_EXPERIENCES := 3
  const MAX_AMENDMENTS := 4
  const MAX_ACTIVE := 12

  datatype Kind = Observation | Interpretation | Assertion | Relationship | UnknownKind
  datatype Scope = GlobalScope | RelationshipScope | UnknownScope

  datatype ExperienceProposal = ExperienceProposal(
    key: string, kind: Kind, confidence: string, summary: string, subject: string, sources: seq<nat>)
  datatype AmendmentProposal = AmendmentProposal(
    scope: Scope, counterpart: string, tendency: string, confidence: string, evidence: seq<string>, supersedes: string)
  datatype PersonaProposal = PersonaProposal(description: string, evidence: seq<string>, consolidates: seq<string>)
  datatype Proposal = Proposal(
    experiences: seq<ExperienceProposal>, amendments: seq<AmendmentProposal>, retract: seq<string>,
    persona: PersonaProposal)

  /** The checks on single texts, which say nothing about the rest of a proposal. */
  datatype Rules = Rules(
    key: string -> bool, confidence: string -> bool, text: string -> bool, blank: string -> bool,
    namesContext: string -> bool)

  /** What a proposal is read against: the tokens of the request, the events it listed and the active amendments. */
  datatype Context = Context(
    rules: Rules, instances: map<string, Id>, amendments: map<string, AmendmentId>, stream: seq<Event>,
    events: map<nat, Event>, active: seq<AmendmentId>)

  datatype Experience = Experience(key: string, kind: Kind, subject: Option<Id>, sources: seq<Event>)
  datatype Draft = Draft(scope: Scope, counterpart: Option<Id>, evidence: seq<string>, supersedes: Option<AmendmentId>)
  datatype Persona = Persona(description: Option<string>, evidence: seq<string>, consolidate: seq<AmendmentId>)
  datatype Acceptance = Acceptance(
    experiences: seq<Experience>, amendments: seq<Draft>, retract: seq<AmendmentId>, persona: Persona)

  datatype Reason =
    | TooManyItems | InvalidKey | DuplicateKey | InvalidKind | InvalidConfidence | InvalidText | UnknownSource
    | DuplicateSource | InvalidSubject | InvalidScope | UnknownEvidence | InsufficientEvidence | UnknownAmendment
    | DuplicateRetraction | StateLimit | NamedContext | NoDescription

  datatype Result<T> = Ok(value: T) | Refused(reason: Reason)

  predicate NoRepeat<T(==)>(s: seq<T>) { forall i, j | 0 <= i < j < |s| :: s[i] != s[j] }

  lemma NoRepeatMore<T>(s: seq<T>, x: T)
    ensures NoRepeat(s + [x]) <==> NoRepeat(s) && x !in s
  {
    var m := s + [x];
    if NoRepeat(m) {
      assert forall i | 0 <= i < |s| :: m[i] == s[i] && m[i] != m[|s|];
    }
  }

  lemma NoRepeatPrefix<T>(s: seq<T>, n: nat)
    requires n <= |s| && NoRepeat(s)
    ensures NoRepeat(s[..n])
  {
  }

  lemma {:induction false} NoRepeatJoined<T>(s: seq<T>, t: seq<T>)
    ensures NoRepeat(s + t) <==> NoRepeat(s) && NoRepeat(t) && forall x | x in t :: x !in s
  {
    if t == [] {
      assert s + t == s;
    } else {
      var before, x := t[..|t| - 1], t[|t| - 1];
      NoRepeatJoined(s, before);
      NoRepeatMore(s + before, x);
      NoRepeatMore(before, x);
      assert s + t == s + before + [x] && t == before + [x];
    }
  }

  // ----- Tokens -----

  predicate AllKnown(names: map<string, AmendmentId>, tokens: seq<string>) { forall t | t in tokens :: t in names }

  function Resolved(names: map<string, AmendmentId>, tokens: seq<string>): (r: seq<AmendmentId>)
    requires AllKnown(names, tokens)
    ensures |r| == |tokens|
  {
    seq(|tokens|, i requires 0 <= i < |tokens| => names[tokens[i]])
  }

  /** Retracted and consolidated amendments are resolved alike: each known, none named twice. */
  method Resolve(names: map<string, AmendmentId>, tokens: seq<string>) returns (r: Result<seq<AmendmentId>>)
    ensures r.Ok? <==> AllKnown(names, tokens) && NoRepeat(Resolved(names, tokens))
    ensures r.Ok? ==> r.value == Resolved(names, tokens)
  {
    var ids, seen := [], {};
    for i := 0 to |tokens|
      invariant AllKnown(names, tokens[..i]) && ids == Resolved(names, tokens[..i])
      invariant NoRepeat(ids) && forall id :: id in seen <==> id in ids
    {
      if tokens[i] !in names {
        return Refused(UnknownAmendment);
      }
      var id := names[tokens[i]];
      NoRepeatMore(ids, id);
      ResolvedMore(names, tokens, i);
      if id in seen {
        return Refused(DuplicateRetraction);
      }
      seen := seen + {id};
      ids := ids + [id];
    }
    assert tokens[..|tokens|] == tokens;
    return Ok(ids);
  }

  lemma ResolvedMore(names: map<string, AmendmentId>, tokens: seq<string>, i: nat)
    requires i < |tokens| && AllKnown(names, tokens[..i]) && tokens[i] in names
    ensures AllKnown(names, tokens[..i + 1])
    ensures Resolved(names, tokens[..i + 1]) == Resolved(names, tokens[..i]) + [names[tokens[i]]]
    ensures AllKnown(names, tokens) && NoRepeat(Resolved(names, tokens)) ==> NoRepeat(Resolved(names, tokens[..i + 1]))
  {
    assert tokens[..i + 1] == tokens[..i] + [tokens[i]];
    if AllKnown(names, tokens) && NoRepeat(Resolved(names, tokens)) {
      NoRepeatPrefix(Resolved(names, tokens), i + 1);
      assert Resolved(names, tokens)[..i + 1] == Resolved(names, tokens[..i + 1]);
    }
  }

  // ----- Experiences -----

  predicate Involves(e: Event, id: Id) { e.sender == Some(id) || e.peer == Some(id) }

  predicate TakesSubject(k: Kind) { k == Relationship || k == Assertion }

  predicate About(e: Event, k: Kind, id: Id) { Involves(e, id) && (k == Assertion ==> e.sender == Some(id)) }

  /** A cited event is one the request listed, and about the subject; what someone asserted, they sent. */
  predicate SourceOk(c: Context, p: ExperienceProposal, s: nat) {
    && s in c.events
    && (p.subject in c.instances && p.subject != "" ==> About(c.events[s], p.kind, c.instances[p.subject]))
  }

  predicate ExperienceOk(c: Context, p: ExperienceProposal) {
    && c.rules.key(p.key) && p.kind != UnknownKind && c.rules.confidence(p.confidence) && c.rules.text(p.summary)
    && p.sources != [] && (p.subject != "" ==> p.subject in c.instances)
    && (TakesSubject(p.kind) <==> p.subject != "")
    && (forall s | s in p.sources :: SourceOk(c, p, s)) && NoRepeat(p.sources)
  }

  function EventsAt(c: Context, sources: seq<nat>): seq<Event>
    requires forall s | s in sources :: s in c.events
  {
    seq(|sources|, i requires 0 <= i < |sources| => c.events[sources[i]])
  }

  function Validated(c: Context, p: ExperienceProposal): Experience
    requires ExperienceOk(c, p)
  {
    Experience(p.key, p.kind, if p.subject == "" then None else Some(c.instances[p.subject]), EventsAt(c, p.sources))
  }

  /** Also gives the events used once this experience has taken its own. */
  method ValidateExperience(c: Context, p: ExperienceProposal, used: set<nat>)
    returns (r: Result<Experience>, now: set<nat>)
    ensures r.Ok? <==> ExperienceOk(c, p) && forall s | s in p.sources :: s !in used
    ensures r.Ok? ==> r.value == Validated(c, p) && now == used + set s | s in p.sources
  {
    now := used;
    if !c.rules.key(p.key) {
      return Refused(InvalidKey), now;
    }
    if p.kind == UnknownKind {
      return Refused(InvalidKind), now;
    }
    if !c.rules.confidence(p.confidence) {
      return Refused(InvalidConfidence), now;
    }
    if !c.rules.text(p.summary) {
      return Refused(InvalidText), now;
    }
    if p.sources == [] {
      return Refused(InsufficientEvidence), now;
    }
    if (p.subject != "" && p.subject !in c.instances) || (TakesSubject(p.kind) <==> p.subject == "") {
      return Refused(InvalidSubject), now;
    }
    var cited;
    cited, now := TakeSources(c, p, used);
    if cited.Refused? {
      return Refused(cited.reason), now;
    }
    r := Ok(Experience(p.key, p.kind, if p.subject == "" then None else Some(c.instances[p.subject]), cited.value));
  }

  method TakeSources(c: Context, p: ExperienceProposal, used: set<nat>) returns (r: Result<seq<Event>>, now: set<nat>)
    requires p.subject != "" ==> p.subject in c.instances
    requires TakesSubject(p.kind) <==> p.subject != ""
    ensures r.Ok? <==> (forall s | s in p.sources :: SourceOk(c, p, s) && s !in used) && NoRepeat(p.sources)
    ensures r.Ok? ==> r.value == EventsAt(c, p.sources) && now == used + set s | s in p.sources
  {
    now := used;
    var cited := [];
    for i := 0 to |p.sources|
      invariant forall s | s in p.sources[..i] :: SourceOk(c, p, s) && s !in used
      invariant NoRepeat(p.sources[..i]) && now == used + set s | s in p.sources[..i]
      invariant cited == EventsAt(c, p.sources[..i])
    {
      var s := p.sources[i];
      assert s in p.sources;
      assert p.sources[..i + 1] == p.sources[..i] + [s];
      NoRepeatMore(p.sources[..i], s);
      if s !in c.events {
        return Refused(UnknownSource), now;
      }
      if s in now {
        Repeated(p.sources, i, used);
        return Refused(DuplicateSource), now;
      }
      var event := c.events[s];
      if p.subject != "" && !Involves(event, c.instances[p.subject]) {
        return Refused(InvalidSubject), now;
      }
      if p.kind == Assertion && event.sender != Some(c.instances[p.subject]) {
        return Refused(InvalidSubject), now;
      }
      now := now + {s};
      cited := cited + [event];
    }
    assert p.sources[..|p.sources|] == p.sources;
    r := Ok(cited);
  }

  lemma Repeated(sources: seq<nat>, i: nat, used: set<nat>)
    requires i < |sources| && (sources[i] in used || sources[i] in sources[..i])
    ensures !((forall s | s in sources :: s !in used) && NoRepeat(sources))
  {
  }

  function Keys(ps: seq<ExperienceProposal>): seq<string> { seq(|ps|, i requires 0 <= i < |ps| => ps[i].key) }

  function AllSources(ps: seq<ExperienceProposal>): seq<nat> {
    if ps == [] then [] else AllSources(ps[..|ps| - 1]) + ps[|ps| - 1].sources
  }

  /** Each experience is sound, no two share a key, and no event is cited twice. */
  predicate ExperiencesOk(c: Context, ps: seq<ExperienceProposal>) {
    (forall p | p in ps :: ExperienceOk(c, p)) && NoRepeat(Keys(ps)) && NoRepeat(AllSources(ps))
  }

  function AllValidated(c: Context, ps: seq<ExperienceProposal>): seq<Experience>
    requires forall p | p in ps :: ExperienceOk(c, p)
  {
    seq(|ps|, i requires 0 <= i < |ps| => Validated(c, ps[i]))
  }

  lemma OneMoreExperience(c: Context, ps: seq<ExperienceProposal>, i: nat)
    requires i < |ps|
    ensures ExperiencesOk(c, ps[..i + 1]) <==>
              ExperiencesOk(c, ps[..i]) && ExperienceOk(c, ps[i]) && ps[i].key !in Keys(ps[..i])
              && forall s | s in ps[i].sources :: s !in AllSources(ps[..i])
    ensures Keys(ps[..i + 1]) == Keys(ps[..i]) + [ps[i].key]
    ensures AllSources(ps[..i + 1]) == AllSources(ps[..i]) + ps[i].sources
  {
    hide ExperienceOk;
    var before, p := ps[..i], ps[i];
    assert ps[..i + 1] == before + [p] && (before + [p])[..i] == before;
    assert Keys(before + [p]) == Keys(before) + [p.key];
    NoRepeatMore(Keys(before), p.key);
    NoRepeatJoined(AllSources(before), p.sources);
    assert forall q :: q in before + [p] <==> q in before || q == p;
    SourcesDistinct(c, p);
  }

  lemma SourcesDistinct(c: Context, p: ExperienceProposal)
    ensures ExperienceOk(c, p) ==> NoRepeat(p.sources)
  {
  }

  lemma {:induction false} ExperiencesPrefix(c: Context, ps: seq<ExperienceProposal>, n: nat)
    requires n <= |ps| && ExperiencesOk(c, ps)
    ensures ExperiencesOk(c, ps[..n])
    decreases |ps| - n
  {
    if n == |ps| {
      assert ps[..n] == ps;
    } else {
      ExperiencesPrefix(c, ps, n + 1);
      OneMoreExperience(c, ps, n);
    }
  }

  method ValidateExperiences(c: Context, ps: seq<ExperienceProposal>) returns (r: Result<seq<Experience>>)
    ensures r.Ok? <==> ExperiencesOk(c, ps)
    ensures r.Ok? ==> r.value == AllValidated(c, ps)
  {
    hide ExperiencesOk, ExperienceOk, AllSources, Keys, Validated;
    NoExperiences(c);
    var list, used, keys := [], {}, {};
    for i := 0 to |ps|
      invariant ExperiencesOk(c, ps[..i])
      invariant forall s :: s in used <==> s in AllSources(ps[..i])
      invariant forall k :: k in keys <==> k in Keys(ps[..i])
      invariant |list| == i && ListValidated(c, ps, list)
    {
      OneMoreExperience(c, ps, i);
      if ExperiencesOk(c, ps) {
        ExperiencesPrefix(c, ps, i + 1);
      }
      var one;
      one, used := ValidateExperience(c, ps[i], used);
      if one.Refused? {
        return Refused(one.reason);
      }
      if ps[i].key in keys {
        return Refused(DuplicateKey);
      }
      keys := keys + {ps[i].key};
      list := list + [one.value];
    }
    assert ps[..|ps|] == ps;
    ListIsAll(c, ps, list);
    r := Ok(list);
  }

  predicate ListValidated(c: Context, ps: seq<ExperienceProposal>, list: seq<Experience>) {
    |list| <= |ps| && forall i | 0 <= i < |list| :: ExperienceOk(c, ps[i]) && list[i] == Validated(c, ps[i])
  }

  lemma ListIsAll(c: Context, ps: seq<ExperienceProposal>, list: seq<Experience>)
    requires ExperiencesOk(c, ps) && ListValidated(c, ps, list) && |list| == |ps|
    ensures (forall p | p in ps :: ExperienceOk(c, p)) && list == AllValidated(c, ps)
  {
  }

  lemma NoExperiences(c: Context)
    ensures ExperiencesOk(c, []) && AllSources([]) == [] && Keys([]) == []
  {
  }

  // ----- Amendments -----

  predicate ScopeOk(c: Context, p: AmendmentProposal) {
    match p.scope
    case GlobalScope => p.counterpart == ""
    case RelationshipScope => p.counterpart != "" && p.counterpart in c.instances
    case UnknownScope => false
  }

  /** Whom an amendment is about; nobody, for a global one. */
  function CounterpartOf(c: Context, p: AmendmentProposal): Option<Id>
    requires ScopeOk(c, p)
  {
    if p.scope == GlobalScope then None else Some(c.instances[p.counterpart])
  }

  predicate SupersedesOk(c: Context, p: AmendmentProposal) { p.supersedes == "" || p.supersedes in c.amendments }

  function Superseded(c: Context, p: AmendmentProposal): Option<AmendmentId>
    requires SupersedesOk(c, p)
  {
    if p.supersedes == "" then None else Some(c.amendments[p.supersedes])
  }

  predicate Matches(x: Experience, id: Id) {
    (x.subject.Some? ==> x.subject.value == id) && forall e | e in x.sources :: Involves(e, id)
  }

  function Cited(experiences: map<string, Experience>, keys: seq<string>): seq<Event>
    requires forall k | k in keys :: k in experiences
  {
    if keys == [] then [] else Cited(experiences, keys[..|keys| - 1]) + experiences[keys[|keys| - 1]].sources
  }

  predicate KeysOk(experiences: map<string, Experience>, keys: seq<string>, about: Option<Id>) {
    && NoRepeat(keys)
    && forall k | k in keys :: k in experiences && (about.Some? ==> Matches(experiences[k], about.value))
  }

  ghost predicate Spans(stream: seq<Event>, cited: seq<Event>) {
    exists a, b | a in cited && b in cited :: Apart(stream, a, b)
  }

  ghost predicate AmendmentOk(c: Context, experiences: map<string, Experience>, p: AmendmentProposal) {
    && c.rules.confidence(p.confidence) && c.rules.text(p.tendency) && p.evidence != []
    && ScopeOk(c, p) && SupersedesOk(c, p) && KeysOk(experiences, p.evidence, CounterpartOf(c, p))
    && (p.scope == GlobalScope ==> Spans(c.stream, Cited(experiences, p.evidence)))
  }

  function Drafted(c: Context, p: AmendmentProposal): Draft
    requires ScopeOk(c, p) && SupersedesOk(c, p)
  {
    Draft(p.scope, CounterpartOf(c, p), p.evidence, Superseded(c, p))
  }

  function Counterparts(ds: seq<Draft>): seq<Option<Id>> { seq(|ds|, i requires 0 <= i < |ds| => ds[i].counterpart) }

  function SupersededBy(ds: seq<Draft>): seq<AmendmentId> {
    if ds == [] then []
    else SupersededBy(ds[..|ds| - 1]) + if ds[|ds| - 1].supersedes.Some? then [ds[|ds| - 1].supersedes.value] else []
  }

  function AllDrafted(c: Context, ps: seq<AmendmentProposal>): seq<Draft>
    requires forall p | p in ps :: ScopeOk(c, p) && SupersedesOk(c, p)
  {
    seq(|ps|, i requires 0 <= i < |ps| => Drafted(c, ps[i]))
  }

  /** Each amendment is sound; at most one is global and at most one about any
      counterpart; and none supersedes what another does. */
  ghost predicate AmendmentsOk(c: Context, experiences: map<string, Experience>, ps: seq<AmendmentProposal>) {
    && (forall p | p in ps :: AmendmentOk(c, experiences, p))
    && NoRepeat(Counterparts(AllDrafted(c, ps))) && NoRepeat(SupersededBy(AllDrafted(c, ps)))
  }

  lemma OneMoreAmendment(c: Context, xs: map<string, Experience>, ps: seq<AmendmentProposal>, i: nat)
    requires i < |ps|
    ensures AmendmentsOk(c, xs, ps[..i + 1]) <==>
              AmendmentsOk(c, xs, ps[..i]) && AmendmentOk(c, xs, ps[i])
              && CounterpartOf(c, ps[i]) !in Counterparts(AllDrafted(c, ps[..i]))
              && (Superseded(c, ps[i]).Some? ==> Superseded(c, ps[i]).value !in SupersededBy(AllDrafted(c, ps[..i])))
    ensures AmendmentsOk(c, xs, ps[..i]) && AmendmentOk(c, xs, ps[i]) ==>
              AllDrafted(c, ps[..i + 1]) == AllDrafted(c, ps[..i]) + [Drafted(c, ps[i])]
  {
    hide Spans, Cited, KeysOk, ScopeOk, SupersedesOk;
    var before, p := ps[..i], ps[i];
    assert ps[..i + 1] == before + [p];
    assert forall q :: q in before + [p] <==> q in before || q == p;
    if (forall q | q in before + [p] :: AmendmentOk(c, xs, q)) {
      var ds, d := AllDrafted(c, before), Drafted(c, p);
      assert AllDrafted(c, before + [p]) == ds + [d];
      DraftsGrow(ds, d);
    }
  }

  lemma DraftsGrow(ds: seq<Draft>, d: Draft)
    ensures NoRepeat(Counterparts(ds + [d])) <==> NoRepeat(Counterparts(ds)) && d.counterpart !in Counterparts(ds)
    ensures NoRepeat(SupersededBy(ds + [d])) <==>
              NoRepeat(SupersededBy(ds)) && (d.supersedes.Some? ==> d.supersedes.value !in SupersededBy(ds))
    ensures SupersededBy(ds + [d]) == SupersededBy(ds) + if d.supersedes.Some? then [d.supersedes.value] else []
  {
    assert (ds + [d])[..|ds|] == ds;
    assert Counterparts(ds + [d]) == Counterparts(ds) + [d.counterpart];
    NoRepeatMore(Counterparts(ds), d.counterpart);
    if d.supersedes.Some? {
      NoRepeatMore(SupersededBy(ds), d.supersedes.value);
    } else {
      assert SupersededBy(ds) + [] == SupersededBy(ds);
    }
  }

  lemma {:induction false} AmendmentsPrefix(c: Context, xs: map<string, Experience>, ps: seq<AmendmentProposal>, n: nat)
    requires n <= |ps| && AmendmentsOk(c, xs, ps)
    ensures AmendmentsOk(c, xs, ps[..n])
    decreases |ps| - n
  {
    if n == |ps| {
      assert ps[..n] == ps;
    } else {
      AmendmentsPrefix(c, xs, ps, n + 1);
      OneMoreAmendment(c, xs, ps, n);
    }
  }

  /** The events an experience cites are events of the stream. */
  ghost predicate Sourced(c: Context, xs: map<string, Experience>) {
    forall k, e | k in xs && e in xs[k].sources :: e in c.stream
  }

  lemma {:induction false} CitedAreSourced(c: Context, xs: map<string, Experience>, keys: seq<string>)
    requires Sourced(c, xs) && forall k | k in keys :: k in xs
    ensures forall e | e in Cited(xs, keys) :: e in c.stream
  {
    if keys != [] {
      CitedAreSourced(c, xs, keys[..|keys| - 1]);
    }
  }

  /** Walks the evidence keys of an amendment or of a description, collecting what they cite. */
  method ValidateEvidence(xs: map<string, Experience>, keys: seq<string>, about: Option<Id>)
    returns (r: Result<seq<Event>>)
    ensures r.Ok? <==> KeysOk(xs, keys, about)
    ensures r.Ok? ==> r.value == Cited(xs, keys)
  {
    var cited, seen := [], {};
    for i := 0 to |keys|
      invariant KeysOk(xs, keys[..i], about) && cited == Cited(xs, keys[..i])
      invariant forall k :: k in seen <==> k in keys[..i]
    {
      var key := keys[i];
      KeysMore(xs, keys, about, i);
      if key in seen {
        return Refused(DuplicateKey);
      }
      seen := seen + {key};
      if key !in xs {
        return Refused(UnknownEvidence);
      }
      if about.Some? && !Matches(xs[key], about.value) {
        return Refused(InvalidSubject);
      }
      cited := cited + xs[key].sources;
    }
    assert keys[..|keys|] == keys;
    r := Ok(cited);
  }

  lemma KeysMore(xs: map<string, Experience>, keys: seq<string>, about: Option<Id>, i: nat)
    requires i < |keys|
    ensures KeysOk(xs, keys[..i + 1], about) <==>
              KeysOk(xs, keys[..i], about) && keys[i] !in keys[..i] && keys[i] in xs
              && (about.Some? ==> Matches(xs[keys[i]], about.value))
    ensures KeysOk(xs, keys, about) ==> KeysOk(xs, keys[..i + 1], about)
    ensures KeysOk(xs, keys[..i + 1], about) ==> Cited(xs, keys[..i + 1]) == Cited(xs, keys[..i]) + xs[keys[i]].sources
    ensures forall k :: k in keys[..i + 1] <==> k in keys[..i] || k == keys[i]
  {
    hide Matches;
    assert keys[..i + 1] == keys[..i] + [keys[i]] && keys[..i + 1][..i] == keys[..i];
    NoRepeatMore(keys[..i], keys[i]);
    if KeysOk(xs, keys, about) {
      NoRepeatPrefix(keys, i + 1);
    }
  }

  /** Remembers, from one amendment to the next, who and what they already were about. */
  class AmendmentValidator {
    var global: bool
    var relationships: set<Id>
    var superseded: set<AmendmentId>

    constructor ()
      ensures !global && relationships == {} && superseded == {}
    {
      global, relationships, superseded := false, {}, {};
    }

    /** The fields hold what the drafts so far were about. */
    ghost predicate Remembers(ds: seq<Draft>)
      reads this
    {
      && (global <==> None in Counterparts(ds))
      && (forall id :: id in relationships <==> Some(id) in Counterparts(ds))
      && (forall id :: id in superseded <==> id in SupersededBy(ds))
    }

    method ValidateScope(c: Context, p: AmendmentProposal, ghost ds: seq<Draft>) returns (r: Result<Option<Id>>)
      requires Remembers(ds)
      modifies this`global, this`relationships
      ensures r.Ok? <==> ScopeOk(c, p) && CounterpartOf(c, p) !in Counterparts(ds)
      ensures r.Ok? ==> r.value == CounterpartOf(c, p)
      ensures r.Ok? ==> global == (old(global) || p.scope == GlobalScope)
      ensures r.Ok? ==> relationships == old(relationships) + (if r.value.Some? then {r.value.value} else {})
    {
      match p.scope
      case GlobalScope =>
        if p.counterpart != "" || global {
          return Refused(InvalidScope);
        }
        global := true;
        return Ok(None);
      case RelationshipScope =>
        if p.counterpart == "" {
          return Refused(InvalidScope);
        }
        if p.counterpart !in c.instances {
          return Refused(InvalidSubject);
        }
        var id := c.instances[p.counterpart];
        if id in relationships {
          return Refused(InvalidScope);
        }
        relationships := relationships + {id};
        return Ok(Some(id));
      case UnknownScope =>
        return Refused(InvalidScope);
    }

    method ValidateSupersession(c: Context, p: AmendmentProposal, ghost ds: seq<Draft>)
      returns (r: Result<Option<AmendmentId>>)
      requires forall id :: id in superseded <==> id in SupersededBy(ds)
      modifies this`superseded
      ensures r.Ok? <==> SupersedesOk(c, p) && (Superseded(c, p).Some? ==> Superseded(c, p).value !in SupersededBy(ds))
      ensures r.Ok? ==> r.value == Superseded(c, p)
      ensures r.Ok? ==> superseded == old(superseded) + (if r.value.Some? then {r.value.value} else {})
    {
      if p.supersedes == "" {
        return Ok(None);
      }
      if p.supersedes !in c.amendments {
        return Refused(UnknownAmendment);
      }
      var id := c.amendments[p.supersedes];
      if id in superseded {
        return Refused(DuplicateRetraction);
      }
      superseded := superseded + {id};
      return Ok(Some(id));
    }

    method Validate(c: Context, xs: map<string, Experience>, episodes: map<nat, nat>, p: AmendmentProposal,
                    ghost ds: seq<Draft>)
      returns (r: Result<Draft>)
      requires Remembers(ds) && Sourced(c, xs) && Numbered(c.stream, episodes)
      modifies this
      ensures r.Ok? <==> AmendmentOk(c, xs, p) && CounterpartOf(c, p) !in Counterparts(ds)
                         && (Superseded(c, p).Some? ==> Superseded(c, p).value !in SupersededBy(ds))
      ensures r.Ok? ==> r.value == Drafted(c, p) && Remembers(ds + [r.value])
    {
      hide Sourced, Numbered, Apart, KeysOk, Cited;
      if !c.rules.confidence(p.confidence) {
        return Refused(InvalidConfidence);
      }
      if !c.rules.text(p.tendency) {
        return Refused(InvalidText);
      }
      if p.evidence == [] {
        return Refused(InsufficientEvidence);
      }
      var counterpart := ValidateScope(c, p, ds);
      if counterpart.Refused? {
        return Refused(counterpart.reason);
      }
      var supersedes := ValidateSupersession(c, p, ds);
      if supersedes.Refused? {
        return Refused(supersedes.reason);
      }
      var cited := ValidateEvidence(xs, p.evidence, counterpart.value);
      if cited.Refused? {
        return Refused(cited.reason);
      }
      if p.scope == GlobalScope {
        KnownKeys(xs, p.evidence, counterpart.value);
        CitedAreSourced(c, xs, p.evidence);
        var spans := SpansEpisodes(c.stream, cited.value, episodes);
        if !spans {
          return Refused(InsufficientEvidence);
        }
      }
      r := Ok(Draft(p.scope, counterpart.value, p.evidence, supersedes.value));
      CounterpartsMore(ds, r.value);
    }
  }

  lemma KnownKeys(xs: map<string, Experience>, keys: seq<string>, about: Option<Id>)
    ensures KeysOk(xs, keys, about) ==> forall k | k in keys :: k in xs
  {
  }

  lemma CounterpartsMore(ds: seq<Draft>, d: Draft)
    ensures forall x :: x in Counterparts(ds + [d]) <==> x in Counterparts(ds) || x == d.counterpart
    ensures forall id :: id in SupersededBy(ds + [d]) <==> id in SupersededBy(ds) || d.supersedes == Some(id)
  {
    assert Counterparts(ds + [d]) == Counterparts(ds) + [d.counterpart];
    assert (ds + [d])[..|ds|] == ds;
  }

  method ValidateAmendments(c: Context, xs: map<string, Experience>, episodes: map<nat, nat>,
                            ps: seq<AmendmentProposal>)
    returns (r: Result<seq<Draft>>)
    requires Sourced(c, xs) && Numbered(c.stream, episodes)
    ensures r.Ok? <==> AmendmentsOk(c, xs, ps)
    ensures r.Ok? ==> Resolvable(c, ps) && r.value == AllDrafted(c, ps)
  {
    hide Sourced, Numbered, AmendmentsOk, AmendmentOk, ScopeOk, SupersedesOk, CounterpartOf, Superseded;
    NoAmendments(c, xs);
    var drafts := [];
    var validator := new AmendmentValidator();
    for i := 0 to |ps|
      invariant fresh(validator) && validator.Remembers(drafts)
      invariant AmendmentsOk(c, xs, ps[..i]) && Resolvable(c, ps[..i]) && drafts == AllDrafted(c, ps[..i])
    {
      OneMoreAmendment(c, xs, ps, i);
      if AmendmentsOk(c, xs, ps) {
        AmendmentsPrefix(c, xs, ps, i + 1);
      }
      var one := validator.Validate(c, xs, episodes, ps[i], drafts);
      if one.Refused? {
        return Refused(one.reason);
      }
      AmendmentsResolvable(c, xs, ps[..i + 1]);
      drafts := drafts + [one.value];
    }
    assert ps[..|ps|] == ps;
    r := Ok(drafts);
  }

  predicate Resolvable(c: Context, ps: seq<AmendmentProposal>) {
    forall p | p in ps :: ScopeOk(c, p) && SupersedesOk(c, p)
  }

  lemma NoAmendments(c: Context, xs: map<string, Experience>)
    ensures AmendmentsOk(c, xs, []) && Resolvable(c, []) && AllDrafted(c, []) == []
  {
  }

  lemma AmendmentsResolvable(c: Context, xs: map<string, Experience>, ps: seq<AmendmentProposal>)
    requires AmendmentsOk(c, xs, ps)
    ensures Resolvable(c, ps)
  {
  }

  // ----- The description -----

  /** A description that says nothing absorbs nothing; one that says something names nobody
      of its context and rests on more than one occasion. */
  ghost predicate PersonaOk(c: Context, xs: map<string, Experience>, p: PersonaProposal) {
    if c.rules.blank(p.description) then p.consolidates == []
    else
      && c.rules.text(p.description) && !c.rules.namesContext(p.description)
      && p.evidence != [] && KeysOk(xs, p.evidence, None) && Spans(c.stream, Cited(xs, p.evidence))
      && AllKnown(c.amendments, p.consolidates) && NoRepeat(Resolved(c.amendments, p.consolidates))
  }

  function DescribedBy(c: Context, p: PersonaProposal): Persona
    requires AllKnown(c.amendments, p.consolidates)
  {
    if c.rules.blank(p.description) then Persona(None, [], [])
    else Persona(Some(p.description), p.evidence, Resolved(c.amendments, p.consolidates))
  }

  method ValidateDescription(c: Context, xs: map<string, Experience>, episodes: map<nat, nat>, p: PersonaProposal)
    returns (r: Result<Persona>)
    requires Sourced(c, xs) && Numbered(c.stream, episodes)
    ensures r.Ok? <==> PersonaOk(c, xs, p)
    ensures r.Ok? ==> AllKnown(c.amendments, p.consolidates) && r.value == DescribedBy(c, p)
  {
    hide Sourced, Numbered, Apart, KeysOk, Cited;
    if c.rules.blank(p.description) {
      return if p.consolidates != [] then Refused(NoDescription) else Ok(Persona(None, [], []));
    }
    if !c.rules.text(p.description) {
      return Refused(InvalidText);
    }
    if c.rules.namesContext(p.description) {
      return Refused(NamedContext);
    }
    if p.evidence == [] {
      return Refused(InsufficientEvidence);
    }
    var cited := ValidateEvidence(xs, p.evidence, None);
    if cited.Refused? {
      return Refused(cited.reason);
    }
    KnownKeys(xs, p.evidence, None);
    CitedAreSourced(c, xs, p.evidence);
    var spans := SpansEpisodes(c.stream, cited.value, episodes);
    if !spans {
      return Refused(InsufficientEvidence);
    }
    var consolidate := Resolve(c.amendments, p.consolidates);
    if consolidate.Refused? {
      return Refused(consolidate.reason);
    }
    r := Ok(Persona(Some(p.description), p.evidence, consolidate.value));
  }

  // ----- Removals -----

  /** Holds unless retracting, consolidating and superseding together remove some amendment more than once. */
  method RequireDistinctRemovals(retract: seq<AmendmentId>, consolidate: seq<AmendmentId>, drafts: seq<Draft>)
    returns (ok: bool)
    requires NoRepeat(retract)
    ensures ok <==> NoRepeat(retract + consolidate + SupersededBy(drafts))
  {
    var removed := set id | id in retract;
    assert retract + [] == retract;
    for i := 0 to |consolidate|
      invariant NoRepeat(retract + consolidate[..i])
      invariant forall id :: id in removed <==> id in retract + consolidate[..i]
    {
      var id := consolidate[i];
      RemovedMore(retract, consolidate, i);
      if id in removed {
        if NoRepeat(retract + consolidate + SupersededBy(drafts)) {
          RemovedPrefix(retract, consolidate, SupersededBy(drafts), i + 1);
        }
        return false;
      }
      removed := removed + {id};
    }
    assert consolidate[..|consolidate|] == consolidate;
    var gone := retract + consolidate;
    assert gone + [] == gone;
    for i := 0 to |drafts|
      invariant NoRepeat(gone + SupersededBy(drafts[..i]))
      invariant forall id :: id in removed <==> id in gone + SupersededBy(drafts[..i])
    {
      SupersededMore(gone, drafts, i);
      if drafts[i].supersedes.Some? {
        var id := drafts[i].supersedes.value;
        if id in removed {
          return false;
        }
        removed := removed + {id};
      }
    }
    assert drafts[..|drafts|] == drafts;
    return true;
  }

  lemma RemovedMore(s: seq<AmendmentId>, t: seq<AmendmentId>, i: nat)
    requires i < |t|
    ensures s + t[..i + 1] == s + t[..i] + [t[i]]
    ensures NoRepeat(s + t[..i + 1]) <==> NoRepeat(s + t[..i]) && t[i] !in s + t[..i]
  {
    assert s + t[..i + 1] == s + t[..i] + [t[i]];
    NoRepeatMore(s + t[..i], t[i]);
  }

  lemma RemovedPrefix(s: seq<AmendmentId>, t: seq<AmendmentId>, u: seq<AmendmentId>, i: nat)
    requires i <= |t| && NoRepeat(s + t + u)
    ensures NoRepeat(s + t[..i])
  {
    assert (s + t + u)[..|s| + i] == s + t[..i];
    NoRepeatPrefix(s + t + u, |s| + i);
  }

  lemma {:induction false} SupersededPrefix(drafts: seq<Draft>, i: nat)
    requires i <= |drafts|
    ensures |SupersededBy(drafts[..i])| <= |SupersededBy(drafts)|
    ensures SupersededBy(drafts)[..|SupersededBy(drafts[..i])|] == SupersededBy(drafts[..i])
    decreases |drafts| - i
  {
    if i == |drafts| {
      assert drafts[..i] == drafts;
    } else {
      SupersededPrefix(drafts, i + 1);
      assert drafts[..i + 1][..i] == drafts[..i];
    }
  }

  lemma SupersededMore(gone: seq<AmendmentId>, drafts: seq<Draft>, i: nat)
    requires i < |drafts|
    ensures var now, d := SupersededBy(drafts[..i]), drafts[i];
            && SupersededBy(drafts[..i + 1]) == now + (if d.supersedes.Some? then [d.supersedes.value] else [])
            && (NoRepeat(gone + SupersededBy(drafts[..i + 1])) <==>
                NoRepeat(gone + now) && (d.supersedes.Some? ==> d.supersedes.value !in gone + now))
    ensures NoRepeat(gone + SupersededBy(drafts)) ==> NoRepeat(gone + SupersededBy(drafts[..i + 1]))
  {
    var now, d := SupersededBy(drafts[..i]), drafts[i];
    assert drafts[..i + 1][..i] == drafts[..i];
    if d.supersedes.Some? {
      assert gone + (now + [d.supersedes.value]) == gone + now + [d.supersedes.value];
      NoRepeatMore(gone + now, d.supersedes.value);
    } else {
      assert now + [] == now;
    }
    if NoRepeat(gone + SupersededBy(drafts)) {
      SupersededPrefix(drafts, i + 1);
      var kept := SupersededBy(drafts[..i + 1]);
      NoRepeatPrefix(gone + SupersededBy(drafts), |gone| + |kept|);
      assert (gone + SupersededBy(drafts))[..|gone| + |kept|] == gone + kept;
    }
  }

  // ----- The whole proposal -----

  function ByKey(xs: seq<Experience>): map<string, Experience> {
    if xs == [] then map[] else ByKey(xs[..|xs| - 1])[xs[|xs| - 1].key := xs[|xs| - 1]]
  }

  /** All the amendments an accepted proposal takes out of the active set. */
  function Removed(a: Acceptance): seq<AmendmentId> { a.retract + a.persona.consolidate + SupersededBy(a.amendments) }

  /** The whole proposal, part by part. */
  ghost predicate Acceptable(c: Context, p: Proposal) {
    && |p.experiences| <= MAX_EXPERIENCES && |p.amendments| <= MAX_AMENDMENTS
    && ExperiencesOk(c, p.experiences)
    && var xs := ByKey(AllValidated(c, p.experiences));
       && AmendmentsOk(c, xs, p.amendments) && PersonaOk(c, xs, p.persona)
       && AllKnown(c.amendments, p.retract) && AllKnown(c.amendments, p.persona.consolidates)
       && Resolvable(c, p.amendments)
       && NoRepeat(Removed(Accepted(c, p)))
       && |c.active| - |Removed(Accepted(c, p))| + |p.amendments| <= MAX_ACTIVE
  }

  function Accepted(c: Context, p: Proposal): Acceptance
    requires forall x | x in p.experiences :: ExperienceOk(c, x)
    requires AllKnown(c.amendments, p.retract) && AllKnown(c.amendments, p.persona.consolidates)
             && Resolvable(c, p.amendments)
  {
    Acceptance(AllValidated(c, p.experiences), AllDrafted(c, p.amendments), Resolved(c.amendments, p.retract),
               DescribedBy(c, p.persona))
  }

  /** What the request was built from: events of the stream by their place, and tokens for exactly the active
      amendments. */
  ghost predicate Sound(c: Context) {
    && (forall s | s in c.events :: c.events[s] in c.stream)
    && NoRepeat(c.active) && (forall id :: id in c.amendments.Values <==> id in c.active)
  }

  lemma {:induction false} AllSourced(c: Context, ps: seq<ExperienceProposal>)
    requires Sound(c) && forall p | p in ps :: ExperienceOk(c, p)
    ensures Sourced(c, ByKey(AllValidated(c, ps)))
  {
    if ps != [] {
      var before := ps[..|ps| - 1];
      AllSourced(c, before);
      assert AllValidated(c, ps)[..|ps| - 1] == AllValidated(c, before);
      OneSourced(c, ps[|ps| - 1]);
    }
  }

  lemma OneSourced(c: Context, p: ExperienceProposal)
    requires Sound(c) && ExperienceOk(c, p)
    ensures forall e | e in Validated(c, p).sources :: e in c.stream
  {
    assert forall i | 0 <= i < |p.sources| :: SourceOk(c, p, p.sources[i]);
  }

  /** Accepts a proposal exactly when it is acceptable, as a whole and in one pass. */
  method ValidateProposal(c: Context, ordered: seq<Event>, p: Proposal) returns (r: Result<Acceptance>)
    requires Sound(c) && Sorting(c.stream, ordered) && DistinctPlaces(ordered)
    ensures r.Ok? <==> Acceptable(c, p)
    ensures r.Ok? ==> r.value == Accepted(c, p)
  {
    hide Sound, Sorting, DistinctPlaces, ExperienceOk, ExperiencesOk, AmendmentsOk, PersonaOk, Sourced, Numbered, ByKey;
    if |p.experiences| > MAX_EXPERIENCES || |p.amendments| > MAX_AMENDMENTS {
      return Refused(TooManyItems);
    }
    var experiences := ValidateExperiences(c, p.experiences);
    if experiences.Refused? {
      return Refused(experiences.reason);
    }
    EachOk(c, p.experiences);
    AllSourced(c, p.experiences);
    var xs := ByKey(experiences.value);
    var episodes := EpisodesBySequence(c.stream, ordered);
    var amendments := ValidateAmendments(c, xs, episodes, p.amendments);
    if amendments.Refused? {
      return Refused(amendments.reason);
    }
    var retract := Resolve(c.amendments, p.retract);
    if retract.Refused? {
      if Acceptable(c, p) {
        RetractionsOk(c, p);
      }
      return Refused(retract.reason);
    }
    var persona := ValidateDescription(c, xs, episodes, p.persona);
    if persona.Refused? {
      return Refused(persona.reason);
    }
    var distinct := RequireDistinctRemovals(retract.value, persona.value.consolidate, amendments.value);
    if !distinct {
      return Refused(DuplicateRetraction);
    }
    var removed := |retract.value| + |persona.value.consolidate| + CountSuperseding(amendments.value);
    if |c.active| - removed + |amendments.value| > MAX_ACTIVE {
      return Refused(StateLimit);
    }
    r := Ok(Acceptance(experiences.value, amendments.value, retract.value, persona.value));
  }

  function CountSuperseding(ds: seq<Draft>): (n: nat)
    ensures n == |SupersededBy(ds)|
  {
    if ds == [] then 0 else CountSuperseding(ds[..|ds| - 1]) + if ds[|ds| - 1].supersedes.Some? then 1 else 0
  }

  lemma EachOk(c: Context, ps: seq<ExperienceProposal>)
    ensures ExperiencesOk(c, ps) ==> forall p | p in ps :: ExperienceOk(c, p)
  {
  }

  lemma RetractionsOk(c: Context, p: Proposal)
    requires Acceptable(c, p)
    ensures AllKnown(c.amendments, p.retract) && NoRepeat(Resolved(c.amendments, p.retract))
  {
    var a := Accepted(c, p);
    assert Removed(a)[..|a.retract|] == a.retract;
    NoRepeatPrefix(Removed(a), |a.retract|);
  }

  // ----- What acceptance guarantees -----

  lemma {:induction false} SizeOfDistinct(s: seq<AmendmentId>)
    requires NoRepeat(s)
    ensures |set id | id in s| == |s|
  {
    if s != [] {
      var before, x := s[..|s| - 1], s[|s| - 1];
      SizeOfDistinct(before);
      NoRepeatMore(before, x);
      assert s == before + [x];
      assert (set id | id in s) == (set id | id in before) + {x};
    }
  }

  lemma {:induction false} SupersededKnown(c: Context, ps: seq<AmendmentProposal>)
    requires Resolvable(c, ps)
    ensures forall id | id in SupersededBy(AllDrafted(c, ps)) :: id in c.amendments.Values
  {
    if ps != [] {
      var before, p := ps[..|ps| - 1], ps[|ps| - 1];
      SupersededKnown(c, before);
      assert AllDrafted(c, ps)[..|ps| - 1] == AllDrafted(c, before);
      assert p in ps;
    }
  }

  lemma ResolvedKnown(names: map<string, AmendmentId>, tokens: seq<string>)
    requires AllKnown(names, tokens)
    ensures forall id | id in Resolved(names, tokens) :: id in names.Values
  {
  }

  /** An accepted proposal removes that many different active amendments, so what stays
      with what is added is at most twelve: the count in the check is the true size. */
  lemma ActiveStaysBounded(c: Context, p: Proposal)
    requires Sound(c) && Acceptable(c, p)
    ensures var a := Accepted(c, p);
            var active, removed := (set id | id in c.active), (set id | id in Removed(a));
            && removed <= active && |removed| == |Removed(a)|
            && |active - removed| == |c.active| - |Removed(a)|
            && |active - removed| + |a.amendments| <= MAX_ACTIVE
  {
    EachOk(c, p.experiences);
    hide ExperiencesOk, ExperienceOk, AmendmentsOk, PersonaOk, ByKey;
    var a := Accepted(c, p);
    var active, removed := (set id | id in c.active), (set id | id in Removed(a));
    SizeOfDistinct(c.active);
    SizeOfDistinct(Removed(a));
    SupersededKnown(c, p.amendments);
    ResolvedKnown(c.amendments, p.retract);
    ResolvedKnown(c.amendments, p.persona.consolidates);
    forall id | id in Removed(a)
      ensures id in c.active
    {
      assert id in a.retract || id in a.persona.consolidate || id in SupersededBy(a.amendments);
      assert id in c.amendments.Values;
    }
    assert removed <= active;
  }

  lemma {:induction false} SourcesListed(ps: seq<ExperienceProposal>, i: nat, s: nat)
    requires i < |ps| && s in ps[i].sources
    ensures s in AllSources(ps)
  {
    if i < |ps| - 1 {
      SourcesListed(ps[..|ps| - 1], i, s);
    }
  }

  lemma {:induction false} CitedOnce(ps: seq<ExperienceProposal>, i: nat, j: nat, s: nat)
    requires NoRepeat(AllSources(ps)) && i < j < |ps| && s in ps[i].sources
    ensures s !in ps[j].sources
  {
    var before, last := ps[..|ps| - 1], ps[|ps| - 1];
    NoRepeatJoined(AllSources(before), last.sources);
    if j < |ps| - 1 {
      CitedOnce(before, i, j, s);
    } else {
      SourcesListed(before, i, s);
    }
  }

  /** Of an accepted proposal, no event backs two experiences, and none backs one of them twice. */
  lemma NoEventCitedTwice(c: Context, p: Proposal, i: nat, j: nat)
    requires Acceptable(c, p) && i < |p.experiences| && j < |p.experiences|
    ensures NoRepeat(p.experiences[i].sources)
    ensures i != j ==> forall s | s in p.experiences[i].sources :: s !in p.experiences[j].sources
  {
    EachOk(c, p.experiences);
    assert ExperienceOk(c, p.experiences[i]) && NoRepeat(AllSources(p.experiences));
    hide ExperienceOk, AllSources, Acceptable;
    forall s | i != j && s in p.experiences[i].sources
      ensures s !in p.experiences[j].sources
    {
      if i < j {
        CitedOnce(p.experiences, i, j, s);
      } else if s in p.experiences[j].sources {
        CitedOnce(p.experiences, j, i, s);
      }
    }
  }

  /** Of an accepted proposal's amendments at most one is global, and no two others name the same
      instance, by whatever tokens. */
  lemma OneAmendmentEach(c: Context, p: Proposal, i: nat, j: nat)
    requires Acceptable(c, p) && i < j < |p.amendments|
    ensures ScopeOk(c, p.amendments[i]) && ScopeOk(c, p.amendments[j])
    ensures p.amendments[i].scope == GlobalScope ==> p.amendments[j].scope == RelationshipScope
    ensures p.amendments[i].scope == RelationshipScope && p.amendments[j].scope == RelationshipScope ==>
              c.instances[p.amendments[i].counterpart] != c.instances[p.amendments[j].counterpart]
  {
    var ds := Accepted(c, p).amendments;
    assert Counterparts(ds)[i] == ds[i].counterpart && Counterparts(ds)[j] == ds[j].counterpart;
  }
}
