/** The vector index kept in step with the store of memories and experiences behind it. */
module MemoryIndex {
  import opened Options
  import opened Decimals

  type Id = string

  datatype Entry = Entry(key: string, content: string, at: int, pinned: bool)

  datatype Document = Document(content: string, key: string, text: string, at: Option<int>, pinned: bool,
                               embedding: seq<real>)

  type Collection = map<string, Document>

  datatype Experience = Experience(id: nat, summary: string)

  /** What may go wrong in one pass, chosen by whoever stands against the index: opening a
      collection, embedding a text, deleting or adding a document, listing them all, and
      dropping a collection. */
  datatype Faults = Faults(
    open: bool, embed: string -> Option<seq<real>>, delete: string -> bool, add: string -> bool, list: bool, drop: bool)

  function ContentOf(e: Entry): string { e.key + ": " + e.content }

  function DocumentOf(e: Entry, embedding: seq<real>): Document {
    Document(ContentOf(e), e.key, e.content, Some(e.at), e.pinned, embedding)
  }

  predicate Matches(e: Entry, d: Document) {
    d.content == ContentOf(e) && d.key == e.key && d.text == e.content && d.at == Some(e.at) && d.pinned == e.pinned
  }

  /** The vector an entry's document is to carry: the one it has, as long as it stands for the same text, and
      else the one the text is embedded as; nothing where that fails. */
  function VectorFor(was: Collection, e: Entry, f: Faults): Option<seq<real>> {
    if e.key in was && was[e.key].content == e.key + ": " + e.content then Some(was[e.key].embedding)
    else f.embed(e.key + ": " + e.content)
  }

  /** Whether an entry can be brought up to date: its document is, or a vector that is not empty can be had for it
      and put into the collection. */
  predicate CanBeCurrent(was: Collection, e: Entry, f: Faults) {
    || (e.key in was && Matches(e, was[e.key]))
    || (VectorFor(was, e, f).Some? && VectorFor(was, e, f).value != [] && !f.open && !f.add(e.key))
  }

  /** The entry's document says what the entry says and carries the vector it is to carry. */
  predicate Current(was: Collection, now: Collection, e: Entry, f: Faults) {
    && e.key in now && VectorFor(was, e, f).Some?
    && now[e.key]
       == Document(e.key + ": " + e.content, e.key, e.content, Some(e.at), e.pinned, VectorFor(was, e, f).value)
  }

  predicate DistinctKeys(entries: seq<Entry>) {
    forall i, j | 0 <= i < j < |entries| :: entries[i].key != entries[j].key
  }

  predicate Has(entries: seq<Entry>, key: string) { exists i | 0 <= i < |entries| :: entries[i].key == key }

  predicate Indexed(entries: seq<Entry>, c: Collection) {
    forall i | 0 <= i < |entries| :: entries[i].key in c && Matches(entries[i], c[entries[i].key])
  }

  /** The collection holds a matching document for each entry and, besides, only
      documents it already held and could not delete. */
  ghost predicate Reconciled(entries: seq<Entry>, was: Collection, now: Collection, f: Faults) {
    && Indexed(entries, now)
    && forall k :: k in now <==> Has(entries, k) || (entries != [] && k in was && f.delete(k))
  }

  /** Whether the repair succeeds: with nothing stored if the collection is empty or can be dropped, and else if it
      can be opened and listed and each entry can be brought up to date. */
  predicate CanBeReconciled(entries: seq<Entry>, was: Collection, f: Faults) {
    if entries == [] then was == map[] || !f.drop
    else !f.open && !f.list && forall i | 0 <= i < |entries| :: CanBeCurrent(was, entries[i], f)
  }

  class Index {
    var collections: map<string, Collection>

    constructor ()
      ensures collections == map[]
    {
      collections := map[];
    }

    ghost function At(name: string): Collection
      reads this
    {
      if name in collections then collections[name] else map[]
    }

    ghost predicate OthersAre(name: string, was: map<string, Collection>)
      reads this
    {
      collections - {name} == was - {name}
    }

    /** Replaces the document of an entry; an empty embedding leaves none behind. */
    method IndexPrepared(id: Id, e: Entry, embedding: seq<real>, f: Faults) returns (ok: bool)
      modifies this
      ensures OthersAre(id, old(collections))
      ensures ok ==> At(id) == old(At(id))[e.key := DocumentOf(e, embedding)]
      ensures ok <==> embedding != [] && !f.open && !f.add(e.key)
      ensures ok ==> id in collections
    {
      if f.open {
        return false;
      }
      var c := if id in collections then collections[id] else map[];
      if !f.delete(e.key) {
        c := c - {e.key};
      }
      collections := collections[id := c];
      if embedding == [] || f.add(e.key) {
        return false;
      }
      collections := collections[id := c[e.key := DocumentOf(e, embedding)]];
      return true;
    }

    /** Brings one entry's document up to date, embedding its text only if that changed. */
    method EnsureEntry(id: Id, e: Entry, f: Faults) returns (ok: bool)
      requires id in collections
      modifies this
      ensures OthersAre(id, old(collections))
      ensures ok ==> e.key in At(id) && Matches(e, At(id)[e.key]) && At(id) - {e.key} == old(At(id)) - {e.key}
      ensures ok ==> Current(old(At(id)), At(id), e, f)
      ensures ok <==> CanBeCurrent(old(At(id)), e, f)
      ensures ok ==> id in collections
    {
      var c := collections[id];
      if e.key in c && Matches(e, c[e.key]) {
        return true;
      }
      var embedding;
      if e.key in c && c[e.key].content == ContentOf(e) {
        embedding := c[e.key].embedding;
      } else {
        match f.embed(ContentOf(e))
        case None => return false;
        case Some(vector) => embedding := vector;
      }
      ok := IndexPrepared(id, e, embedding, f);
    }

    /** Removes every document that no entry names; one whose deletion fails stays. */
    method PruneOrphans(id: Id, anchor: string, keys: set<string>, f: Faults) returns (ok: bool)
      requires id in collections
      modifies this
      ensures OthersAre(id, old(collections)) && id in collections
      ensures ok ==>
                collections[id] == map k | k in old(collections[id]) && (k in keys || f.delete(k)) ::
                  old(collections[id])[k]
      ensures !ok ==> collections == old(collections)
      ensures anchor in old(collections[id]) && !f.list ==> ok
      ensures old(collections[id]) != map[] && f.list ==> !ok
    {
      var c := collections[id];
      if |c| == 0 {
        return true;
      }
      if anchor !in c || f.list {
        return false;
      }
      var left := c.Keys;
      while left != {}
        invariant OthersAre(id, old(collections)) && id in collections && left <= c.Keys
        invariant collections[id] == map k | k in c && (k in keys || f.delete(k) || k in left) :: c[k]
        decreases |left|
      {
        var k :| k in left;
        left := left - {k};
        if k !in keys && !f.delete(k) {
          collections := collections[id := collections[id] - {k}];
        }
      }
      return true;
    }

    method ClearCollection(id: Id, f: Faults) returns (ok: bool)
      modifies this
      ensures OthersAre(id, old(collections))
      ensures ok ==> At(id) == map[]
      ensures !ok ==> collections == old(collections)
      ensures ok <==> old(At(id)) == map[] || !f.drop
    {
      if id !in collections || |collections[id]| == 0 {
        return true;
      }
      if f.drop {
        return false;
      }
      collections := collections - {id};
      return true;
    }

    /** Repairs the collection of an instance against its entries, whatever state it was in. */
    method EnsureIndexed(id: Id, stored: Option<seq<Entry>>, f: Faults) returns (ok: bool)
      requires stored.Some? ==> DistinctKeys(stored.value)
      modifies this
      ensures OthersAre(id, old(collections))
      ensures ok ==> stored.Some? && Reconciled(stored.value, old(At(id)), At(id), f)
      ensures ok ==> forall i | 0 <= i < |stored.value| :: Current(old(At(id)), At(id), stored.value[i], f)
      ensures ok <==> stored.Some? && CanBeReconciled(stored.value, old(At(id)), f)
    {
      hide Reconciled, Current, CanBeCurrent, Filled, DistinctKeys, Has;
      if stored.None? {
        return false;
      }
      var entries := stored.value;
      if entries == [] {
        NothingIsReconciled(At(id), f);
        ok := ClearCollection(id, f);
        return;
      }
      if f.open {
        return false;
      }
      ghost var was := At(id);
      collections := collections[id := if id in collections then collections[id] else map[]];
      var keys, anchor;
      ok, keys, anchor := EnsureEntries(id, entries, f);
      if !ok {
        return;
      }
      ghost var filled := collections[id];
      ok := PruneOrphans(id, anchor, keys, f);
      if ok {
        PrunedIsReconciled(entries, was, filled, collections[id], keys, f);
        CurrentAfterPruning(entries, was, filled, collections[id], keys, f);
      }
    }

    method EnsureEntries(id: Id, entries: seq<Entry>, f: Faults) returns (ok: bool, keys: set<string>, anchor: string)
      requires id in collections && DistinctKeys(entries)
      modifies this
      ensures OthersAre(id, old(collections))
      ensures ok ==> id in collections && Filled(entries, |entries|, old(collections[id]), collections[id])
      ensures ok ==> forall i | 0 <= i < |entries| :: Current(old(collections[id]), collections[id], entries[i], f)
      ensures ok <==> forall i | 0 <= i < |entries| :: CanBeCurrent(old(collections[id]), entries[i], f)
      ensures ok ==> (forall k :: k in keys <==> Has(entries, k)) && (entries != [] ==> anchor in collections[id])
    {
      hide DistinctKeys, Filled, Has, Current, CanBeCurrent;
      NothingFilled(entries, collections[id]);
      keys, anchor := {}, "";
      for i := 0 to |entries|
        invariant id in collections && OthersAre(id, old(collections))
        invariant Filled(entries, i, old(collections[id]), collections[id])
        invariant forall k :: k in keys <==> Has(entries[..i], k)
        invariant forall j | 0 <= j < i :: Current(old(collections[id]), collections[id], entries[j], f)
        invariant forall j | 0 <= j < i :: CanBeCurrent(old(collections[id]), entries[j], f)
        invariant i > 0 ==> anchor in collections[id]
      {
        var e := entries[i];
        HasMore(entries, i);
        keys, anchor := keys + {e.key}, e.key;
        ghost var before := collections[id];
        NotYetTouched(entries, i, old(collections[id]), before, f);
        ok := EnsureEntry(id, e, f);
        if !ok {
          return;
        }
        FilledMore(entries, i, old(collections[id]), before, collections[id]);
        CurrentStays(entries, i, old(collections[id]), before, collections[id], f);
      }
      assert entries[..|entries|] == entries;
      ok := true;
    }
  }

  /** The first entries have matching documents, and nothing else has changed. */
  ghost predicate Filled(entries: seq<Entry>, n: nat, was: Collection, now: Collection)
    requires n <= |entries|
  {
    && Indexed(entries[..n], now)
    && forall k | !Has(entries[..n], k) :: (k in now <==> k in was) && (k in now ==> now[k] == was[k])
  }

  lemma HasMore(entries: seq<Entry>, i: nat)
    requires i < |entries|
    ensures forall k :: Has(entries[..i + 1], k) <==> Has(entries[..i], k) || k == entries[i].key
    ensures forall k :: !Has(entries[..0], k)
  {
    forall k
      ensures Has(entries[..i + 1], k) <==> Has(entries[..i], k) || k == entries[i].key
    {
      assert entries[..i + 1][i] == entries[i];
      assert forall j | 0 <= j < i :: entries[..i + 1][j] == entries[..i][j];
    }
  }

  lemma NothingFilled(entries: seq<Entry>, c: Collection)
    ensures Filled(entries, 0, c, c) && forall k :: !Has(entries[..0], k)
  {
  }

  lemma FilledMore(entries: seq<Entry>, i: nat, was: Collection, before: Collection, now: Collection)
    requires i < |entries| && DistinctKeys(entries) && Filled(entries, i, was, before)
    requires var k := entries[i].key; k in now && Matches(entries[i], now[k]) && now - {k} == before - {k}
    ensures Filled(entries, i + 1, was, now)
  {
    var key := entries[i].key;
    HasMore(entries, i);
    forall k | k != key
      ensures (k in now <==> k in before) && (k in now ==> now[k] == before[k])
    {
      assert (k in now - {key}) == (k in before - {key});
    }
    hide Matches, Has;
    forall j | 0 <= j < i + 1
      ensures entries[j].key in now && Matches(entries[j], now[entries[j].key])
    {
      assert j < i ==> entries[..i][j] == entries[j];
    }
  }

  /** An entry whose turn has not come is as it was. */
  lemma NotYetTouched(entries: seq<Entry>, i: nat, was: Collection, now: Collection, f: Faults)
    requires i < |entries| && DistinctKeys(entries) && Filled(entries, i, was, now)
    ensures CanBeCurrent(now, entries[i], f) <==> CanBeCurrent(was, entries[i], f)
    ensures forall c: Collection :: Current(now, c, entries[i], f) <==> Current(was, c, entries[i], f)
  {
    var k := entries[i].key;
    assert !Has(entries[..i], k);
    hide Matches;
  }

  lemma CurrentStays(entries: seq<Entry>, i: nat, was: Collection, before: Collection, now: Collection, f: Faults)
    requires i < |entries| && DistinctKeys(entries) && now - {entries[i].key} == before - {entries[i].key}
    requires forall j | 0 <= j < i :: Current(was, before, entries[j], f)
    ensures forall j | 0 <= j < i :: Current(was, now, entries[j], f)
  {
    hide Matches, VectorFor;
    forall j | 0 <= j < i
      ensures Current(was, now, entries[j], f)
    {
      assert Current(was, before, entries[j], f);
      assert entries[j].key in before - {entries[i].key};
    }
  }

  lemma CurrentAfterPruning(entries: seq<Entry>, was: Collection, filled: Collection, now: Collection,
                            keys: set<string>, f: Faults)
    requires forall k :: k in keys <==> Has(entries, k)
    requires now == map k | k in filled && (k in keys || f.delete(k)) :: filled[k]
    requires forall i | 0 <= i < |entries| :: Current(was, filled, entries[i], f)
    ensures forall i | 0 <= i < |entries| :: Current(was, now, entries[i], f)
  {
    hide Matches, VectorFor;
    forall i | 0 <= i < |entries|
      ensures Current(was, now, entries[i], f)
    {
      assert Current(was, filled, entries[i], f) && Has(entries, entries[i].key);
    }
  }

  lemma NothingIsReconciled(was: Collection, f: Faults)
    ensures Reconciled([], was, map[], f)
  {
  }

  lemma PrunedIsReconciled(entries: seq<Entry>, was: Collection, filled: Collection, now: Collection, keys: set<string>,
                           f: Faults)
    requires entries != [] && Filled(entries, |entries|, was, filled) && forall k :: k in keys <==> Has(entries, k)
    requires now == map k | k in filled && (k in keys || f.delete(k)) :: filled[k]
    ensures Reconciled(entries, was, now, f)
  {
    assert entries[..|entries|] == entries;
    forall i | 0 <= i < |entries|
      ensures entries[i].key in now && Matches(entries[i], now[entries[i].key])
    {
      assert Has(entries, entries[i].key);
    }
  }

  /** Once no deletion fails, what is indexed is exactly what is stored. */
  lemma IndexEqualsStore(entries: seq<Entry>, was: Collection, now: Collection, f: Faults, key: string)
    requires Reconciled(entries, was, now, f) && forall k | k in was :: !f.delete(k)
    ensures key in now <==> exists i :: 0 <= i < |entries| && entries[i].key == key && Matches(entries[i], now[key])
  {
    if key in now {
      var i :| 0 <= i < |entries| && entries[i].key == key;
      assert Matches(entries[i], now[entries[i].key]);
    }
  }

  // ----- Experiences -----

  function CollectionOf(id: Id): string { "experiences:" + id }

  predicate MemoryCollection(name: string) { !("experiences:" <= name) }

  /** An experience collection is never taken for one of memories, and no two instances share one. */
  lemma NamespacesAreDisjoint(a: Id, b: Id)
    ensures !MemoryCollection(CollectionOf(a)) && (CollectionOf(a) == CollectionOf(b) ==> a == b)
  {
    assert CollectionOf(a)[|"experiences:"|..] == a && CollectionOf(b)[|"experiences:"|..] == b;
  }

  /** The memory collection of an instance is named by its bare id, and is known for one exactly if no
      instance's experiences are kept under that name; an id that begins with the prefix names both. */
  lemma MemoryNamesExactly(id: Id)
    ensures MemoryCollection(id) <==> forall other: Id :: CollectionOf(other) != id
    ensures MemoryCollection(id) <==> !("experiences:" <= id)
  {
    if "experiences:" <= id {
      var rest := id[|"experiences:"|..];
      assert CollectionOf(rest) == id;
    }
  }

  function IdsOf(retained: seq<Experience>): set<string> { set x | x in retained :: Decimal(x.id) }

  predicate DistinctIds(retained: seq<Experience>) {
    forall i, j | 0 <= i < j < |retained| :: retained[i].id != retained[j].id
  }

  lemma {:induction false} IdsCount(retained: seq<Experience>)
    requires DistinctIds(retained)
    ensures |IdsOf(retained)| == |retained|
  {
    if retained != [] {
      var before, x := retained[..|retained| - 1], retained[|retained| - 1];
      IdsCount(before);
      if Decimal(x.id) in IdsOf(before) {
        var y :| y in before && Decimal(y.id) == Decimal(x.id);
        DecimalIsInjective(x.id, y.id);
      }
      assert retained == before + [x];
      assert IdsOf(retained) == IdsOf(before) + {Decimal(x.id)};
    }
  }

  /** The documents of these experiences, each under its id with its summary. */
  function Documents(retained: seq<Experience>): map<string, string> {
    if retained == [] then map[]
    else
      var x := retained[|retained| - 1];
      Documents(retained[..|retained| - 1])[Decimal(x.id) := x.summary]
  }

  lemma NoDocuments(retained: seq<Experience>)
    ensures Documents(retained[..0]) == map[] && (retained == [] ==> Documents(retained) == map[])
  {
  }

  lemma OneMoreDocument(c: map<string, string>, was: map<string, string>, retained: seq<Experience>, i: nat)
    requires i < |retained| && c == was + Documents(retained[..i])
    ensures c[Decimal(retained[i].id) := retained[i].summary] == was + Documents(retained[..i + 1])
  {
    hide Decimal;
    assert retained[..i + 1][..i] == retained[..i];
  }

  lemma IdsGrow(before: seq<Experience>, last: Experience)
    requires DistinctIds(before + [last])
    ensures DistinctIds(before) && IdsOf(before + [last]) == IdsOf(before) + {Decimal(last.id)}
    ensures forall x | x in before :: Decimal(x.id) in IdsOf(before) && Decimal(x.id) != Decimal(last.id)
  {
    hide Decimal;
    var all := before + [last];
    assert forall i | 0 <= i < |before| :: all[i] == before[i];
    forall x | x in before
      ensures Decimal(x.id) != Decimal(last.id)
    {
      var i :| 0 <= i < |before| && before[i] == x;
      assert all[i].id != all[|before|].id;
      if Decimal(x.id) == Decimal(last.id) {
        DecimalIsInjective(x.id, last.id);
      }
    }
    assert forall x :: x in all <==> x in before || x == last;
  }

  /** Each experience's document holds its own summary, and there are no others. */
  lemma {:induction false} DocumentsHoldSummaries(retained: seq<Experience>)
    requires DistinctIds(retained)
    ensures Documents(retained).Keys == IdsOf(retained)
    ensures forall x | x in retained :: Documents(retained)[Decimal(x.id)] == x.summary
  {
    hide Decimal, IdsOf, DistinctIds;
    if retained == [] {
      NoIds(retained);
    } else {
      var n := |retained| - 1;
      var before, last := retained[..n], retained[n];
      assert retained == before + [last];
      IdsGrow(before, last);
      DocumentsHoldSummaries(before);
    }
  }

  lemma NoIds(retained: seq<Experience>)
    requires retained == []
    ensures IdsOf(retained) == {} == Documents(retained).Keys
  {
  }

  lemma SubsetOfSameSize(a: set<string>, b: set<string>)
    requires a <= b && |a| == |b|
    ensures a == b
  {
    var rest := b - a;
    assert b == a + rest;
  }

  /** Whether experiences can be added: there are none, or the collection opens and takes and embeds each. */
  predicate CanBeAdded(retained: seq<Experience>, f: Faults) {
    retained == [] ||
    (!f.open && forall j | 0 <= j < |retained| :: !f.add(Decimal(retained[j].id)) && f.embed(retained[j].summary).Some?)
  }

  class ExperienceIndex {
    var collections: map<string, map<string, string>>

    ghost function Held(id: Id): set<string>
      reads this
    {
      if CollectionOf(id) in collections then collections[CollectionOf(id)].Keys else {}
    }

    ghost function Texts(id: Id): map<string, string>
      reads this
    {
      if CollectionOf(id) in collections then collections[CollectionOf(id)] else map[]
    }

    ghost predicate OthersAre(id: Id, was: map<string, map<string, string>>)
      reads this
    {
      collections - {CollectionOf(id)} == was - {CollectionOf(id)}
    }

    /** Makes the collection hold exactly the retained experiences, rebuilding it only if
        it does not already: as many documents as experiences, and one for each. */
    method Reconcile(id: Id, retained: seq<Experience>, f: Faults) returns (ok: bool)
      requires DistinctIds(retained)
      modifies this
      ensures OthersAre(id, old(collections))
      ensures ok ==> Held(id) == IdsOf(retained)
      ensures var right := old(Held(id)) == IdsOf(retained) && CollectionOf(id) in old(collections);
              if right then ok && collections == old(collections)
              else (ok ==> Texts(id) == Documents(retained)) && (ok <==> !f.drop && CanBeAdded(retained, f))
    {
      var name := CollectionOf(id);
      var right := HoldsExactly(name, retained);
      if right {
        return true;
      }
      if f.drop {
        return false;
      }
      collections := collections - {name};
      ok := AddAll(id, retained, f);
      DocumentsHoldSummaries(retained);
    }

    method HoldsExactly(name: string, retained: seq<Experience>) returns (exactly: bool)
      requires DistinctIds(retained)
      ensures exactly <==> name in collections && collections[name].Keys == IdsOf(retained)
    {
      IdsCount(retained);
      if name !in collections {
        return false;
      }
      var c := collections[name];
      assert |c| == |c.Keys|;
      var all := HoldsAll(c, retained);
      if |c| == |retained| && all {
        SubsetOfSameSize(IdsOf(retained), c.Keys);
      }
      exactly := |c| == |retained| && all;
    }

    method HoldsAll(c: map<string, string>, retained: seq<Experience>) returns (all: bool)
      ensures all <==> IdsOf(retained) <= c.Keys
    {
      for i := 0 to |retained|
        invariant forall x | x in retained[..i] :: Decimal(x.id) in c
      {
        var x := retained[i];
        assert x in retained && Decimal(x.id) in IdsOf(retained);
        if Decimal(x.id) !in c {
          return false;
        }
      }
      assert retained[..|retained|] == retained;
      return true;
    }

    /** Adds a document for each experience, in place of one it may have had. */
    method AddAll(id: Id, retained: seq<Experience>, f: Faults) returns (ok: bool)
      modifies this
      ensures OthersAre(id, old(collections))
      ensures ok ==> Texts(id) == old(Texts(id)) + Documents(retained)
      ensures ok <==> CanBeAdded(retained, f)
    {
      hide Documents, Decimal;
      NoDocuments(retained);
      if retained == [] {
        return true;
      }
      if f.open {
        return false;
      }
      var name := CollectionOf(id);
      var c := if name in collections then collections[name] else map[];
      collections := collections[name := c];
      for i := 0 to |retained|
        invariant name in collections && OthersAre(id, old(collections))
        invariant collections[name] == old(Texts(id)) + Documents(retained[..i])
        invariant forall j | 0 <= j < i :: !f.add(Decimal(retained[j].id)) && f.embed(retained[j].summary).Some?
      {
        OneMoreDocument(collections[name], old(Texts(id)), retained, i);
        if f.add(Decimal(retained[i].id)) || f.embed(retained[i].summary).None? {
          return false;
        }
        collections := collections[name := collections[name][Decimal(retained[i].id) := retained[i].summary]];
      }
      assert retained[..|retained|] == retained;
      return true;
    }
  }
}
