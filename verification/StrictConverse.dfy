/** What the strict form of a tool's schema accepts, the tool's own schema accepts once
    some of the members that are null are left out. */
module StrictConverse {
  import opened JsonSchema
  import opened StrictSchema
  import opened StrictAcceptance

  // ----- Nullable adds null and nothing else -----

  lemma NullTypeTakesNullOnly(m: Meaning, v: Json)
    requires v != Null
    ensures !Accepts(m, NULL_TYPE, v)
  {
    var s := NULL_TYPE.fields;
    TypeHolds(m, s, v);
    assert !HasType("null", v);
    assert "type" in s;
    hide Holds;
  }

  lemma WrappedGivesBack(m: Meaning, now: Schema, v: Json)
    requires v != Null && Accepts(m, Obj(map["anyOf" := Arr([Obj(now), NULL_TYPE])]), v)
    ensures Accepts(m, Obj(now), v)
  {
    NullTypeTakesNullOnly(m, v);
    var s := map["anyOf" := Arr([Obj(now), NULL_TYPE])];
    assert Holds(m, s, "anyOf", v);
    AnyOfAccepts(m, s, v);
    hide Accepts, Holds;
    assert s["anyOf"].items == [Obj(now), NULL_TYPE];
  }

  lemma UnionGivesBack(m: Meaning, s: Schema, v: Json)
    requires AnnotationsHold(m) && Union(s) && v != Null
    requires Accepts(m, Obj(Nullable(s, Strict(Obj(s)).fields)), v)
    ensures Accepts(m, Strict(Obj(s)), v)
  {
    var now := Strict(Obj(s)).fields;
    WalkedUnion(s);
    NullableUnion(s, now);
    hide Strict, StrictAll, Annotates, Nullable, SomeTakesNull;
    if !SomeTakesNull(s["anyOf"].items) {
      FewerAlternatives(m, now, v);
    }
  }

  lemma FewerAlternatives(m: Meaning, now: Schema, v: Json)
    requires AnnotationsHold(m) && Lists(now, "anyOf") && forall k | k in now :: k == "anyOf" || Annotates(k)
    requires v != Null && Accepts(m, Obj(now["anyOf" := Arr(now["anyOf"].items + [NULL_TYPE])]), v)
    ensures Accepts(m, Obj(now), v)
  {
    var more := now["anyOf"].items + [NULL_TYPE];
    var made := now["anyOf" := Arr(more)];
    assert Holds(m, made, "anyOf", v);
    AnyOfAccepts(m, made, v);
    NullTypeTakesNullOnly(m, v);
    hide Accepts, Annotates, Holds;
    var c :| c in more && Accepts(m, c, v);
    assert c in now["anyOf"].items;
    UnionAccepts(m, now, v, c);
  }

  lemma FewerTypes(value: Json, v: Json)
    requires IsType(value) && TypeAllows(WithNull(value), v) && v != Null
    ensures TypeAllows(value, v)
  {
    assert !HasType("null", v);
    var n :| n in WithNull(value).items && n.Str? && HasType(n.text, v);
    assert n != Str("null");
    if value.Arr? {
      assert n in value.items;
    }
  }

  lemma TypedGivesBack(m: Meaning, s: Schema, v: Json)
    requires AnnotationsHold(m) && Typed(s) && v != Null
    requires Accepts(m, Obj(Nullable(s, Strict(Obj(s)).fields)), v)
    ensures Accepts(m, Strict(Obj(s)), v)
  {
    TypedKeys(s);
    WalkedKeys(s);
    NoConst(s);
    var now := Strict(Obj(s)).fields;
    if "enum" in s {
      assert Nullable(s, now) == map["anyOf" := Arr([Obj(now), NULL_TYPE])] by { NullableWrapped(s, now); }
      hide Strict, Accepts, Nullable;
      WrappedGivesBack(m, now, v);
    } else if !NamesType(s["type"], "null") {
      assert Nullable(s, now) == now["type" := WithNull(s["type"])];
      hide Strict, Accepts, Nullable, Typed;
      RetypedGivesBack(m, now, v);
    }
  }

  lemma RetypedGivesBack(m: Meaning, now: Schema, v: Json)
    requires AnnotationsHold(m) && (forall k | k in now :: PlainKey(k)) && "type" in now && IsType(now["type"])
    requires v != Null && Accepts(m, Obj(now["type" := WithNull(now["type"])]), v)
    ensures Accepts(m, Obj(now), v)
  {
    hide PlainKey, Accepts, Annotates, WithNull, TypeAllows, IsType;
    var made := now["type" := WithNull(now["type"])];
    TypeOf(m, made, v);
    FewerTypes(now["type"], v);
    RetypedAccepts(m, made, now["type"], v);
    assert made["type" := now["type"]] == now;
  }

  /** Making a node nullable adds null to what it accepts, and nothing else. */
  lemma NullableAddsNullOnly(m: Meaning, s: Schema, v: Json)
    requires AnnotationsHold(m) && Plain(s) && v != Null && Accepts(m, StrictProperty(Obj(s), true), v)
    ensures Accepts(m, Strict(Obj(s)), v)
  {
    hide Strict, StrictProperty, Accepts, Typed, Annotates, Nullable, Union, Anything;
    MissingProperty(s);
    if Union(s) {
      UnionGivesBack(m, s, v);
    } else if Typed(s) {
      TypedGivesBack(m, s, v);
    } else {
      AnythingNullable(s, Strict(Obj(s)).fields);
      if s != map[] {
        WrappedGivesBack(m, Strict(Obj(s)).fields, v);
      }
    }
  }

  // ----- Leaving null out -----

  /** An instance that fits the schema and is the given one but for members that are null there. */
  ghost predicate GivesBack(j: Json, w: Json) { exists v :: IsTrimmed(j, v, w) }

  predicate IsTrimmed(j: Json, v: Json, w: Json) { Fits(j, v) && Extends(v, w) }

  ghost function Trimmed(j: Json, w: Json): (v: Json)
    requires GivesBack(j, w)
    ensures IsTrimmed(j, v, w)
  {
    var v :| IsTrimmed(j, v, w);
    v
  }

  /** What the strict form accepts is, with some null members left out, what the tool's own schema
      accepts: the walk narrows nothing but absence. */
  lemma StrictAcceptsOnlyWhatFits(m: Meaning, j: Json, w: Json)
    requires AnnotationsHold(m) && Everywhere(Plain, j) && j.Obj? && Accepts(m, Strict(j), w)
    ensures exists v :: Accepts(m, j, v) && Closed(m, j, v) && Extends(v, w)
  {
    hide *;
    StrictGivesBack(m, j, w);
    assert GivesBack(j, w) && IsTrimmed(j, Trimmed(j, w), w);
    var v := Trimmed(j, w);
    assert Fits(j, v) && Extends(v, w) by { Parts(j, v, w); }
    FitsExactlyWhenClosed(m, j, v);
  }

  lemma Parts(j: Json, v: Json, w: Json)
    requires IsTrimmed(j, v, w)
    ensures Fits(j, v) && Extends(v, w)
  {
  }

  lemma {:induction false} StrictGivesBack(m: Meaning, j: Json, w: Json)
    requires AnnotationsHold(m) && Everywhere(Plain, j) && j.Obj? && Accepts(m, Strict(j), w)
    ensures GivesBack(j, w)
    decreases j, 2
  {
    hide Strict, Accepts, Extends, Typed, Annotates;
    var s := j.fields;
    if Union(s) {
      var i := WalkedChoice(m, s, w);
      var c := s["anyOf"].items[i];
      UnderUnion(s, c);
      StrictGivesBack(m, c, w);
      assert IsTrimmed(j, Trimmed(c, w), w);
    } else if Typed(s) {
      TypedGivesBackTrimmed(m, s, w);
    } else {
      AnythingKeys(s);
      ExtendsItself(w);
      assert IsTrimmed(j, w, w);
    }
  }

  lemma WalkedChoice(m: Meaning, s: Schema, w: Json) returns (i: nat)
    requires Union(s) && Accepts(m, Strict(Obj(s)), w)
    ensures i < |s["anyOf"].items| && Accepts(m, Strict(s["anyOf"].items[i]), w)
  {
    WalkedUnion(s);
    var t := Strict(Obj(s)).fields;
    assert Holds(m, t, "anyOf", w);
    AnyOfAccepts(m, t, w);
    hide Accepts, Holds, Strict, Annotates;
    var c :| c in t["anyOf"].items && Accepts(m, c, w);
    i :| 0 <= i < |t["anyOf"].items| && t["anyOf"].items[i] == c;
  }

  lemma FenceAdded(s: Schema)
    requires HasTypeName(s, "object") && Typed(s)
    ensures var t := Strict(Obj(s)).fields;
            "additionalProperties" in t && t["additionalProperties"] == Bool(false) && "patternProperties" !in t
  {
    WalkedKeys(s);
    PatternsAreNotPlain();
    StrictAt(s, "additionalProperties");
  }

  lemma RequiredStays(s: Schema, n: string)
    requires Typed(s) && HasTypeName(s, "object") && n in Required(s)
    ensures n in Required(Strict(Obj(s)).fields)
  {
    StrictAt(s, "required");
    if Declares(s) {
      TextsInTexts(RequiredNow(s));
    } else {
      RequiredUnder(s["required"]);
    }
  }

  /** The member is left out: it is optional, and null. */
  predicate LeftOut(s: Schema, w: map<string, Json>, n: string)
    requires n in w
  {
    Declares(s) && n in Missing(s) && w[n] == Null
  }

  ghost predicate MembersGiveBack(s: Schema, w: map<string, Json>) {
    forall n | n in w && !LeftOut(s, w, n) :: n in Properties(s) && GivesBack(Properties(s)[n], w[n])
  }

  ghost function TrimmedMembers(s: Schema, w: map<string, Json>): map<string, Json>
    requires MembersGiveBack(s, w)
  {
    map n | n in w && !LeftOut(s, w, n) :: Trimmed(Properties(s)[n], w[n])
  }

  lemma {:induction false} MembersTrimmed(m: Meaning, s: Schema, w: map<string, Json>)
    requires AnnotationsHold(m) && Everywhere(Plain, Obj(s)) && Typed(s) && HasTypeName(s, "object")
    requires Accepts(m, Strict(Obj(s)), Obj(w))
    ensures MembersGiveBack(s, w)
    decreases Obj(s), 0
  {
    var t := Strict(Obj(s)).fields;
    FenceAdded(s);
    WalkedProperties(s);
    TypedKeys(s);
    FenceOf(m, t, Obj(w));
    PropertiesOf(m, t, Obj(w));
    hide Strict, Accepts, Typed, Annotates, StrictProperty;
    forall n | n in w && !LeftOut(s, w, n)
      ensures n in Properties(s) && GivesBack(Properties(s)[n], w[n])
    {
      UnderTyped(s, n);
      var j := Properties(s)[n];
      if n in Missing(s) {
        NullableAddsNullOnly(m, j.fields, w[n]);
      } else {
        UnmissedProperty(j);
      }
      StrictGivesBack(m, j, w[n]);
    }
  }

  lemma RequiredKept(m: Meaning, s: Schema, w: map<string, Json>)
    requires Typed(s) && HasTypeName(s, "object") && MembersGiveBack(s, w) && Accepts(m, Strict(Obj(s)), Obj(w))
    ensures forall n | n in Required(s) :: n in TrimmedMembers(s, w)
  {
    hide Strict, Accepts, Typed;
    RequiredOf(m, Strict(Obj(s)).fields, Obj(w));
    forall n | n in Required(s)
      ensures n in TrimmedMembers(s, w)
    {
      RequiredStays(s, n);
    }
  }

  lemma MembersFit(s: Schema, w: map<string, Json>)
    requires Typed(s) && HasTypeName(s, "object") && MembersGiveBack(s, w)
    requires forall n | n in Required(s) :: n in TrimmedMembers(s, w)
    ensures FitsObject(s, TrimmedMembers(s, w)) && Extends(Obj(TrimmedMembers(s, w)), Obj(w))
  {
    hide Typed, HasTypeName;
    var v := TrimmedMembers(s, w);
    forall n | n in v
      ensures n in w && n in Properties(s) && Fits(Properties(s)[n], v[n]) && Extends(v[n], w[n])
    {
      assert IsTrimmed(Properties(s)[n], v[n], w[n]);
    }
    assert forall n | n in w && n !in v :: w[n] == Null;
  }

  lemma ObjectTrimmed(m: Meaning, s: Schema, w: map<string, Json>)
    requires Typed(s) && HasTypeName(s, "object") && "enum" !in s && MembersGiveBack(s, w)
    requires Accepts(m, Strict(Obj(s)), Obj(w)) && TypeAllows(s["type"], Obj(w))
    ensures GivesBack(Obj(s), Obj(w))
  {
    var v := TrimmedMembers(s, w);
    RequiredKept(m, s, w);
    MembersFit(s, w);
    TypedKeys(s);
    SameKind(s["type"], Obj(w), Obj(v));
    hide Strict, Accepts, Typed, TypeAllows, FitsObject, Extends, MembersGiveBack, TrimmedMembers, PlainKey;
    assert Fits(Obj(s), Obj(v));
    assert IsTrimmed(Obj(s), Obj(v), Obj(w));
  }

  ghost predicate ItemsGiveBack(j: Json, w: seq<Json>) { forall i | 0 <= i < |w| :: GivesBack(j, w[i]) }

  lemma ArrayTrimmed(s: Schema, w: seq<Json>)
    requires Typed(s) && "enum" !in s && "items" in s && ItemsGiveBack(s["items"], w)
    requires TypeAllows(s["type"], Arr(w))
    ensures GivesBack(Obj(s), Arr(w))
  {
    var v := seq(|w|, i requires 0 <= i < |w| => Trimmed(s["items"], w[i]));
    TypedKeys(s);
    assert TypeAllows(s["type"], Arr(v)) by { SameKind(s["type"], Arr(w), Arr(v)); }
    hide Typed, TypeAllows;
    assert forall i | 0 <= i < |v| :: IsTrimmed(s["items"], v[i], w[i]);
    assert IsTrimmed(Obj(s), Arr(v), Arr(w));
  }

  lemma LeafTrimmed(s: Schema, w: Json)
    requires Typed(s) && TypeAllows(s["type"], w) && ("enum" in s ==> Lists(s, "enum") && w in s["enum"].items)
    requires !w.Obj? && (w.Arr? ==> "items" !in s)
    ensures GivesBack(Obj(s), w)
  {
    TypedKeys(s);
    ExtendsItself(w);
    hide Typed, TypeAllows, Extends, TypedField, PlainKey, Scalar, IsType;
    assert Fits(Obj(s), w);
    assert IsTrimmed(Obj(s), w, w);
  }

  lemma TypeAndEnumOf(m: Meaning, s: Schema, w: Json)
    requires Typed(s) && Accepts(m, Strict(Obj(s)), w)
    ensures TypeAllows(s["type"], w) && (w.Obj? ==> HasTypeName(s, "object"))
    ensures "enum" in s ==> Lists(s, "enum") && w in s["enum"].items && Scalar(w)
  {
    TypedKeys(s);
    WalkedKeys(s);
    var t := Strict(Obj(s)).fields;
    TypeOf(m, t, w);
    ObjectTyped(s["type"], w);
    hide Strict, Accepts, Typed, TypeAllows, IsType;
    if "enum" in s {
      EnumOf(m, t, w);
    }
  }

  lemma WalkedItems(m: Meaning, s: Schema, w: seq<Json>)
    requires Typed(s) && "items" in s && Accepts(m, Strict(Obj(s)), Arr(w))
    ensures forall i | 0 <= i < |w| :: Accepts(m, Strict(s["items"]), w[i])
  {
    WalkedKeys(s);
    PrefixIsNotPlain();
    hide Strict, Typed;
    ItemsOf(m, Strict(Obj(s)).fields, Arr(w));
  }

  lemma {:induction false} TypedGivesBackTrimmed(m: Meaning, s: Schema, w: Json)
    requires AnnotationsHold(m) && Everywhere(Plain, Obj(s)) && Typed(s) && Accepts(m, Strict(Obj(s)), w)
    ensures GivesBack(Obj(s), w)
    decreases Obj(s), 1
  {
    TypeAndEnumOf(m, s, w);
    TypedKeys(s);
    hide Strict, Accepts, Typed, TypedField, Annotates, TypeAllows, IsType, GivesBack, PlainKey;
    if w.Obj? {
      MembersTrimmed(m, s, w.fields);
      ObjectTrimmed(m, s, w.fields);
    } else if w.Arr? && "items" in s {
      WalkedItems(m, s, w.items);
      UnderTyped(s, "");
      forall i | 0 <= i < |w.items|
        ensures GivesBack(s["items"], w.items[i])
      {
        StrictGivesBack(m, s["items"], w.items[i]);
      }
      ArrayTrimmed(s, w.items);
    } else {
      LeafTrimmed(s, w);
    }
  }

  // ----- What the walk leaves alone -----

  /** Everything a node says beside its subschemas and its requirements stays, word for word;
      the marks of a document of its own go. */
  lemma RestOfTheNodeStays(s: Schema, k: string)
    requires !HoldsNamed(k) && !HoldsOne(k) && !HoldsList(k) && k !in ["required", "$id", "$schema"]
    ensures var t := Strict(Obj(s)).fields;
            && (k in t <==> k in s) && (k in s ==> t[k] == s[k])
            && "$id" !in t && "$schema" !in t
  {
    StrictAt(s, k);
    StrictAt(s, "$id");
    StrictAt(s, "$schema");
  }

  predicate Says(j: Json, k: string, value: Json) { j.Obj? && k in j.fields && j.fields[k] == value }

  /** An optional property keeps its description, on itself or on the alternative beside null. */
  lemma DescriptionStays(s: Schema, missing: bool)
    requires "description" in s
    ensures var p := StrictProperty(Obj(s), missing);
            || Says(p, "description", s["description"])
            || (p.Obj? && p.fields.Keys == {"anyOf"} && Lists(p.fields, "anyOf") && |p.fields["anyOf"].items| == 2
                && Says(p.fields["anyOf"].items[0], "description", s["description"])
                && p.fields["anyOf"].items[1] == Obj(map["type" := Str("null")]))
  {
    RestOfTheNodeStays(s, "description");
    if missing {
      MissingProperty(s);
      hide Strict;
    } else {
      UnmissedProperty(Obj(s));
    }
  }
}
