/** The strict form of a tool schema: every object node requires all it declares, and
    what was optional may be null instead of absent. */
module StrictSchema {
  import opened JsonSchema
  import Names

  const NULL_TYPE := Obj(map["type" := Str("null")])

  // ----- One node -----

  predicate NamesType(value: Json, name: string) { value == Str(name) || (value.Arr? && Str(name) in value.items) }

  predicate HasTypeName(s: Schema, name: string) { "type" in s && NamesType(s["type"], name) }

  predicate Lists(s: Schema, k: string) { k in s && s[k].Arr? }

  /** An object node with properties of its own. */
  predicate Declares(s: Schema) {
    HasTypeName(s, "object") && "properties" in s && s["properties"].Obj? && s["properties"].fields != map[]
  }

  function TextsIn(items: seq<Json>): seq<string> {
    if items == [] then []
    else TextsIn(items[..|items| - 1]) + if items[|items| - 1].Str? then [items[|items| - 1].text] else []
  }

  /** The names a node requires, in their order; entries that are no strings are dropped. */
  function Required(s: Schema): seq<string> { if Lists(s, "required") then TextsIn(s["required"].items) else [] }

  function Texts(names: seq<string>): seq<Json> { seq(|names|, i requires 0 <= i < |names| => Str(names[i])) }

  function Missing(s: Schema): set<string>
    requires Declares(s)
  {
    set n | n in s["properties"].fields && n !in Required(s)
  }

  /** Required first in their order, then everything else that is declared, in name order. */
  ghost function RequiredNow(s: Schema): seq<string>
    requires Declares(s)
  {
    Required(s) + Names.InOrder(Missing(s))
  }

  predicate SomeTakesNull(items: seq<Json>) { exists c | c in items :: c.Obj? && HasTypeName(c.fields, "null") }

  /** What making `was` nullable turns `now` into, where `now` is `was` itself or its strict
      form: the tests look at `was`, and what they choose is built from `now`. */
  function Nullable(was: Schema, now: Schema): Schema {
    var wrapped := map["anyOf" := Arr([Obj(now), NULL_TYPE])];
    if Lists(was, "anyOf") then NullableList(was, now, "anyOf")
    else if Lists(was, "oneOf") then NullableList(was, now, "oneOf")
    else if "type" !in was then if was == map[] then now else wrapped
    else if "enum" in was || "const" in was then wrapped
    else
      match was["type"]
      case Str(t) => if t == "null" then now else now["type" := Arr([Str(t), Str("null")])]
      case Arr(ts) => if Str("null") in ts then now else now["type" := Arr(ts + [Str("null")])]
      case _ => now
  }

  function NullableList(was: Schema, now: Schema, k: string): Schema
    requires Lists(was, k)
  {
    if SomeTakesNull(was[k].items) || !Lists(now, k) then now else now[k := Arr(now[k].items + [NULL_TYPE])]
  }

  function MakeNullable(j: Json): Json { if j.Obj? then Obj(Nullable(j.fields, j.fields)) else j }

  // ----- The walk -----

  ghost function Strict(j: Json): (r: Json)
    ensures r.Obj? <==> j.Obj?
    decreases j, 2
  {
    match j
    case Obj(s) => Obj(map k | k in s.Keys + {"required", "additionalProperties"} && Keeps(s, k) :: StrictField(s, k))
    case _ => j
  }

  predicate Keeps(s: Schema, k: string) {
    && k != "$id" && k != "$schema"
    && (k in s || (k == "required" && Declares(s)) || (k == "additionalProperties" && HasTypeName(s, "object")))
  }

  ghost function StrictField(s: Schema, k: string): Json
    requires Keeps(s, k)
    decreases Obj(s), 1
  {
    if k == "required" && Declares(s) then Arr(Texts(RequiredNow(s)))
    else if k == "additionalProperties" && (Declares(s) || k !in s) then Bool(false)
    else if k == "properties" && Declares(s) then
      Obj(map n | n in s[k].fields :: StrictProperty(s[k].fields[n], n in Missing(s)))
    else StrictUnder(k, s[k])
  }

  ghost function StrictProperty(j: Json, missing: bool): Json
    decreases j, 3
  {
    if missing && j.Obj? then Obj(Nullable(j.fields, Strict(j).fields)) else Strict(j)
  }

  ghost function StrictAll(items: seq<Json>): (r: seq<Json>)
    decreases items, 3
  {
    seq(|items|, i requires 0 <= i < |items| => Strict(items[i]))
  }

  ghost function StrictUnder(k: string, value: Json): Json
    decreases value, 3
  {
    if HoldsNamed(k) && value.Obj? then Obj(map n | n in value.fields :: Strict(value.fields[n]))
    else if HoldsOne(k) then Strict(value)
    else if HoldsList(k) && value.Arr? then Arr(StrictAll(value.items))
    else value
  }

  lemma StrictAt(s: Schema, k: string)
    ensures var t := Strict(Obj(s)).fields; (k in t <==> Keeps(s, k)) && (k in t ==> t[k] == StrictField(s, k))
  {
    hide StrictField;
  }

  // ----- Making nullable before or after the walk -----

  /** A field the walk of an object node does not look at can be set before the walk or after it. */
  lemma SetField(s: Schema, k: string, value: Json)
    requires k !in ["properties", "required", "additionalProperties", "$id", "$schema"]
    requires HasTypeName(s[k := value], "object") <==> HasTypeName(s, "object")
    ensures Strict(Obj(s[k := value])) == Obj(Strict(Obj(s)).fields[k := StrictUnder(k, value)])
  {
    var u := s[k := value];
    var t, r := Strict(Obj(s)).fields, Strict(Obj(u)).fields;
    forall h
      ensures (h in r <==> h in t || h == k) && (h in r ==> r[h] == if h == k then StrictUnder(k, value) else t[h])
    {
      SetFieldAt(s, k, value, h);
    }
    hide Strict;
    assert r == t[k := StrictUnder(k, value)];
  }

  lemma SetFieldAt(s: Schema, k: string, value: Json, h: string)
    requires k !in ["properties", "required", "additionalProperties", "$id", "$schema"]
    requires HasTypeName(s[k := value], "object") <==> HasTypeName(s, "object")
    ensures var t, r := Strict(Obj(s)).fields, Strict(Obj(s[k := value])).fields;
            (h in r <==> h in t || h == k) && (h in r ==> r[h] == if h == k then StrictUnder(k, value) else t[h])
  {
    var u := s[k := value];
    StrictAt(s, h);
    StrictAt(u, h);
    hide Strict, StrictUnder, HasTypeName;
    assert Declares(u) <==> Declares(s);
    assert Required(u) == Required(s);
    if Declares(s) {
      assert Missing(u) == Missing(s);
    }
  }

  lemma StrictPlain(s: Schema)
    requires forall k | k in s ::
               k !in ["properties", "required", "additionalProperties", "$id", "$schema"]
               && StrictUnder(k, s[k]) == s[k]
    requires !HasTypeName(s, "object")
    ensures Strict(Obj(s)) == Obj(s)
  {
    var t := Strict(Obj(s)).fields;
    forall k
      ensures (k in t <==> k in s) && (k in t ==> t[k] == s[k])
    {
      StrictAt(s, k);
    }
    hide Strict;
    assert t == s;
  }

  lemma StrictNullType()
    ensures Strict(NULL_TYPE) == NULL_TYPE
  {
    StrictPlain(NULL_TYPE.fields);
  }

  lemma NullLast(items: seq<Json>)
    ensures StrictAll(items + [NULL_TYPE]) == StrictAll(items) + [NULL_TYPE]
  {
    StrictNullType();
    hide Strict;
    var more := items + [NULL_TYPE];
    forall i | 0 <= i < |more|
      ensures StrictAll(more)[i] == (StrictAll(items) + [NULL_TYPE])[i]
    {
      assert i < |items| ==> more[i] == items[i];
    }
  }

  lemma StrictUnion(items: seq<Json>)
    ensures Strict(Obj(map["anyOf" := Arr(items)])) == Obj(map["anyOf" := Arr(StrictAll(items))])
  {
    var none: Schema := map[];
    StrictPlain(none);
    ListUnder("anyOf", Arr(items));
    SetField(none, "anyOf", Arr(items));
    hide Strict, StrictUnder, StrictAll;
    var value := StrictUnder("anyOf", Arr(items));
    assert none["anyOf" := Arr(items)] == map["anyOf" := Arr(items)];
    assert none["anyOf" := value] == map["anyOf" := value];
    assert value == Arr(StrictAll(items));
  }

  lemma StrictWrapped(j: Json)
    ensures Strict(Obj(map["anyOf" := Arr([j, NULL_TYPE])])) == Obj(map["anyOf" := Arr([Strict(j), NULL_TYPE])])
  {
    var items := [j, NULL_TYPE];
    StrictNullType();
    hide Strict;
    StrictUnion(items);
    assert StrictAll(items)[0] == Strict(j) && StrictAll(items)[1] == NULL_TYPE;
    assert StrictAll(items) == [Strict(j), NULL_TYPE];
  }

  lemma StrictListField(s: Schema, k: string)
    requires k == "anyOf" || k == "oneOf"
    ensures var t := Strict(Obj(s)).fields; (k in t <==> k in s) && (k in s ==> t[k] == StrictUnder(k, s[k]))
  {
    StrictAt(s, k);
  }

  lemma ListUnder(k: string, value: Json)
    requires k == "anyOf" || k == "oneOf"
    ensures StrictUnder(k, value) == if value.Arr? then Arr(StrictAll(value.items)) else value
  {
  }

  lemma StrictNullableList(was: Schema, s: Schema, k: string)
    requires (k == "anyOf" || k == "oneOf") && Lists(was, k)
    ensures Strict(Obj(NullableList(was, s, k))) == Obj(NullableList(was, Strict(Obj(s)).fields, k))
  {
    hide Strict, StrictUnder, SomeTakesNull;
    StrictListField(s, k);
    if k in s {
      ListUnder(k, s[k]);
    }
    if !SomeTakesNull(was[k].items) && Lists(s, k) {
      var more := s[k].items + [NULL_TYPE];
      ListUnder(k, Arr(more));
      SetField(s, k, Arr(more));
      NullLast(s[k].items);
    }
  }

  lemma StrictRetyped(s: Schema, value: Json)
    requires "type" in s && (NamesType(value, "object") <==> NamesType(s["type"], "object"))
    ensures Strict(Obj(s["type" := value])) == Obj(Strict(Obj(s)).fields["type" := value])
  {
    SetField(s, "type", value);
    TypeUnder(value);
  }

  lemma TypeUnder(value: Json)
    ensures StrictUnder("type", value) == value
  {
  }

  lemma NullTypes(t: string, ts: seq<Json>)
    ensures NamesType(Arr([Str(t), Str("null")]), "object") <==> t == "object"
    ensures NamesType(Arr(ts + [Str("null")]), "object") <==> Str("object") in ts
  {
  }

  /** Making a node nullable and then walking it is the same as walking it and then
      making it nullable by what it was. */
  lemma WalkCommutesWithNullable(was: Schema, s: Schema)
    requires "type" in was ==> "type" in s && s["type"] == was["type"]
    ensures Strict(Obj(Nullable(was, s))) == Obj(Nullable(was, Strict(Obj(s)).fields))
  {
    hide Strict;
    if Lists(was, "anyOf") {
      StrictNullableList(was, s, "anyOf");
    } else if Lists(was, "oneOf") {
      StrictNullableList(was, s, "oneOf");
    } else if "type" !in was || "enum" in was || "const" in was {
      StrictWrapped(Obj(s));
    } else {
      match was["type"]
      case Str(t) =>
        NullTypes(t, []);
        if t != "null" {
          StrictRetyped(s, Arr([Str(t), Str("null")]));
        }
      case Arr(ts) =>
        NullTypes("", ts);
        if Str("null") !in ts {
          StrictRetyped(s, Arr(ts + [Str("null")]));
        }
      case _ =>
    }
  }

  /** So a property walked after it was made nullable comes out as the walk here has it. */
  lemma PropertyIsWalkedNullable(j: Json)
    ensures StrictProperty(j, true) == Strict(MakeNullable(j)) && StrictProperty(j, false) == Strict(j)
  {
    if j.Obj? {
      WalkCommutesWithNullable(j.fields, j.fields);
    }
  }

  // ----- Walking twice -----

  lemma {:induction false} TextsInTexts(names: seq<string>)
    ensures TextsIn(Texts(names)) == names
  {
    if names != [] {
      var before := names[..|names| - 1];
      TextsInTexts(before);
      assert Texts(names)[..|names| - 1] == Texts(before);
    }
  }

  lemma TypeKept(s: Schema, name: string)
    ensures var t := Strict(Obj(s)).fields;
            && ("type" in t <==> "type" in s) && ("type" in s ==> t["type"] == s["type"])
            && (HasTypeName(t, name) <==> HasTypeName(s, name))
  {
    StrictAt(s, "type");
    if "type" in s {
      TypeUnder(s["type"]);
    }
  }

  lemma DeclaresKept(s: Schema)
    ensures Declares(Strict(Obj(s)).fields) <==> Declares(s)
    ensures Declares(s) ==> Strict(Obj(s)).fields["properties"].fields.Keys == s["properties"].fields.Keys
  {
    TypeKept(s, "object");
    StrictAt(s, "properties");
    hide Strict, HasTypeName, StrictProperty;
    if "properties" in s {
      PropertiesUnder(s["properties"]);
    }
  }

  lemma PropertiesUnder(value: Json)
    ensures StrictUnder("properties", value).Obj? <==> value.Obj?
    ensures value.Obj? ==> StrictUnder("properties", value) == Obj(map n | n in value.fields :: Strict(value.fields[n]))
  {
    if !value.Obj? {
      assert StrictUnder("properties", value) == value;
    }
  }

  lemma NothingMissing(s: Schema)
    requires Declares(s) && Declares(Strict(Obj(s)).fields)
    ensures var t := Strict(Obj(s)).fields;
            Required(t) == RequiredNow(s) && Missing(t) == {} && RequiredNow(t) == RequiredNow(s)
  {
    DeclaresKept(s);
    StrictAt(s, "required");
    TextsInTexts(RequiredNow(s));
  }

  lemma WalkedTwice(k: string, value: Json)
    requires forall c | c in Under(k, value) :: Strict(Strict(c)) == Strict(c)
    ensures StrictUnder(k, StrictUnder(k, value)) == StrictUnder(k, value)
  {
    hide Strict;
    var once := StrictUnder(k, value);
    var twice := StrictUnder(k, once);
    if HoldsNamed(k) && value.Obj? {
      forall n | n in value.fields
        ensures twice.fields[n] == once.fields[n]
      {
        assert value.fields[n] in Under(k, value);
      }
      assert twice.fields == once.fields;
    } else if !HoldsOne(k) && HoldsList(k) && value.Arr? {
      assert once == Arr(StrictAll(value.items)) && twice == Arr(StrictAll(once.items));
      forall i | 0 <= i < |value.items|
        ensures twice.items[i] == once.items[i]
      {
        assert value.items[i] in Under(k, value);
      }
      assert twice.items == once.items;
    }
  }

  lemma PropertyTwice(j: Json, missing: bool)
    requires Strict(Strict(j)) == Strict(j)
    ensures Strict(StrictProperty(j, missing)) == StrictProperty(j, missing)
  {
    if missing && j.Obj? {
      TypeKept(j.fields, "object");
      hide Strict, Nullable;
      WalkCommutesWithNullable(j.fields, Strict(j).fields);
    }
  }

  ghost predicate ChildrenFixed(s: Schema) {
    forall h, c | h in s && c in Under(h, s[h]) :: Strict(Strict(c)) == Strict(c)
  }

  lemma KeysTwice(s: Schema, k: string)
    ensures var t := Strict(Obj(s)).fields; Keeps(t, k) <==> k in t
  {
    TypeKept(s, "object");
    DeclaresKept(s);
    StrictAt(s, k);
    hide Strict, StrictField, HasTypeName, Declares;
  }

  lemma RequiredTwice(s: Schema)
    requires Declares(s)
    ensures var t := Strict(Obj(s)).fields;
            "required" in t && Keeps(t, "required") && StrictField(t, "required") == t["required"]
  {
    DeclaresKept(s);
    NothingMissing(s);
    StrictAt(s, "required");
    hide Strict, Declares, RequiredNow;
  }

  lemma DeclaredField(s: Schema)
    requires Declares(s)
    ensures Keeps(s, "properties") && StrictField(s, "properties").Obj?
    ensures var r := StrictField(s, "properties").fields;
            && r.Keys == s["properties"].fields.Keys
            && forall n | n in r :: r[n] == StrictProperty(s["properties"].fields[n], n in Missing(s))
  {
  }

  lemma PropertiesTwice(s: Schema)
    requires Declares(s) && ChildrenFixed(s)
    ensures var t := Strict(Obj(s)).fields;
            "properties" in t && Keeps(t, "properties") && StrictField(t, "properties") == t["properties"]
  {
    var t := Strict(Obj(s)).fields;
    DeclaresKept(s);
    NothingMissing(s);
    StrictAt(s, "properties");
    DeclaredField(s);
    DeclaredField(t);
    hide Strict, Declares, Missing, StrictField, StrictProperty, Under, Keeps;
    var props := s["properties"].fields;
    forall n | n in props
      ensures StrictProperty(t["properties"].fields[n], false) == t["properties"].fields[n]
    {
      InProperties(s["properties"], n);
      PropertyTwice(props[n], n in Missing(s));
      UnmissedProperty(t["properties"].fields[n]);
    }
    assert StrictField(t, "properties").fields == t["properties"].fields;
  }

  lemma UnmissedProperty(j: Json)
    ensures StrictProperty(j, false) == Strict(j)
  {
  }

  lemma InProperties(value: Json, n: string)
    requires value.Obj? && n in value.fields
    ensures value.fields[n] in Under("properties", value)
  {
  }

  lemma FenceTwice(s: Schema)
    requires ChildrenFixed(s) && "additionalProperties" in Strict(Obj(s)).fields
    ensures var t, k := Strict(Obj(s)).fields, "additionalProperties"; Keeps(t, k) && StrictField(t, k) == t[k]
  {
    var t, k := Strict(Obj(s)).fields, "additionalProperties";
    KeysTwice(s, k);
    DeclaresKept(s);
    StrictAt(s, k);
    FenceUnder(Bool(false));
    hide Strict, Declares, HasTypeName;
    if !Declares(s) && k in s {
      FenceUnder(s[k]);
      FenceUnder(Strict(s[k]));
      assert s[k] in Under(k, s[k]);
    }
  }

  lemma FenceUnder(value: Json)
    ensures StrictUnder("additionalProperties", value) == Strict(value)
    ensures Strict(Bool(false)) == Bool(false)
  {
  }

  lemma OtherTwice(s: Schema, k: string)
    requires ChildrenFixed(s) && k in Strict(Obj(s)).fields && k != "additionalProperties"
    requires Declares(s) ==> k != "required" && k != "properties"
    ensures var t := Strict(Obj(s)).fields; Keeps(t, k) && StrictField(t, k) == t[k]
  {
    KeysTwice(s, k);
    DeclaresKept(s);
    StrictAt(s, k);
    hide Strict, Declares, HasTypeName, StrictUnder;
    WalkedTwice(k, s[k]);
  }

  lemma FieldTwice(s: Schema, k: string)
    requires ChildrenFixed(s)
    ensures var t := Strict(Obj(s)).fields;
            (Keeps(t, k) <==> k in t) && (k in t ==> StrictField(t, k) == t[k])
  {
    KeysTwice(s, k);
    hide Strict, StrictField, Declares, ChildrenFixed;
    if k in Strict(Obj(s)).fields {
      if Declares(s) && k == "required" {
        RequiredTwice(s);
      } else if Declares(s) && k == "properties" {
        PropertiesTwice(s);
      } else if k == "additionalProperties" {
        FenceTwice(s);
      } else {
        OtherTwice(s, k);
      }
    }
  }

  /** Walking a schema that was walked changes nothing. */
  lemma {:induction false} StrictIsIdempotent(j: Json)
    ensures Strict(Strict(j)) == Strict(j)
    decreases j
  {
    if j.Obj? {
      var s := j.fields;
      forall h, c | h in s && c in Under(h, s[h])
        ensures Strict(Strict(c)) == Strict(c)
      {
        StrictIsIdempotent(c);
      }
      NodeTwice(s);
    }
  }

  lemma NodeTwice(s: Schema)
    requires ChildrenFixed(s)
    ensures Strict(Strict(Obj(s))) == Strict(Obj(s))
  {
    var t := Strict(Obj(s)).fields;
    var u := Strict(Obj(t)).fields;
    forall k
      ensures (k in u <==> k in t) && (k in u ==> u[k] == t[k])
    {
      FieldTwice(s, k);
      StrictAt(t, k);
    }
    hide Strict;
    assert u == t;
  }

  // ----- What every node looks like -----

  /** An object node requires all it declares and lets nothing else in. */
  predicate StrictNode(s: Schema) {
    && "$id" !in s && "$schema" !in s
    && (HasTypeName(s, "object") ==> "additionalProperties" in s)
    && (Declares(s) ==>
          s["additionalProperties"] == Bool(false) && forall n | n in s["properties"].fields :: n in Required(s))
  }

  lemma NodeIsStrict(s: Schema)
    ensures StrictNode(Strict(Obj(s)).fields)
  {
    var t := Strict(Obj(s)).fields;
    StrictAt(s, "$id");
    StrictAt(s, "$schema");
    StrictAt(s, "additionalProperties");
    TypeKept(s, "object");
    DeclaresKept(s);
    if Declares(s) {
      NothingMissing(s);
    }
    hide Strict;
  }

  lemma NullTypeIsStrict()
    ensures Everywhere(StrictNode, NULL_TYPE)
  {
    assert Under("type", Str("null")) == {};
  }

  /** Changing one field that holds no object type, properties or requirements keeps a node strict. */
  lemma StrictWith(s: Schema, k: string, value: Json)
    requires Everywhere(StrictNode, Obj(s))
             && k !in ["properties", "required", "additionalProperties", "$id", "$schema"]
    requires HasTypeName(s[k := value], "object") <==> HasTypeName(s, "object")
    requires forall c | c in Under(k, value) :: Everywhere(StrictNode, c)
    ensures Everywhere(StrictNode, Obj(s[k := value]))
  {
    var u := s[k := value];
    hide Under, HasTypeName;
    assert StrictNode(s);
    assert Required(u) == Required(s);
    assert StrictNode(u);
    forall h, c | h in u && c in Under(h, u[h])
      ensures Everywhere(StrictNode, c)
    {
      assert h != k ==> h in s && u[h] == s[h];
    }
  }

  lemma InListOf(k: string, items: seq<Json>, c: Json)
    requires k == "anyOf" || k == "oneOf"
    ensures c in Under(k, Arr(items)) <==> c in items
  {
  }

  lemma NullableListStrict(was: Schema, now: Schema, k: string)
    requires (k == "anyOf" || k == "oneOf") && Lists(was, k) && Everywhere(StrictNode, Obj(now))
    ensures Everywhere(StrictNode, Obj(NullableList(was, now, k)))
  {
    if Lists(now, k) {
      var more := Arr(now[k].items + [NULL_TYPE]);
      forall c | c in Under(k, more)
        ensures Everywhere(StrictNode, c)
      {
        NullTypeIsStrict();
        InListOf(k, more.items, c);
        InListOf(k, now[k].items, c);
      }
      hide Under;
      StrictWith(now, k, more);
    }
  }

  lemma UnionStrict(j: Json)
    requires Everywhere(StrictNode, j)
    ensures Everywhere(StrictNode, Obj(map["anyOf" := Arr([j, NULL_TYPE])]))
  {
    NullTypeIsStrict();
    forall c | c in Under("anyOf", Arr([j, NULL_TYPE]))
      ensures Everywhere(StrictNode, c)
    {
      InListOf("anyOf", [j, NULL_TYPE], c);
    }
    hide Under;
    assert StrictNode(map["anyOf" := Arr([j, NULL_TYPE])]);
  }

  lemma RetypedStrict(s: Schema, value: Json)
    requires Everywhere(StrictNode, Obj(s)) && "type" in s
             && (NamesType(value, "object") <==> NamesType(s["type"], "object"))
    ensures Everywhere(StrictNode, Obj(s["type" := value]))
  {
    assert Under("type", value) == {};
    hide Under;
    StrictWith(s, "type", value);
  }

  lemma NullableStrict(was: Schema, now: Schema)
    requires Everywhere(StrictNode, Obj(now)) && ("type" in was ==> "type" in now && now["type"] == was["type"])
    ensures Everywhere(StrictNode, Obj(Nullable(was, now)))
  {
    hide Everywhere, StrictNode;
    if Lists(was, "anyOf") {
      NullableListStrict(was, now, "anyOf");
    } else if Lists(was, "oneOf") {
      NullableListStrict(was, now, "oneOf");
    } else if "type" !in was || "enum" in was || "const" in was {
      UnionStrict(Obj(now));
    } else {
      match was["type"]
      case Str(t) =>
        NullTypes(t, []);
        if t != "null" {
          RetypedStrict(now, Arr([Str(t), Str("null")]));
        }
      case Arr(ts) =>
        NullTypes("", ts);
        if Str("null") !in ts {
          RetypedStrict(now, Arr(ts + [Str("null")]));
        }
      case _ =>
    }
  }

  lemma PropertyStrict(j: Json, missing: bool)
    requires Everywhere(StrictNode, Strict(j))
    ensures Everywhere(StrictNode, StrictProperty(j, missing))
  {
    if missing && j.Obj? {
      TypeKept(j.fields, "object");
      hide Strict, Everywhere, Nullable;
      NullableStrict(j.fields, Strict(j).fields);
    }
  }

  lemma WalkedFrom(k: string, value: Json, d: Json) returns (c: Json)
    requires d in Under(k, StrictUnder(k, value))
    ensures c in Under(k, value) && d == Strict(c)
  {
    hide Strict, HoldsNamed, HoldsOne, HoldsList;
    var r := StrictUnder(k, value);
    if HoldsNamed(k) && value.Obj? {
      var n :| n in r.fields && r.fields[n] == d;
      c := value.fields[n];
    } else if HoldsOne(k) {
      c := value;
    } else {
      assert r == Arr(StrictAll(value.items));
      var i :| 0 <= i < |r.items| && r.items[i] == d;
      c := value.items[i];
    }
  }

  lemma ChildStrict(s: Schema, k: string, d: Json)
    requires forall h, c | h in s && c in Under(h, s[h]) :: Everywhere(StrictNode, Strict(c))
    requires Keeps(s, k) && d in Under(k, StrictField(s, k))
    ensures Everywhere(StrictNode, d)
  {
    if k == "required" && Declares(s) {
      NoneUnderRequired(Arr(Texts(RequiredNow(s))));
    } else if k == "additionalProperties" && (Declares(s) || k !in s) {
      assert Under(k, Bool(false)) == {Bool(false)};
    } else if k == "properties" && Declares(s) {
      DeclaredField(s);
      hide Declares, Missing, StrictProperty, StrictField, Everywhere, Keeps;
      var n := OfProperties(StrictField(s, k), d);
      InProperties(s[k], n);
      PropertyStrict(s[k].fields[n], n in Missing(s));
    } else {
      hide Declares, Under, StrictUnder, Everywhere, Strict;
      var c := WalkedFrom(k, s[k], d);
    }
  }

  lemma NoneUnderRequired(value: Json)
    ensures Under("required", value) == {}
  {
  }

  lemma OfProperties(value: Json, d: Json) returns (n: string)
    requires value.Obj? && d in Under("properties", value)
    ensures n in value.fields && value.fields[n] == d
  {
    n :| n in value.fields && value.fields[n] == d;
  }

  /** Every node of a walked schema is strict, the ones made while walking included. */
  lemma {:induction false} StrictEverywhere(j: Json)
    ensures Everywhere(StrictNode, Strict(j))
    decreases j
  {
    if j.Obj? {
      var s, t := j.fields, Strict(j).fields;
      forall h, c | h in s && c in Under(h, s[h])
        ensures Everywhere(StrictNode, Strict(c))
      {
        StrictEverywhere(c);
      }
      NodeIsStrict(s);
      hide Strict, StrictNode, Under;
      forall k, d | k in t && d in Under(k, t[k])
        ensures Everywhere(StrictNode, d)
      {
        StrictAt(s, k);
        ChildStrict(s, k, d);
      }
    }
  }

  /** What a walked node requires: what it required, in that order, then the rest by name, each once. */
  lemma RequirementsInOrder(s: Schema)
    requires Declares(s)
    ensures var t, was := Strict(Obj(s)).fields, Required(s);
            && |Required(t)| >= |was| && Required(t)[..|was|] == was && Names.Sorted(Required(t)[|was|..])
            && forall n :: n in Required(t)[|was|..] <==> n in s["properties"].fields && n !in was
  {
    DeclaresKept(s);
    NothingMissing(s);
    hide Strict;
    assert RequiredNow(s)[..|Required(s)|] == Required(s);
    assert RequiredNow(s)[|Required(s)|..] == Names.InOrder(Missing(s));
  }
}
