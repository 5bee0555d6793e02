/** What a tool's schema accepts without undeclared members, its strict form accepts once
    null stands in for every optional member left out. */
module StrictAcceptance {
  import opened JsonSchema
  import opened StrictSchema

  predicate Annotates(k: string) { k in ["title", "description", "$id", "$schema"] }

  ghost predicate AnnotationsHold(m: Meaning) {
    forall k: string, value: Json, v: Json | Annotates(k) :: m.own(k, value, v)
  }

  predicate Union(s: Schema) {
    && Lists(s, "anyOf") && (forall k | k in s :: k == "anyOf" || Annotates(k))
    && forall c | c in s["anyOf"].items :: c.Obj?
  }

  predicate Scalar(v: Json) { !v.Obj? && !v.Arr? }

  predicate IsType(value: Json) { value.Str? || (value.Arr? && forall c | c in value.items :: c.Str?) }

  predicate TypedField(s: Schema, k: string)
    requires k in s
  {
    if k == "type" then IsType(s[k])
    else if k == "enum" then s[k].Arr? && forall c | c in s[k].items :: Scalar(c)
    else if k == "required" then s[k].Arr?
    else if k == "properties" then s[k].Obj? && forall n | n in s[k].fields :: s[k].fields[n].Obj?
    else if k == "items" then s[k].Obj?
    else if k == "additionalProperties" then s[k] == Bool(false)
    else Annotates(k)
  }

  predicate Typed(s: Schema) { "type" in s && forall k | k in s :: TypedField(s, k) }

  predicate Anything(s: Schema) { forall k | k in s :: Annotates(k) }

  /** The schemas the repository's tools are made of: each node a union, a typed node, or anything at all. */
  predicate Plain(s: Schema) { Union(s) || Typed(s) || Anything(s) }

  function Properties(s: Schema): map<string, Json> {
    if "properties" in s && s["properties"].Obj? then s["properties"].fields else map[]
  }

  /** Accepted, and without a member no node along the way declares. */
  predicate Fits(j: Json, v: Json)
    decreases j
  {
    j.Obj? ==>
      var s := j.fields;
      if "anyOf" in s then s["anyOf"].Arr? && exists c | c in s["anyOf"].items :: Fits(c, v)
      else
        && ("type" in s ==> TypeAllows(s["type"], v)) && (Lists(s, "enum") ==> v in s["enum"].items)
        && (v.Obj? && HasTypeName(s, "object") ==> FitsObject(s, v.fields))
        && (v.Arr? && "items" in s ==> forall i | 0 <= i < |v.items| :: Fits(s["items"], v.items[i]))
  }

  predicate FitsObject(s: Schema, v: map<string, Json>)
    decreases Obj(s), 0
  {
    && (forall n | n in Required(s) :: n in v)
    && (forall n | n in v :: n in Properties(s))
    && ("properties" in s && s["properties"].Obj? ==>
          forall n | n in v && n in s["properties"].fields :: Fits(s["properties"].fields[n], v[n]))
  }

  /** No node along the way is given a member it does not declare; through a union, along some accepted alternative. */
  predicate Closed(m: Meaning, j: Json, v: Json)
    decreases j
  {
    j.Obj? ==>
      var s := j.fields;
      if "anyOf" in s then s["anyOf"].Arr? && exists c | c in s["anyOf"].items :: Accepts(m, c, v) && Closed(m, c, v)
      else
        && (v.Obj? && HasTypeName(s, "object") ==> forall n | n in v.fields :: n in Properties(s))
        && (v.Obj? && HasTypeName(s, "object") && "properties" in s && s["properties"].Obj? ==>
              forall n | n in v.fields && n in s["properties"].fields ::
                Closed(m, s["properties"].fields[n], v.fields[n]))
        && (v.Arr? && "items" in s ==> forall i | 0 <= i < |v.items| :: Closed(m, s["items"], v.items[i]))
  }

  /** The instance with null for each member a node declares and the instance leaves out. */
  ghost function Pad(j: Json, v: Json): Json
    requires Fits(j, v)
    decreases j
  {
    if !j.Obj? then v
    else
      var s := j.fields;
      if "anyOf" in s then
        var c :| c in s["anyOf"].items && Fits(c, v);
        Pad(c, v)
      else if v.Obj? && HasTypeName(s, "object") && "properties" in s && s["properties"].Obj? then
        var props := s["properties"].fields;
        assert FitsObject(s, v.fields);
        Obj(map n | n in props :: if n in v.fields then Pad(props[n], v.fields[n]) else Null)
      else if v.Arr? && "items" in s then
        Arr(seq(|v.items|, i requires 0 <= i < |v.items| => Pad(s["items"], v.items[i])))
      else v
  }

  /** The one is the other but for members that are null. */
  predicate Extends(v: Json, w: Json) {
    match v
    case Obj(a) =>
      w.Obj? && (forall n | n in a :: n in w.fields && Extends(a[n], w.fields[n]))
      && forall n | n in w.fields && n !in a :: w.fields[n] == Null
    case Arr(a) => w.Arr? && |w.items| == |a| && forall i | 0 <= i < |a| :: Extends(a[i], w.items[i])
    case _ => w == v
  }

  lemma {:induction false} ExtendsItself(v: Json)
    ensures Extends(v, v)
  {
    match v
    case Obj(a) => forall n | n in a ensures Extends(a[n], a[n]) { ExtendsItself(a[n]); }
    case Arr(a) => forall i | 0 <= i < |a| ensures Extends(a[i], a[i]) { ExtendsItself(a[i]); }
    case _ =>
  }

  /** Padding only adds null members. */
  lemma {:induction false} PadOnlyAddsNull(j: Json, v: Json)
    requires Fits(j, v)
    ensures Extends(v, Pad(j, v))
    decreases j
  {
    ExtendsItself(v);
    if j.Obj? {
      var s := j.fields;
      if "anyOf" in s {
        var c :| c in s["anyOf"].items && Fits(c, v) && Pad(j, v) == Pad(c, v);
        PadOnlyAddsNull(c, v);
      } else if v.Obj? && HasTypeName(s, "object") && "properties" in s && s["properties"].Obj? {
        var props := s["properties"].fields;
        forall n | n in v.fields
          ensures n in props && Extends(v.fields[n], Pad(props[n], v.fields[n]))
        {
          PadOnlyAddsNull(props[n], v.fields[n]);
        }
      } else if v.Arr? && "items" in s {
        forall i | 0 <= i < |v.items|
          ensures Extends(v.items[i], Pad(s["items"], v.items[i]))
        {
          PadOnlyAddsNull(s["items"], v.items[i]);
        }
      }
    }
  }

  // ----- Keywords one at a time -----

  predicate PlainKey(k: string) {
    k in ["type", "enum", "required", "properties", "items", "additionalProperties"] || Annotates(k)
  }

  lemma AnnotationHolds(m: Meaning, s: Schema, k: string, v: Json)
    requires AnnotationsHold(m) && k in s && Annotates(k)
    ensures Holds(m, s, k, v)
  {
    AnnotationsMeanNothing(k);
    hide Contextual, Annotates, Accepts, TypeAllows, Declared, PrefixLength;
  }

  lemma AnnotationsMeanNothing(k: string)
    requires Annotates(k)
    ensures !Contextual(k) && k !in ["const", "enum", "type", "required", "properties", "additionalProperties", "items"]
    ensures k !in ["anyOf", "oneOf", "$defs", "definitions"]
  {
  }

  lemma TypeHolds(m: Meaning, s: Schema, v: Json)
    requires "type" in s
    ensures Holds(m, s, "type", v) <==> TypeAllows(s["type"], v)
  {
  }

  lemma EnumHolds(m: Meaning, s: Schema, v: Json)
    requires "enum" in s
    ensures Holds(m, s, "enum", v) <==> (s["enum"].Arr? ==> v in s["enum"].items)
  {
  }

  lemma {:induction false} TextsInHas(items: seq<Json>, n: string)
    ensures n in TextsIn(items) <==> Str(n) in items
  {
    if items != [] {
      TextsInHas(items[..|items| - 1], n);
      assert items == items[..|items| - 1] + [items[|items| - 1]];
    }
  }

  lemma RequiredHolds(m: Meaning, s: Schema, v: Json)
    requires "required" in s
    ensures Holds(m, s, "required", v) <==> (v.Obj? ==> forall n | n in Required(s) :: n in v.fields)
  {
    if s["required"].Arr? && v.Obj? {
      var items := s["required"].items;
      forall n
        ensures n in Required(s) <==> Str(n) in items
      {
        TextsInHas(items, n);
      }
    }
  }

  lemma PropertiesHold(m: Meaning, s: Schema, v: Json)
    requires "properties" in s
    ensures Holds(m, s, "properties", v) <==> (v.Obj? ==> PropertiesAccept(m, s, v.fields))
  {
  }

  predicate PropertiesAccept(m: Meaning, s: Schema, v: map<string, Json>) {
    forall n | n in Properties(s) && n in v :: Accepts(m, Properties(s)[n], v[n])
  }

  lemma FenceHolds(m: Meaning, s: Schema, v: Json)
    requires "additionalProperties" in s && s["additionalProperties"] == Bool(false)
    requires v.Obj? ==> forall n | n in v.fields :: n in Properties(s)
    ensures Holds(m, s, "additionalProperties", v)
  {
  }

  lemma ItemsHold(m: Meaning, s: Schema, v: Json)
    requires "items" in s && "prefixItems" !in s
    ensures Holds(m, s, "items", v) <==>
              (v.Arr? ==> forall i | 0 <= i < |v.items| :: Accepts(m, s["items"], v.items[i]))
  {
  }

  lemma AnyOfHolds(m: Meaning, s: Schema, v: Json, c: Json)
    requires "anyOf" in s && s["anyOf"].Arr? && c in s["anyOf"].items && Accepts(m, c, v)
    ensures Holds(m, s, "anyOf", v)
  {
  }

  lemma ObjectTyped(value: Json, v: Json)
    requires IsType(value) && TypeAllows(value, v)
    ensures v.Obj? ==> NamesType(value, "object")
  {
  }

  /** A node of plain keywords accepts what satisfies each of them. */
  lemma PlainAccepts(m: Meaning, s: Schema, v: Json)
    requires AnnotationsHold(m) && forall k | k in s :: PlainKey(k)
    requires "type" in s ==> TypeAllows(s["type"], v)
    requires Lists(s, "enum") ==> v in s["enum"].items
    requires v.Obj? && "required" in s ==> forall n | n in Required(s) :: n in v.fields
    requires v.Obj? ==> PropertiesAccept(m, s, v.fields)
    requires "additionalProperties" in s ==>
               s["additionalProperties"] == Bool(false) && (v.Obj? ==> forall n | n in v.fields :: n in Properties(s))
    requires v.Arr? && "items" in s ==> forall i | 0 <= i < |v.items| :: Accepts(m, s["items"], v.items[i])
    ensures Accepts(m, Obj(s), v)
  {
    hide Holds, Annotates, Required, Properties, TypeAllows, PropertiesAccept;
    PrefixIsNotPlain();
    forall k | k in s
      ensures Holds(m, s, k, v)
    {
      assert PlainKey(k);
      if Annotates(k) {
        AnnotationHolds(m, s, k, v);
      } else if k == "type" {
        TypeHolds(m, s, v);
      } else if k == "enum" {
        EnumHolds(m, s, v);
      } else if k == "required" {
        RequiredHolds(m, s, v);
      } else if k == "properties" {
        PropertiesHold(m, s, v);
      } else if k == "items" {
        ItemsHold(m, s, v);
      } else {
        FenceHolds(m, s, v);
      }
    }
  }

  lemma PrefixIsNotPlain()
    ensures !PlainKey("prefixItems")
  {
  }

  lemma UnionAccepts(m: Meaning, s: Schema, v: Json, c: Json)
    requires AnnotationsHold(m) && Lists(s, "anyOf") && forall k | k in s :: k == "anyOf" || Annotates(k)
    requires c in s["anyOf"].items && Accepts(m, c, v)
    ensures Accepts(m, Obj(s), v)
  {
    hide Holds, Annotates;
    forall k | k in s
      ensures Holds(m, s, k, v)
    {
      if k == "anyOf" {
        AnyOfHolds(m, s, v, c);
      } else {
        AnnotationHolds(m, s, k, v);
      }
    }
  }

  lemma UnderTyped(s: Schema, n: string)
    ensures "items" in s ==> s["items"] in Under("items", s["items"])
    ensures n in Properties(s) ==> Properties(s)[n] in Under("properties", s["properties"])
  {
  }

  lemma UnderUnion(s: Schema, c: Json)
    requires Lists(s, "anyOf") && c in s["anyOf"].items
    ensures c in Under("anyOf", s["anyOf"])
  {
  }

  lemma TypedKeys(s: Schema)
    requires Typed(s)
    ensures (forall k | k in s :: PlainKey(k)) && "anyOf" !in s && "type" in s
    ensures IsType(s["type"]) && ("enum" in s ==> s["enum"].Arr? && forall c | c in s["enum"].items :: Scalar(c))
    ensures "required" in s ==> s["required"].Arr?
    ensures "properties" in s ==>
              s["properties"].Obj? && forall n | n in s["properties"].fields :: s["properties"].fields[n].Obj?
    ensures "additionalProperties" in s ==> s["additionalProperties"] == Bool(false)
    ensures "items" in s ==> s["items"].Obj?
  {
    assert TypedField(s, "type");
    assert "enum" in s ==> TypedField(s, "enum");
    assert "required" in s ==> TypedField(s, "required");
    assert "items" in s ==> TypedField(s, "items");
    assert "properties" in s ==> TypedField(s, "properties");
    assert "additionalProperties" in s ==> TypedField(s, "additionalProperties");
    forall k | k in s
      ensures PlainKey(k)
    {
      assert TypedField(s, k);
    }
  }

  lemma AnythingKeys(s: Schema)
    requires Anything(s)
    ensures (forall k | k in s :: PlainKey(k) && Annotates(k)) && "anyOf" !in s && "type" !in s && "enum" !in s
    ensures "required" !in s && "properties" !in s && "items" !in s && "additionalProperties" !in s
  {
    assert !Annotates("anyOf") && !Annotates("type") && !Annotates("enum") && !Annotates("required");
    assert !Annotates("properties") && !Annotates("items") && !Annotates("additionalProperties");
  }

  /** What fits is accepted by the tool's schema as it stands. */
  lemma {:induction false} FitsIsAccepted(m: Meaning, j: Json, v: Json)
    requires AnnotationsHold(m) && Everywhere(Plain, j) && j.Obj? && Fits(j, v)
    ensures Accepts(m, j, v)
    decreases j
  {
    var s := j.fields;
    if Union(s) {
      var c :| c in s["anyOf"].items && Fits(c, v);
      UnderUnion(s, c);
      FitsIsAccepted(m, c, v);
      UnionAccepts(m, s, v, c);
    } else if Typed(s) {
      TypedFits(m, s, v);
    } else {
      AnythingKeys(s);
      PlainAccepts(m, s, v);
    }
  }

  lemma {:induction false} TypedFits(m: Meaning, s: Schema, v: Json)
    requires AnnotationsHold(m) && Everywhere(Plain, Obj(s)) && Typed(s) && Fits(Obj(s), v)
    ensures Accepts(m, Obj(s), v)
    decreases Obj(s), 0
  {
    TypedKeys(s);
    ObjectTyped(s["type"], v);
    hide Typed, TypedField, Under, PlainKey, IsType;
    if v.Obj? {
      assert FitsObject(s, v.fields);
      forall n | n in Properties(s) && n in v.fields
        ensures Accepts(m, Properties(s)[n], v.fields[n])
      {
        UnderTyped(s, n);
        FitsIsAccepted(m, Properties(s)[n], v.fields[n]);
      }
    }
    if v.Arr? && "items" in s {
      UnderTyped(s, "");
      forall i | 0 <= i < |v.items|
        ensures Accepts(m, s["items"], v.items[i])
      {
        FitsIsAccepted(m, s["items"], v.items[i]);
      }
    }
    PlainAccepts(m, s, v);
  }

  lemma RequiredOf(m: Meaning, s: Schema, v: Json)
    requires Accepts(m, Obj(s), v) && v.Obj?
    ensures forall n | n in Required(s) :: n in v.fields
  {
    if "required" in s {
      assert Holds(m, s, "required", v);
      RequiredHolds(m, s, v);
    }
  }

  lemma PropertiesOf(m: Meaning, s: Schema, v: Json)
    requires Accepts(m, Obj(s), v) && v.Obj?
    ensures PropertiesAccept(m, s, v.fields)
  {
    if "properties" in s {
      assert Holds(m, s, "properties", v);
      PropertiesHold(m, s, v);
    }
  }

  lemma ItemsOf(m: Meaning, s: Schema, v: Json)
    requires Accepts(m, Obj(s), v) && v.Arr? && "items" in s && "prefixItems" !in s
    ensures forall i | 0 <= i < |v.items| :: Accepts(m, s["items"], v.items[i])
  {
    assert Holds(m, s, "items", v);
    ItemsHold(m, s, v);
  }

  lemma EnumOf(m: Meaning, s: Schema, v: Json)
    requires Accepts(m, Obj(s), v) && Lists(s, "enum")
    ensures v in s["enum"].items
  {
    assert Holds(m, s, "enum", v);
  }

  lemma {:induction false} ClosedFits(m: Meaning, j: Json, v: Json)
    requires AnnotationsHold(m) && Everywhere(Plain, j) && j.Obj? && Accepts(m, j, v) && Closed(m, j, v)
    ensures Fits(j, v)
    decreases j, 1
  {
    var s := j.fields;
    if Union(s) {
      var c :| c in s["anyOf"].items && Accepts(m, c, v) && Closed(m, c, v);
      UnderUnion(s, c);
      hide Accepts, Annotates;
      ClosedFits(m, c, v);
    } else if Typed(s) {
      TypedClosedFits(m, s, v);
    } else {
      AnythingKeys(s);
    }
  }

  lemma {:induction false} TypedClosedFits(m: Meaning, s: Schema, v: Json)
    requires AnnotationsHold(m) && Everywhere(Plain, Obj(s)) && Typed(s) && Accepts(m, Obj(s), v)
             && Closed(m, Obj(s), v)
    ensures Fits(Obj(s), v)
    decreases Obj(s), 0
  {
    TypedKeys(s);
    TypeOf(m, s, v);
    PrefixIsNotPlain();
    hide Typed, Under, Accepts, PlainKey, TypeAllows;
    if "enum" in s {
      EnumOf(m, s, v);
    }
    if v.Obj? {
      RequiredOf(m, s, v);
      PropertiesOf(m, s, v);
      forall n | n in v.fields && n in Properties(s) && HasTypeName(s, "object")
        ensures Fits(Properties(s)[n], v.fields[n])
      {
        UnderTyped(s, n);
        ClosedFits(m, Properties(s)[n], v.fields[n]);
      }
    }
    if v.Arr? && "items" in s {
      UnderTyped(s, "");
      ItemsOf(m, s, v);
      forall i | 0 <= i < |v.items|
        ensures Fits(s["items"], v.items[i])
      {
        ClosedFits(m, s["items"], v.items[i]);
      }
    }
  }

  lemma {:induction false} FitsIsClosed(m: Meaning, j: Json, v: Json)
    requires AnnotationsHold(m) && Everywhere(Plain, j) && j.Obj? && Fits(j, v)
    ensures Closed(m, j, v)
    decreases j
  {
    var s := j.fields;
    if Union(s) {
      var c :| c in s["anyOf"].items && Fits(c, v);
      UnderUnion(s, c);
      FitsIsAccepted(m, c, v);
      hide Accepts, Annotates;
      FitsIsClosed(m, c, v);
    } else if Typed(s) {
      TypedKeys(s);
      hide Typed, Under, Accepts, PlainKey, TypeAllows;
      if v.Obj? && HasTypeName(s, "object") {
        assert FitsObject(s, v.fields);
        forall n | n in v.fields
          ensures Closed(m, Properties(s)[n], v.fields[n])
        {
          UnderTyped(s, n);
          FitsIsClosed(m, Properties(s)[n], v.fields[n]);
        }
      }
      if v.Arr? && "items" in s {
        UnderTyped(s, "");
        forall i | 0 <= i < |v.items|
          ensures Closed(m, s["items"], v.items[i])
        {
          FitsIsClosed(m, s["items"], v.items[i]);
        }
      }
    } else {
      AnythingKeys(s);
    }
  }

  /** What fits a tool's schema is what it accepts and what is closed under it. */
  lemma FitsExactlyWhenClosed(m: Meaning, j: Json, v: Json)
    requires AnnotationsHold(m) && Everywhere(Plain, j) && j.Obj?
    ensures Fits(j, v) <==> Accepts(m, j, v) && Closed(m, j, v)
  {
    hide *;
    if Fits(j, v) {
      FitsIsAccepted(m, j, v);
      FitsIsClosed(m, j, v);
    } else if Accepts(m, j, v) && Closed(m, j, v) {
      ClosedFits(m, j, v);
    }
  }

  // ----- The strict form -----

  /** The walk leaves a plain node plain, with the fields it had but for what it makes strict. */
  lemma WalkedKeys(s: Schema)
    requires Typed(s) || Anything(s)
    ensures var t := Strict(Obj(s)).fields;
            && (forall k | k in t :: PlainKey(k))
            && ("type" in t <==> "type" in s) && ("type" in s ==> t["type"] == s["type"])
            && ("enum" in t <==> "enum" in s) && ("enum" in s ==> t["enum"] == s["enum"])
            && ("items" in t <==> "items" in s) && ("items" in s ==> t["items"] == Strict(s["items"]))
            && ("additionalProperties" in t ==> t["additionalProperties"] == Bool(false))
  {
    var t := Strict(Obj(s)).fields;
    PlainOnes(s);
    forall k | k in t
      ensures PlainKey(k)
    {
      StrictAt(s, k);
    }
    hide PlainKey, Strict, Typed, Anything, Declares, HasTypeName;
    StrictAt(s, "type");
    StrictAt(s, "enum");
    StrictAt(s, "items");
    StrictAt(s, "additionalProperties");
    WalkedFields(s);
  }

  lemma PlainOnes(s: Schema)
    requires Typed(s) || Anything(s)
    ensures (forall k | k in s :: PlainKey(k))
            && ("additionalProperties" in s ==> s["additionalProperties"] == Bool(false))
  {
    if Typed(s) {
      TypedKeys(s);
    } else {
      AnythingKeys(s);
    }
  }

  lemma WalkedFields(s: Schema)
    ensures "type" in s ==> StrictField(s, "type") == s["type"]
    ensures "enum" in s ==> StrictField(s, "enum") == s["enum"]
    ensures "items" in s ==> StrictField(s, "items") == Strict(s["items"])
    ensures "additionalProperties" in s && s["additionalProperties"] == Bool(false) ==>
              StrictField(s, "additionalProperties") == Bool(false)
  {
    if "type" in s {
      TypeUnder(s["type"]);
    }
    if "enum" in s {
      EnumUnder(s["enum"]);
    }
    if "items" in s {
      ItemsUnder(s["items"]);
    }
    FenceUnder(Bool(false));
    hide StrictUnder, Strict, Declares;
  }

  lemma EnumUnder(value: Json)
    ensures StrictUnder("enum", value) == value
  {
  }

  lemma ItemsUnder(value: Json)
    ensures StrictUnder("items", value) == Strict(value)
  {
  }

  // ----- Which nodes take null -----

  /** A node of the same keywords in any combination: a typed node may hold alternatives too. */
  predicate Known(s: Schema) {
    forall k | k in s :: (k == "anyOf" && s[k].Arr? && forall c | c in s[k].items :: c.Obj?) || TypedField(s, k)
  }

  predicate KnownKey(k: string) { k == "anyOf" || PlainKey(k) }

  /** Null passes each keyword of the node that has something to say about it. */
  predicate TakesNull(j: Json)
    decreases j
  {
    j.Obj? ==>
      var s := j.fields;
      && OwnTakesNull(s)
      && ("anyOf" in s && s["anyOf"].Arr? ==> exists c | c in s["anyOf"].items :: TakesNull(c))
  }

  predicate OwnTakesNull(s: Schema) {
    ("type" in s ==> NamesType(s["type"], "null")) && (Lists(s, "enum") ==> Null in s["enum"].items)
  }

  predicate AnyTakesNull(items: seq<Json>) { exists c | c in items :: TakesNull(c) }

  /** A node without alternatives can be made to take null. One with alternatives keeps what it
      says of itself, and no null is offered beside an alternative whose type names null. */
  predicate TakesNullOnceOptional(s: Schema) {
    Lists(s, "anyOf") ==> OwnTakesNull(s) && (SomeTakesNull(s["anyOf"].items) ==> AnyTakesNull(s["anyOf"].items))
  }

  lemma NullType(value: Json)
    requires IsType(value)
    ensures TypeAllows(value, Null) <==> NamesType(value, "null")
  {
    assert HasType("null", Null);
  }

  predicate AnyAccepts(m: Meaning, items: seq<Json>, v: Json) { exists c | c in items :: Accepts(m, c, v) }

  lemma AnyOfAccepts(m: Meaning, s: Schema, v: Json)
    requires Lists(s, "anyOf")
    ensures Holds(m, s, "anyOf", v) <==> AnyAccepts(m, s["anyOf"].items, v)
  {
  }

  lemma TypeAndEnumHold(m: Meaning, s: Schema)
    requires "type" in s ==> IsType(s["type"])
    ensures OwnTakesNull(s) <==>
              ("type" in s ==> Holds(m, s, "type", Null)) && ("enum" in s ==> Holds(m, s, "enum", Null))
  {
    hide Holds, IsType, TypeAllows;
    if "type" in s {
      NullType(s["type"]);
      TypeHolds(m, s, Null);
    }
    if "enum" in s {
      EnumHolds(m, s, Null);
    }
  }

  /** Keywords about members and elements say nothing about null. */
  lemma NullIsAcceptedExactly(m: Meaning, s: Schema)
    requires AnnotationsHold(m) && (forall k | k in s :: KnownKey(k)) && ("anyOf" in s ==> s["anyOf"].Arr?)
    requires "type" in s ==> IsType(s["type"])
    ensures Accepts(m, Obj(s), Null) <==> OwnTakesNull(s) && ("anyOf" in s ==> AnyAccepts(m, s["anyOf"].items, Null))
  {
    hide Holds, PlainKey, Annotates, OwnTakesNull, IsType, AnyAccepts;
    TypeAndEnumHold(m, s);
    if "anyOf" in s {
      AnyOfAccepts(m, s, Null);
    }
    forall k | k in s && k != "type" && k != "enum" && k != "anyOf"
      ensures Holds(m, s, k, Null)
    {
      assert KnownKey(k);
      OtherKeysTakeNull(m, s, k);
    }
  }

  lemma OtherKeysTakeNull(m: Meaning, s: Schema, k: string)
    requires AnnotationsHold(m) && k in s && PlainKey(k) && k != "type" && k != "enum"
    ensures Holds(m, s, k, Null)
  {
    if Annotates(k) {
      AnnotationHolds(m, s, k, Null);
    }
  }

  lemma NullTypeTakesNull(m: Meaning)
    requires AnnotationsHold(m)
    ensures Accepts(m, NULL_TYPE, Null)
  {
    NullIsAcceptedExactly(m, NULL_TYPE.fields);
  }

  lemma KnownFields(s: Schema)
    requires Known(s)
    ensures (forall k | k in s :: KnownKey(k)) && ("type" in s ==> IsType(s["type"]))
    ensures "anyOf" in s ==> s["anyOf"].Arr? && forall c | c in s["anyOf"].items :: c.Obj?
    ensures "const" !in s && "oneOf" !in s
  {
    assert "const" in s ==> TypedField(s, "const");
    assert "oneOf" in s ==> TypedField(s, "oneOf");
    assert "anyOf" in s ==> !TypedField(s, "anyOf");
    assert "type" in s ==> TypedField(s, "type");
    forall k | k in s
      ensures KnownKey(k)
    {
      assert k == "anyOf" || TypedField(s, k);
    }
  }

  lemma WalkedKnown(s: Schema)
    requires Known(s)
    ensures var t := Strict(Obj(s)).fields;
            && (forall k | k in t :: KnownKey(k)) && (OwnTakesNull(t) <==> OwnTakesNull(s))
            && ("type" in t <==> "type" in s) && ("type" in s ==> t["type"] == s["type"])
            && ("anyOf" in t <==> "anyOf" in s) && ("anyOf" in s ==> t["anyOf"] == Arr(StrictAll(s["anyOf"].items)))
  {
    var t := Strict(Obj(s)).fields;
    KnownFields(s);
    forall k | k in t
      ensures KnownKey(k)
    {
      StrictAt(s, k);
    }
    hide KnownKey, PlainKey, Strict, Known, Declares, HasTypeName;
    StrictAt(s, "type");
    StrictAt(s, "enum");
    WalkedFields(s);
    StrictListField(s, "anyOf");
    if "anyOf" in s {
      ListUnder("anyOf", s["anyOf"]);
    }
  }

  lemma AlternativeUnder(s: Schema, i: nat)
    requires Everywhere(Known, Obj(s)) && Lists(s, "anyOf") && i < |s["anyOf"].items|
    ensures Everywhere(Known, s["anyOf"].items[i])
  {
    var c := s["anyOf"].items[i];
    UnderUnion(s, c);
    hide Under, Known;
    assert "anyOf" in s && c in Under("anyOf", s["anyOf"]);
  }

  /** The strict form of a node takes null exactly when null passes its type, its enum and one of its alternatives. */
  lemma {:induction false} StrictTakesNull(m: Meaning, j: Json)
    requires AnnotationsHold(m) && Everywhere(Known, j) && j.Obj?
    ensures Accepts(m, Strict(j), Null) <==> TakesNull(j)
    decreases j, 1
  {
    var s := j.fields;
    WalkedKnown(s);
    KnownFields(s);
    NullIsAcceptedExactly(m, Strict(j).fields);
    hide Strict, Accepts, Annotates, KnownKey, Known, IsType, OwnTakesNull, AnyAccepts;
    if "anyOf" in s {
      AlternativesTakeNull(m, s);
    }
  }

  lemma {:induction false} AlternativesTakeNull(m: Meaning, s: Schema)
    requires AnnotationsHold(m) && Everywhere(Known, Obj(s)) && Lists(s, "anyOf")
    requires forall c | c in s["anyOf"].items :: c.Obj?
    ensures AnyAccepts(m, StrictAll(s["anyOf"].items), Null) <==> AnyTakesNull(s["anyOf"].items)
    decreases Obj(s), 0
  {
    var items := s["anyOf"].items;
    hide Strict, Accepts, Known, TakesNull;
    forall i | 0 <= i < |items|
      ensures Accepts(m, StrictAll(items)[i], Null) <==> TakesNull(items[i])
    {
      AlternativeUnder(s, i);
      assert items[i] in items;
      StrictTakesNull(m, items[i]);
    }
  }

  /** An optional property of a tool can be given as null exactly when its schema has no alternatives, or
      what it says of itself takes null and no alternative names null without one of them taking it. */
  lemma MissingTakesNull(m: Meaning, s: Schema)
    requires AnnotationsHold(m) && Everywhere(Known, Obj(s))
    ensures Accepts(m, StrictProperty(Obj(s), true), Null) <==> TakesNullOnceOptional(s)
  {
    hide Strict, StrictProperty, Accepts, Annotates, Nullable, Known, TakesNull;
    MissingProperty(s);
    KnownFields(s);
    if "anyOf" in s {
      UnionTakesNull(m, s);
    } else {
      SingleTakesNull(m, s);
    }
  }

  lemma SingleTakesNull(m: Meaning, s: Schema)
    requires AnnotationsHold(m) && Known(s) && "anyOf" !in s
    ensures Accepts(m, Obj(Nullable(s, Strict(Obj(s)).fields)), Null)
  {
    hide Strict, Accepts, Annotates, Known, KnownKey, Nullable;
    KnownFields(s);
    var now := Strict(Obj(s)).fields;
    if ("type" !in s && s != map[]) || "enum" in s {
      assert Nullable(s, now) == map["anyOf" := Arr([Obj(now), NULL_TYPE])] by { NullableWrapped(s, now); }
      WrappedAccepts(m, now, Null);
    } else if "type" in s {
      RetypedTakesNull(m, s);
    } else {
      EmptyTakesNull(m, s);
    }
  }

  lemma NullableWrapped(s: Schema, now: Schema)
    requires "anyOf" !in s && "oneOf" !in s && (("type" !in s && s != map[]) || ("enum" in s && "type" in s))
    ensures Nullable(s, now) == map["anyOf" := Arr([Obj(now), NULL_TYPE])]
  {
  }

  lemma EmptyTakesNull(m: Meaning, s: Schema)
    requires AnnotationsHold(m) && s == map[]
    ensures Accepts(m, Obj(Nullable(s, Strict(Obj(s)).fields)), Null)
  {
    StrictPlain(s);
    assert Nullable(s, s) == s;
    hide Strict, Annotates;
  }

  lemma NullableRetyped(s: Schema, now: Schema)
    requires "anyOf" !in s && "oneOf" !in s && "enum" !in s && "const" !in s && "type" in s && IsType(s["type"])
    requires "type" in now && now["type"] == s["type"]
    ensures exists value :: Nullable(s, now) == now["type" := value] && IsType(value) && NamesType(value, "null")
  {
    var value := if NamesType(s["type"], "null") then s["type"] else WithNull(s["type"]);
    assert Nullable(s, now) == now["type" := value];
    assert IsType(value) && NamesType(value, "null");
  }

  lemma RetypedTakesNull(m: Meaning, s: Schema)
    requires AnnotationsHold(m) && Known(s) && "anyOf" !in s && "enum" !in s && "type" in s
    ensures Accepts(m, Obj(Nullable(s, Strict(Obj(s)).fields)), Null)
  {
    hide Strict, Accepts, Annotates, Known, KnownKey, Nullable, IsType, NamesType;
    var now := Strict(Obj(s)).fields;
    WalkedKnown(s);
    KnownFields(s);
    NoEnum(s);
    NullableRetyped(s, now);
    var value :| Nullable(s, now) == now["type" := value] && IsType(value) && NamesType(value, "null");
    NullIsAcceptedExactly(m, now["type" := value]);
  }

  lemma NoEnum(s: Schema)
    ensures "enum" !in s ==> "enum" !in Strict(Obj(s)).fields
  {
    StrictAt(s, "enum");
  }

  lemma NullableUnion(s: Schema, now: Schema)
    requires Lists(s, "anyOf") && Lists(now, "anyOf")
    ensures Nullable(s, now) ==
        if SomeTakesNull(s["anyOf"].items) then now else now["anyOf" := Arr(now["anyOf"].items + [NULL_TYPE])]
  {
  }

  lemma UnionTakesNull(m: Meaning, s: Schema)
    requires AnnotationsHold(m) && Everywhere(Known, Obj(s)) && "anyOf" in s
    ensures Accepts(m, Obj(Nullable(s, Strict(Obj(s)).fields)), Null) <==> TakesNullOnceOptional(s)
  {
    hide Strict, StrictAll, Accepts, Annotates, KnownKey, TakesNull, OwnTakesNull, IsType, Nullable, Known,
         SomeTakesNull, AnyTakesNull, AnyAccepts;
    KnownFields(s);
    var now, items := Strict(Obj(s)).fields, s["anyOf"].items;
    WalkedKnown(s);
    NullableUnion(s, now);
    if SomeTakesNull(items) {
      AlternativesTakeNull(m, s);
      NullIsAcceptedExactly(m, now);
    } else {
      OfferNull(m, now);
    }
  }

  lemma OfferNull(m: Meaning, now: Schema)
    requires AnnotationsHold(m) && (forall k | k in now :: KnownKey(k)) && Lists(now, "anyOf")
             && ("type" in now ==> IsType(now["type"]))
    ensures Accepts(m, Obj(now["anyOf" := Arr(now["anyOf"].items + [NULL_TYPE])]), Null) <==> OwnTakesNull(now)
  {
    NullTypeTakesNull(m);
    hide Accepts, Annotates, KnownKey, IsType;
    var more := now["anyOf"].items + [NULL_TYPE];
    var made := now["anyOf" := Arr(more)];
    NullIsAcceptedExactly(m, made);
    assert more[|now["anyOf"].items|] == NULL_TYPE;
    assert AnyAccepts(m, more, Null);
    assert OwnTakesNull(made) <==> OwnTakesNull(now);
  }

  lemma WrappedAccepts(m: Meaning, now: Schema, v: Json)
    requires AnnotationsHold(m) && (Accepts(m, Obj(now), v) || v == Null)
    ensures Accepts(m, Obj(map["anyOf" := Arr([Obj(now), NULL_TYPE])]), v)
  {
    NullTypeTakesNull(m);
    var c := if v == Null then NULL_TYPE else Obj(now);
    hide Accepts, Annotates;
    assert c in [Obj(now), NULL_TYPE];
    UnionAccepts(m, map["anyOf" := Arr([Obj(now), NULL_TYPE])], v, c);
  }

  lemma MissingProperty(s: Schema)
    ensures StrictProperty(Obj(s), true) == Obj(Nullable(s, Strict(Obj(s)).fields))
  {
    hide Nullable, Strict;
  }

  /** A node of annotations alone is left as it is if it is empty, and else offered beside null. */
  lemma AnythingNullable(s: Schema, now: Schema)
    requires Anything(s)
    ensures Nullable(s, now) == if s == map[] then now else map["anyOf" := Arr([Obj(now), NULL_TYPE])]
  {
    AnythingKeys(s);
    NoConst(s);
    hide Annotates, PlainKey;
  }

  lemma NoConst(s: Schema)
    requires forall k | k in s :: PlainKey(k)
    ensures "const" !in s && "oneOf" !in s && "anyOf" !in s
  {
    assert !PlainKey("const") && !PlainKey("oneOf") && !PlainKey("anyOf");
  }

  lemma UnionHasNoType(s: Schema)
    requires Union(s)
    ensures "type" !in s
  {
    assert !Annotates("type");
  }

  /** A walked union has its walked alternatives and nothing else but annotations. */
  lemma WalkedUnion(s: Schema)
    requires Union(s)
    ensures var t := Strict(Obj(s)).fields;
            && (forall k | k in t :: k == "anyOf" || Annotates(k))
            && Lists(t, "anyOf") && t["anyOf"].items == StrictAll(s["anyOf"].items)
  {
    var t := Strict(Obj(s)).fields;
    UnionHasNoType(s);
    forall k | k in t
      ensures k == "anyOf" || Annotates(k)
    {
      StrictAt(s, k);
    }
    StrictListField(s, "anyOf");
    ListUnder("anyOf", s["anyOf"]);
  }

  lemma RetypedAccepts(m: Meaning, s: Schema, value: Json, v: Json)
    requires AnnotationsHold(m) && (forall k | k in s :: PlainKey(k)) && Accepts(m, Obj(s), v) && TypeAllows(value, v)
    ensures Accepts(m, Obj(s["type" := value]), v)
  {
    hide Holds, TypeAllows, Annotates;
    var u := s["type" := value];
    TypeHolds(m, u, v);
    PrefixIsNotPlain();
    forall k | k in u && k != "type"
      ensures Holds(m, u, k, v)
    {
      assert PlainKey(k);
      assert Holds(m, s, k, v);
      SameHolds(m, s, value, k, v);
    }
  }

  lemma SameHolds(m: Meaning, s: Schema, value: Json, k: string, v: Json)
    requires AnnotationsHold(m) && k in s && k != "type" && PlainKey(k) && (k == "items" ==> "prefixItems" !in s)
    ensures Holds(m, s["type" := value], k, v) <==> Holds(m, s, k, v)
  {
    hide Holds, Annotates, Accepts, Declared;
    var u := s["type" := value];
    if Annotates(k) {
      AnnotationHolds(m, s, k, v);
      AnnotationHolds(m, u, k, v);
    } else if k == "enum" {
      EnumHolds(m, s, v);
      EnumHolds(m, u, v);
    } else if k == "required" {
      RequiredHolds(m, s, v);
      RequiredHolds(m, u, v);
    } else if k == "properties" {
      PropertiesHold(m, s, v);
      PropertiesHold(m, u, v);
    } else if k == "items" {
      ItemsHold(m, s, v);
      ItemsHold(m, u, v);
    } else {
      SameFence(m, s, value, v);
    }
  }

  lemma SameFence(m: Meaning, s: Schema, value: Json, v: Json)
    requires "additionalProperties" in s
    ensures Holds(m, s["type" := value], "additionalProperties", v) <==> Holds(m, s, "additionalProperties", v)
  {
    var u := s["type" := value];
    assert forall n :: Declared(m, u, n) <==> Declared(m, s, n);
  }

  lemma TypeOf(m: Meaning, s: Schema, v: Json)
    requires "type" in s && Accepts(m, Obj(s), v)
    ensures TypeAllows(s["type"], v)
  {
    assert Holds(m, s, "type", v);
  }

  lemma MoreTypes(value: Json, v: Json)
    requires TypeAllows(value, v)
    ensures TypeAllows(WithNull(value), v)
  {
    if value.Str? || value.Arr? {
      var ts := if value.Str? then [value] else value.items;
      var n :| n in ts && n.Str? && HasType(n.text, v);
      assert n in WithNull(value).items;
    }
  }

  /** Making a node nullable takes nothing away. */
  lemma NullableKeeps(m: Meaning, s: Schema, v: Json)
    requires AnnotationsHold(m) && Plain(s) && Accepts(m, Strict(Obj(s)), v)
    ensures Accepts(m, StrictProperty(Obj(s), true), v)
  {
    hide Strict, StrictProperty, Accepts, Typed, Annotates, Nullable, Union, Anything;
    MissingProperty(s);
    if Union(s) {
      UnionKeeps(m, s, v);
    } else if Typed(s) {
      TypedNullableKeeps(m, s, v);
    } else {
      AnythingNullable(s, Strict(Obj(s)).fields);
      if s != map[] {
        WrappedAccepts(m, Strict(Obj(s)).fields, v);
      }
    }
  }

  lemma UnionKeeps(m: Meaning, s: Schema, v: Json)
    requires AnnotationsHold(m) && Union(s) && Accepts(m, Strict(Obj(s)), v)
    ensures Accepts(m, Obj(Nullable(s, Strict(Obj(s)).fields)), v)
  {
    var now := Strict(Obj(s)).fields;
    WalkedUnion(s);
    NullableUnion(s, now);
    hide Strict, StrictAll, Annotates, Nullable, SomeTakesNull;
    if !SomeTakesNull(s["anyOf"].items) {
      MoreAlternatives(m, now, v);
    }
  }

  lemma MoreAlternatives(m: Meaning, now: Schema, v: Json)
    requires AnnotationsHold(m) && Lists(now, "anyOf") && forall k | k in now :: k == "anyOf" || Annotates(k)
    requires Accepts(m, Obj(now), v)
    ensures Accepts(m, Obj(now["anyOf" := Arr(now["anyOf"].items + [NULL_TYPE])]), v)
  {
    assert Holds(m, now, "anyOf", v);
    AnyOfAccepts(m, now, v);
    hide Accepts, Annotates;
    var i :| 0 <= i < |now["anyOf"].items| && Accepts(m, now["anyOf"].items[i], v);
    var more := now["anyOf"].items + [NULL_TYPE];
    assert more[i] == now["anyOf"].items[i];
    UnionAccepts(m, now["anyOf" := Arr(more)], v, more[i]);
  }

  lemma TypedNullableKeeps(m: Meaning, s: Schema, v: Json)
    requires AnnotationsHold(m) && Typed(s) && Accepts(m, Strict(Obj(s)), v)
    ensures Accepts(m, Obj(Nullable(s, Strict(Obj(s)).fields)), v)
  {
    TypedKeys(s);
    WalkedKeys(s);
    var now := Strict(Obj(s)).fields;
    TypeOf(m, now, v);
    hide Strict, PlainKey, Typed, Accepts, TypeAllows;
    NoConst(s);
    if "enum" in s {
      WrappedAccepts(m, now, v);
    } else {
      MoreTypes(s["type"], v);
      RetypedAccepts(m, now, WithNull(s["type"]), v);
    }
  }

  function WithNull(value: Json): Json {
    match value
    case Str(t) => Arr([Str(t), Str("null")])
    case Arr(ts) => Arr(ts + [Str("null")])
    case _ => value
  }

  // ----- The main result -----

  /** Every optional member of a node can be given as null once the node is strict. */
  predicate OptionalsTakeNull(s: Schema) {
    Declares(s) ==>
      forall n | n in Missing(s) && s["properties"].fields[n].Obj? ::
        TakesNullOnceOptional(s["properties"].fields[n].fields)
  }

  lemma PlainIsKnown(s: Schema)
    requires Plain(s)
    ensures Known(s)
  {
    if !Typed(s) {
      forall k | k in s && k != "anyOf"
        ensures TypedField(s, k)
      {
        AnnotationsMeanNothing(k);
        hide Annotates;
      }
    }
  }

  lemma {:induction false} KnownThroughout(j: Json)
    requires Everywhere(Plain, j)
    ensures Everywhere(Known, j)
    decreases j
  {
    if j.Obj? {
      PlainIsKnown(j.fields);
      hide Plain, Known, Under;
      forall k, c | k in j.fields && c in Under(k, j.fields[k])
        ensures Everywhere(Known, c)
      {
        assert c < j by { UnderIsSmaller(j.fields, k, c); }
        KnownThroughout(c);
      }
    }
  }

  lemma UnderIsSmaller(s: Schema, k: string, c: Json)
    requires k in s && c in Under(k, s[k])
    ensures c < Obj(s)
  {
    hide Under;
  }

  /** An optional member that takes null may be null in the strict form, and one that is there keeps being accepted. */
  lemma MemberAccepted(m: Meaning, j: Json, missing: bool, w: Json)
    requires AnnotationsHold(m) && Everywhere(Plain, j) && j.Obj?
    requires Accepts(m, Strict(j), w) || (missing && w == Null && TakesNullOnceOptional(j.fields))
    ensures Accepts(m, StrictProperty(j, missing), w)
  {
    hide Plain, Known, Accepts, StrictProperty, TakesNullOnceOptional, Annotates, Strict;
    if !missing {
      UnmissedProperty(j);
    } else if Accepts(m, Strict(j), w) {
      assert Plain(j.fields);
      NullableKeeps(m, j.fields, w);
    } else {
      KnownThroughout(j);
      MissingTakesNull(m, j.fields);
    }
  }

  ghost predicate PaddedItem(j: Json, v: Json, w: Json) { Fits(j, v) && w == Pad(j, v) }

  /** The members of a padded instance: those it had, padded, and null for the declared rest. */
  ghost predicate PaddedMembers(s: Schema, v: map<string, Json>, w: map<string, Json>) {
    && HasTypeName(s, "object") && FitsObject(s, v) && w.Keys == Properties(s).Keys
    && forall n | n in w :: if n in v then PaddedItem(Properties(s)[n], v[n], w[n]) else w[n] == Null
  }

  ghost predicate PaddedItems(j: Json, v: seq<Json>, w: seq<Json>) {
    |w| == |v| && forall i | 0 <= i < |v| :: PaddedItem(j, v[i], w[i])
  }

  lemma PadShape(s: Schema, v: Json)
    requires Typed(s) && Fits(Obj(s), v)
    ensures var w := Pad(Obj(s), v);
            && TypeAllows(s["type"], v) && ("enum" in s ==> Lists(s, "enum") && v in s["enum"].items)
            && (Scalar(v) ==> w == v) && (v.Obj? ==> w.Obj? && PaddedMembers(s, v.fields, w.fields))
            && (v.Arr? ==> w.Arr?)
    ensures v.Arr? && "items" in s ==> PaddedItems(s["items"], v.items, Pad(Obj(s), v).items)
  {
    TypedKeys(s);
    ObjectTyped(s["type"], v);
    if v.Obj? {
      assert FitsObject(s, v.fields);
      if "properties" !in s {
        assert v.fields.Keys == {};
      }
    }
  }

  lemma SameKind(value: Json, v: Json, w: Json)
    requires TypeAllows(value, v) && (Scalar(v) ==> w == v) && (v.Obj? ==> w.Obj?) && (v.Arr? ==> w.Arr?)
    ensures TypeAllows(value, w)
  {
    if value.Arr? {
      var n :| n in value.items && n.Str? && HasType(n.text, v);
      assert HasType(n.text, w);
    }
  }

  lemma WalkedProperties(s: Schema)
    requires Typed(s) && HasTypeName(s, "object")
    ensures var t := Strict(Obj(s)).fields;
            && (Declares(s) || Properties(s) == map[]) && Properties(t).Keys == Properties(s).Keys
            && forall n | n in Properties(s) ::
                 Declares(s) && Properties(t)[n] == StrictProperty(Properties(s)[n], n in Missing(s))
  {
    TypedKeys(s);
    StrictAt(s, "properties");
    if Declares(s) {
      DeclaredField(s);
    } else if "properties" in s {
      PropertiesUnder(s["properties"]);
    }
  }

  lemma WalkedRequired(s: Schema, n: string)
    requires Typed(s) && HasTypeName(s, "object") && n in Required(Strict(Obj(s)).fields)
    ensures n in Required(s) || n in Properties(s)
  {
    StrictAt(s, "required");
    DeclaresKept(s);
    if Declares(s) {
      NothingMissing(s);
    } else if "required" in s {
      RequiredUnder(s["required"]);
    }
  }

  lemma RequiredUnder(value: Json)
    ensures StrictUnder("required", value) == value
  {
  }

  lemma AnythingAccepts(m: Meaning, s: Schema, v: Json)
    requires AnnotationsHold(m) && Anything(s)
    ensures Accepts(m, Strict(Obj(s)), v)
  {
    var t := Strict(Obj(s)).fields;
    AnythingKeys(s);
    forall k | k in t
      ensures Annotates(k)
    {
      StrictAt(s, k);
    }
    hide Strict, Annotates, Holds;
    forall k | k in t
      ensures Holds(m, t, k, v)
    {
      AnnotationHolds(m, t, k, v);
    }
  }

  lemma WalkedUnionAccepts(m: Meaning, s: Schema, c: Json, w: Json)
    requires AnnotationsHold(m) && Union(s) && c in s["anyOf"].items && Accepts(m, Strict(c), w)
    ensures Accepts(m, Strict(Obj(s)), w)
  {
    WalkedUnion(s);
    hide Strict, Accepts, Annotates;
    var i :| 0 <= i < |s["anyOf"].items| && s["anyOf"].items[i] == c;
    assert StrictAll(s["anyOf"].items)[i] == Strict(c);
    UnionAccepts(m, Strict(Obj(s)).fields, w, Strict(c));
  }

  /** What a tool's schema accepts, and what names no member it does not declare, is accepted by
      its strict form once null stands in for the optional members left out, where each of those takes null. */
  lemma StrictAcceptsPadded(m: Meaning, j: Json, v: Json)
    requires AnnotationsHold(m) && Everywhere(Plain, j) && Everywhere(OptionalsTakeNull, j) && j.Obj?
    requires Accepts(m, j, v) && Closed(m, j, v)
    ensures Fits(j, v) && Accepts(m, Strict(j), Pad(j, v)) && Extends(v, Pad(j, v))
  {
    hide *;
    FitsExactlyWhenClosed(m, j, v);
    FitsPadded(m, j, v);
  }

  lemma {:induction false} FitsPadded(m: Meaning, j: Json, v: Json)
    requires AnnotationsHold(m) && Everywhere(Plain, j) && Everywhere(OptionalsTakeNull, j) && j.Obj? && Fits(j, v)
    ensures Accepts(m, Strict(j), Pad(j, v)) && Extends(v, Pad(j, v))
    decreases j, 1
  {
    hide Strict, Accepts, Extends, Typed, Annotates;
    PadOnlyAddsNull(j, v);
    var s := j.fields;
    if Union(s) {
      var c :| c in s["anyOf"].items && Fits(c, v) && Pad(j, v) == Pad(c, v);
      UnderUnion(s, c);
      FitsPadded(m, c, v);
      WalkedUnionAccepts(m, s, c, Pad(c, v));
    } else if Typed(s) {
      TypedAcceptsPadded(m, s, v);
    } else {
      AnythingKeys(s);
      AnythingAccepts(m, s, v);
    }
  }

  lemma {:induction false} TypedAcceptsPadded(m: Meaning, s: Schema, v: Json)
    requires AnnotationsHold(m) && Everywhere(Plain, Obj(s)) && Everywhere(OptionalsTakeNull, Obj(s)) && Typed(s)
             && Fits(Obj(s), v)
    ensures Accepts(m, Strict(Obj(s)), Pad(Obj(s), v))
    decreases Obj(s), 0
  {
    var t, w := Strict(Obj(s)).fields, Pad(Obj(s), v);
    PadShape(s, v);
    WalkedKeys(s);
    SameKind(s["type"], v, w);
    TypedKeys(s);
    hide Strict, Fits, Pad, Typed, PlainKey, Accepts, TypeAllows;
    if v.Obj? {
      WalkedProperties(s);
      forall n | n in Required(t)
        ensures n in w.fields
      {
        WalkedRequired(s, n);
      }
      forall n | n in Properties(t) && n in w.fields
        ensures Accepts(m, Properties(t)[n], w.fields[n])
      {
        MemberPadded(m, s, v.fields, w.fields, n);
      }
    }
    if v.Arr? && "items" in s {
      UnderTyped(s, "");
      forall i | 0 <= i < |w.items|
        ensures Accepts(m, t["items"], w.items[i])
      {
        assert PaddedItem(s["items"], v.items[i], w.items[i]);
        FitsPadded(m, s["items"], v.items[i]);
      }
    }
    PlainAccepts(m, t, w);
  }

  lemma {:induction false} MemberPadded(m: Meaning, s: Schema, v: map<string, Json>, w: map<string, Json>, n: string)
    requires AnnotationsHold(m) && Everywhere(Plain, Obj(s)) && Everywhere(OptionalsTakeNull, Obj(s)) && Typed(s)
             && Declares(s)
    requires PaddedMembers(s, v, w) && n in w && n in Properties(s)
    ensures Accepts(m, StrictProperty(Properties(s)[n], n in Missing(s)), w[n])
    decreases Obj(s), -1
  {
    TypedKeys(s);
    UnderTyped(s, n);
    hide Strict, Fits, Pad, Typed, Accepts;
    var j := Properties(s)[n];
    if n in v {
      assert PaddedItem(j, v[n], w[n]);
      FitsPadded(m, j, v[n]);
    } else {
      assert OptionalsTakeNull(s);
    }
    MemberAccepted(m, j, n in Missing(s), w[n]);
  }

  /** A schema that forbids undeclared members already takes closed instances only. */
  predicate Fenced(s: Schema) { HasTypeName(s, "object") ==> "additionalProperties" in s }

  lemma {:induction false} FencedIsClosed(m: Meaning, j: Json, v: Json)
    requires AnnotationsHold(m) && Everywhere(Plain, j) && Everywhere(Fenced, j) && j.Obj? && Accepts(m, j, v)
    ensures Closed(m, j, v)
    decreases j, 1
  {
    var s := j.fields;
    if Union(s) {
      assert Holds(m, s, "anyOf", v);
      var c :| c in s["anyOf"].items && Accepts(m, c, v);
      UnderUnion(s, c);
      hide Accepts, Annotates;
      FencedIsClosed(m, c, v);
    } else if Typed(s) {
      TypedFencedIsClosed(m, s, v);
    } else {
      AnythingKeys(s);
    }
  }

  lemma FenceOf(m: Meaning, s: Schema, v: Json)
    requires Accepts(m, Obj(s), v) && v.Obj? && "additionalProperties" in s && s["additionalProperties"] == Bool(false)
    requires "patternProperties" !in s
    ensures forall n | n in v.fields :: n in Properties(s)
  {
    assert Holds(m, s, "additionalProperties", v);
    forall n | n in v.fields
      ensures n in Properties(s)
    {
      assert !Accepts(m, Bool(false), v.fields[n]);
      assert Declared(m, s, n);
    }
  }

  lemma PatternsAreNotPlain()
    ensures !PlainKey("patternProperties")
  {
  }

  lemma {:induction false} TypedFencedIsClosed(m: Meaning, s: Schema, v: Json)
    requires AnnotationsHold(m) && Everywhere(Plain, Obj(s)) && Everywhere(Fenced, Obj(s)) && Typed(s)
             && Accepts(m, Obj(s), v)
    ensures Closed(m, Obj(s), v)
    decreases Obj(s), 0
  {
    TypedKeys(s);
    PrefixIsNotPlain();
    PatternsAreNotPlain();
    hide Typed, Under, Accepts, PlainKey, TypeAllows;
    if v.Obj? && HasTypeName(s, "object") {
      assert Fenced(s);
      FenceOf(m, s, v);
      PropertiesOf(m, s, v);
      forall n | n in v.fields && n in Properties(s)
        ensures Closed(m, Properties(s)[n], v.fields[n])
      {
        UnderTyped(s, n);
        FencedIsClosed(m, Properties(s)[n], v.fields[n]);
      }
    }
    if v.Arr? && "items" in s {
      UnderTyped(s, "");
      ItemsOf(m, s, v);
      forall i | 0 <= i < |v.items|
        ensures Closed(m, s["items"], v.items[i])
      {
        FencedIsClosed(m, s["items"], v.items[i]);
      }
    }
  }

  // ----- Which optional members cannot be null -----

  /** An instance that leaves out a member that cannot be null has no strict form with null in its place. */
  lemma PaddedIsRefused(m: Meaning, s: Schema, v: Json, n: string)
    requires AnnotationsHold(m) && Everywhere(Plain, Obj(s)) && Typed(s) && Declares(s) && Fits(Obj(s), v) && v.Obj?
    requires n in Missing(s) && n !in v.fields && !TakesNullOnceOptional(Properties(s)[n].fields)
    ensures !Accepts(m, Strict(Obj(s)), Pad(Obj(s), v))
  {
    var w := Pad(Obj(s), v);
    hide Strict, Accepts, Pad, TakesNullOnceOptional, Known, Plain;
    PadShape(s, v);
    WalkedProperties(s);
    OptionalNode(s, n);
    MissingTakesNull(m, Properties(s)[n].fields);
    if Accepts(m, Strict(Obj(s)), w) {
      PropertiesOf(m, Strict(Obj(s)).fields, w);
      assert false;
    }
  }

  lemma OptionalNode(s: Schema, n: string)
    requires Everywhere(Plain, Obj(s)) && Typed(s) && n in Properties(s)
    ensures Properties(s)[n].Obj? && Everywhere(Known, Properties(s)[n])
  {
    TypedKeys(s);
    UnderTyped(s, n);
    KnownThroughout(Properties(s)[n]);
  }

  const TYPED_UNION: Schema := map["type" := Str("string"), "anyOf" := Arr([NULL_TYPE, Obj(map[])])]

  /** A node with both a type and alternatives may lose null: the walk finds it among the
      alternatives and leaves the type alone. */
  lemma TypedUnionTakesNoNull(m: Meaning)
    requires AnnotationsHold(m)
    ensures !Accepts(m, StrictProperty(Obj(TYPED_UNION), true), Null)
  {
    var s, none := TYPED_UNION, Obj(map[]);
    assert s["anyOf"].items == [NULL_TYPE, none];
    KnownLeaf(NULL_TYPE.fields);
    KnownLeaf(none.fields);
    KnownUnion(s);
    MissingTakesNull(m, s);
  }

  const NULL_OR_A: Schema := map["type" := Arr([Str("string"), Str("null")]), "enum" := Arr([Str("a")])]

  const ENUM_UNION: Schema := map["anyOf" := Arr([Obj(NULL_OR_A)])]

  /** So may a node with alternatives alone: the walk looks for null among their types and not in their enums. */
  lemma EnumUnionTakesNoNull(m: Meaning)
    requires AnnotationsHold(m)
    ensures !Accepts(m, StrictProperty(Obj(ENUM_UNION), true), Null)
  {
    hide Accepts, Strict, StrictProperty, Annotates;
    assert ENUM_UNION["anyOf"].items == [Obj(NULL_OR_A)];
    EnumLosesNull();
    KnownLeaf(NULL_OR_A);
    hide Known;
    KnownUnion(ENUM_UNION);
    MissingTakesNull(m, ENUM_UNION);
  }

  lemma EnumLosesNull()
    ensures Known(ENUM_UNION) && Known(NULL_OR_A) && !TakesNullOnceOptional(ENUM_UNION)
  {
    var items := ENUM_UNION["anyOf"].items;
    assert items == [Obj(NULL_OR_A)] && items[0] in items;
    assert NULL_OR_A["enum"].items == [Str("a")] && NULL_OR_A["type"].items[1] == Str("null");
  }

  lemma KnownLeaf(s: Schema)
    requires Known(s) && forall k | k in s :: k == "type" || k == "enum"
    ensures Everywhere(Known, Obj(s))
  {
  }

  lemma KnownUnion(s: Schema)
    requires Known(s) && Lists(s, "anyOf") && (forall k | k in s :: k == "type" || k == "anyOf")
    requires forall c | c in s["anyOf"].items :: Everywhere(Known, c)
    ensures Everywhere(Known, Obj(s))
  {
    hide Known;
  }
}
