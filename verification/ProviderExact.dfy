/** What the rewriting takes from a schema, and nothing besides: an instance the shown schema accepts is one
    the tool's own schema accepts, but for what the dropped keywords said. */
module ProviderExact {
  import opened JsonSchema
  import opened ProviderSchema

  const DROPPED: seq<string> :=
    ["contains", "format", "maxContains", "maxItems", "maxLength", "maxProperties", "maximum", "minContains",
     "minItems", "minLength", "minProperties", "minimum", "multipleOf", "pattern", "patternProperties",
     "propertyNames", "unevaluatedItems", "unevaluatedProperties", "uniqueItems"]

  /** What the shown schema no longer says of an instance at a node: the keywords an endpoint rejects; that exactly
      one of the `oneOf` list holds, and one of the `anyOf` list beside it; and an enumeration beside a constant. */
  ghost predicate SatisfiesDropped(m: Meaning, s: Schema, v: Json) {
    && (forall k | k in s && k in DROPPED :: Holds(m, s, k, v))
    && (Merges(s) ==> Holds(m, s, "oneOf", v) && ("anyOf" in s ==> Holds(m, s, "anyOf", v)))
    && ("const" in s && "enum" in s ==> Holds(m, s, "enum", v))
  }

  /** The instance satisfies what was dropped at every node it meets: through properties and items, and in every
      alternative whose shown form accepts it. */
  ghost predicate SatisfiesAlong(m: Meaning, j: Json, v: Json)
    decreases j
  {
    j.Obj? ==>
      var s := j.fields;
      && SatisfiesDropped(m, s, v)
      && (v.Obj? && "properties" in s && s["properties"].Obj? ==>
            forall n | n in s["properties"].fields && n in v.fields ::
              SatisfiesAlong(m, s["properties"].fields[n], v.fields[n]))
      && (v.Arr? && "items" in s ==> forall i | 0 <= i < |v.items| :: SatisfiesAlong(m, s["items"], v.items[i]))
      && ("anyOf" in s && s["anyOf"].Arr? ==>
            forall c | c in s["anyOf"].items && Accepts(m, Both(c), v) :: SatisfiesAlong(m, c, v))
  }

  ghost predicate Tightened(m: Meaning, j: Json) {
    forall v | Accepts(m, Both(j), v) && SatisfiesAlong(m, j, v) :: Accepts(m, j, v)
  }

  ghost predicate ChildrenTighten(m: Meaning, s: Schema) {
    forall k, c | k in s && c in Under(k, s[k]) :: Tightened(m, c)
  }

  /** A keyword that is neither dropped nor renamed is in the shown schema, rewritten below. */
  lemma KeptAsItIs(s: Schema, k: string)
    requires Supported(Translate(Obj(s)).fields) && k in s && k !in DROPPED
    requires k != "const" && !(k == "enum" && "const" in s) && !(Merges(s) && (k == "oneOf" || k == "anyOf"))
    ensures Both(Obj(s)).Obj? && k in Both(Obj(s)).fields && Both(Obj(s)).fields[k] == BothUnder(k, s[k])
    ensures !Contextual(k)
  {
    hide TranslateUnder, TranslateAll, StripUnder, Strip, BothUnder;
    BothIsObject(s);
    var t := Translate(Obj(s)).fields;
    assert k in t && t[k] == TranslateUnder(k, s[k]);
    NotRemovable(k);
    StripKeeps(t, k);
    hide Translate, Structural, Removable;
    ShapeOfBoth(s, k);
  }

  lemma NotRemovable(k: string)
    requires k !in DROPPED
    ensures !Removable(k)
  {
  }

  lemma ConstantKept(s: Schema)
    requires Supported(Translate(Obj(s)).fields) && "const" in s
    ensures Both(Obj(s)).Obj? && "enum" in Both(Obj(s)).fields && Both(Obj(s)).fields["enum"] == Arr([s["const"]])
  {
    hide TranslateUnder, TranslateAll, StripUnder, Strip;
    BothIsObject(s);
    var t := Translate(Obj(s)).fields;
    assert "enum" in t;
    NotRemovable("enum");
    StripKeeps(t, "enum");
    hide Translate, Removable;
    ShapeOfBoth(s, "enum");
  }

  lemma HeldBy(m: Meaning, r: Schema, k: string, v: Json)
    requires Accepts(m, Obj(r), v) && k in r
    ensures Holds(m, r, k, v)
  {
  }

  lemma PropertiesTighten(m: Meaning, s: Schema, r: Schema, v: Json)
    requires "properties" in s && "properties" in r && r["properties"] == BothUnder("properties", s["properties"])
    requires Holds(m, r, "properties", v) && ChildrenTighten(m, s) && SatisfiesAlong(m, Obj(s), v)
    ensures Holds(m, s, "properties", v)
  {
    if s["properties"].Obj? && v.Obj? {
      var sub, both := s["properties"].fields, r["properties"].fields;
      forall n | n in sub && n in v.fields
        ensures Accepts(m, sub[n], v.fields[n])
      {
        assert Accepts(m, both[n], v.fields[n]);
        assert sub[n] in Under("properties", s["properties"]);
        assert Tightened(m, sub[n]);
      }
    }
  }

  lemma ItemsTighten(m: Meaning, s: Schema, r: Schema, v: Json)
    requires "items" in s && "items" in r && r["items"] == BothUnder("items", s["items"])
    requires "prefixItems" !in s && "prefixItems" !in r
    requires Holds(m, r, "items", v) && ChildrenTighten(m, s) && SatisfiesAlong(m, Obj(s), v)
    ensures Holds(m, s, "items", v)
  {
    assert s["items"] in Under("items", s["items"]);
    assert Tightened(m, s["items"]);
    if v.Arr? {
      AlongItems(m, s, v);
    }
    BothItems(s["items"]);
    ItemsMean(m, s, v);
    ItemsMean(m, r, v);
    hide Both, BothUnder, Accepts, SatisfiesAlong, Holds;
  }

  lemma BothItems(value: Json)
    ensures BothUnder("items", value) == Both(value)
  {
  }

  lemma ItemsMean(m: Meaning, s: Schema, v: Json)
    requires "items" in s && "prefixItems" !in s
    ensures Holds(m, s, "items", v) <==>
              (v.Arr? ==> forall i | 0 <= i < |v.items| :: Accepts(m, s["items"], v.items[i]))
  {
  }

  lemma AlongItems(m: Meaning, s: Schema, v: Json)
    requires SatisfiesAlong(m, Obj(s), v) && v.Arr? && "items" in s
    ensures forall i | 0 <= i < |v.items| :: SatisfiesAlong(m, s["items"], v.items[i])
  {
  }

  lemma AnyOfTightens(m: Meaning, s: Schema, r: Schema, v: Json)
    requires "anyOf" in s && "anyOf" in r && r["anyOf"] == BothUnder("anyOf", s["anyOf"])
    requires Holds(m, r, "anyOf", v) && ChildrenTighten(m, s) && SatisfiesAlong(m, Obj(s), v)
    ensures Holds(m, s, "anyOf", v)
  {
    hide Accepts, Both, Under, HoldsNamed, HoldsOne;
    if s["anyOf"].Arr? {
      var items := s["anyOf"].items;
      AnyOfMeans(m, s, v);
      AnyOfMeans(m, r, v);
      BothAnyOf(s["anyOf"]);
      hide BothUnder, Holds;
      var i :| 0 <= i < |items| && Accepts(m, BothAll(items)[i], v);
      assert items[i] in items;
      InList("anyOf", s["anyOf"], items[i]);
      assert Tightened(m, items[i]);
    } else {
      NoList(m, s, v);
    }
  }

  lemma BothAnyOf(value: Json)
    requires value.Arr?
    ensures BothUnder("anyOf", value) == Arr(BothAll(value.items))
  {
  }

  lemma NoList(m: Meaning, s: Schema, v: Json)
    requires "anyOf" in s && !s["anyOf"].Arr?
    ensures Holds(m, s, "anyOf", v)
  {
  }

  lemma FenceTightens(m: Meaning, s: Schema, v: Json)
    requires "additionalProperties" in s && s["additionalProperties"] == Bool(false) && OnlyNamed(s, v)
    ensures Holds(m, s, "additionalProperties", v)
  {
  }

  lemma PlainTightens(m: Meaning, s: Schema, r: Schema, k: string, v: Json)
    requires k in s && k in r && r[k] == BothUnder(k, s[k]) && !Contextual(k) && Holds(m, r, k, v) && k != "const"
    requires k !in ["properties", "additionalProperties", "items", "anyOf"] && (k == "oneOf" ==> !s[k].Arr?)
    ensures Holds(m, s, k, v)
  {
  }

  lemma KeywordTightens(m: Meaning, s: Schema, k: string, v: Json)
    requires Supported(Translate(Obj(s)).fields) && ChildrenTighten(m, s)
    requires Accepts(m, Both(Obj(s)), v) && SatisfiesAlong(m, Obj(s), v) && k in s
    ensures Holds(m, s, k, v)
  {
    hide Both, Translate, Supported, BothUnder, Holds, ChildrenTighten, Accepts, Under, OnlyNamed;
    BothIsObject(s);
    var r := Both(Obj(s)).fields;
    assert SatisfiesDropped(m, s, v);
    KeptKeys(s);
    hide SatisfiesAlong, SatisfiesDropped;
    if DroppedHere(s, k) {
      DroppedHolds(m, s, k, v);
    } else if k == "const" {
      ConstantKept(s);
      HeldBy(m, r, "enum", v);
      ConstantHolds(m, s, r, v);
    } else {
      KeptAsItIs(s, k);
      HeldBy(m, r, k, v);
      if k == "properties" {
        PropertiesTighten(m, s, r, v);
      } else if k == "items" {
        ItemsTighten(m, s, r, v);
      } else if k == "anyOf" {
        AnyOfTightens(m, s, r, v);
      } else if k == "additionalProperties" {
        FenceKept(m, s, r, v);
        FenceTightens(m, s, v);
      } else {
        PlainTightens(m, s, r, k, v);
      }
    }
  }

  /** The shown schema no longer says this of the node. */
  predicate DroppedHere(s: Schema, k: string) {
    k in DROPPED || (Merges(s) && (k == "oneOf" || k == "anyOf")) || (k == "enum" && "const" in s)
  }

  lemma DroppedHolds(m: Meaning, s: Schema, k: string, v: Json)
    requires SatisfiesDropped(m, s, v) && k in s && DroppedHere(s, k)
    ensures Holds(m, s, k, v)
  {
  }

  lemma ConstantHolds(m: Meaning, s: Schema, r: Schema, v: Json)
    requires "const" in s && "enum" in r && r["enum"] == Arr([s["const"]]) && Holds(m, r, "enum", v)
    ensures Holds(m, s, "const", v) && v == s["const"]
  {
  }

  lemma NodeTightens(m: Meaning, s: Schema, v: Json)
    requires Supported(Translate(Obj(s)).fields) && ChildrenTighten(m, s)
    requires Accepts(m, Both(Obj(s)), v) && SatisfiesAlong(m, Obj(s), v)
    ensures Accepts(m, Obj(s), v)
  {
    hide Both, Translate, Supported, Holds, ChildrenTighten, SatisfiesAlong;
    forall k | k in s
      ensures Holds(m, s, k, v)
    {
      KeywordTightens(m, s, k, v);
    }
  }

  lemma {:induction false} TreeTightens(m: Meaning, j: Json)
    requires Everywhere(Supported, Translate(j))
    ensures Tightened(m, j)
    decreases j
  {
    if j.Obj? {
      var s := j.fields;
      forall k, c | k in s && c in Under(k, s[k])
        ensures Tightened(m, c)
      {
        SupportedBelow(s, k, c);
        TreeTightens(m, c);
      }
      forall v | Accepts(m, Both(j), v) && SatisfiesAlong(m, j, v)
        ensures Accepts(m, j, v)
      {
        NodeTightens(m, s, v);
      }
    } else {
      assert Both(j) == j;
    }
  }

  lemma SupportedBelow(s: Schema, k: string, c: Json)
    requires Everywhere(Supported, Translate(Obj(s))) && k in s && c in Under(k, s[k])
    ensures Everywhere(Supported, Translate(c))
  {
    hide Translate, Under;
    TranslatedChild(s, k, c);
  }

  /** An instance the shown schema accepts, and which satisfies what was dropped at every node it meets, is
      accepted by the tool's own schema. */
  lemma OnlyTheDroppedIsLost(m: Meaning, runtime: Json, v: Json)
    requires ProviderSchema.ProviderSchema(runtime).Shown?
    requires Accepts(m, ProviderSchema.ProviderSchema(runtime).schema, v) && SatisfiesAlong(m, runtime, v)
    ensures Accepts(m, runtime, v)
  {
    TreeTightens(m, runtime);
  }

  // ----- Schemas of ordinary keywords -----

  predicate OrdinaryKeyword(k: string) {
    k in ["type", "enum", "const", "required", "properties", "items", "anyOf", "additionalProperties", "title",
          "description", "default", "examples"]
  }

  lemma OrdinaryIsKept(k: string)
    requires OrdinaryKeyword(k)
    ensures !Structural(k) && k !in DROPPED && k != "oneOf" && k != "prefixItems"
  {
  }

  /** A node of the keywords tools are described with; a constant beside an enumeration is one of it. */
  predicate Ordinary(s: Schema) {
    && (forall k | k in s :: OrdinaryKeyword(k))
    && ("additionalProperties" in s ==> s["additionalProperties"] == Bool(false))
    && ("const" in s && "enum" in s && s["enum"].Arr? ==> s["const"] in s["enum"].items)
  }

  lemma OrdinaryKeys(s: Schema)
    requires Ordinary(s)
    ensures Supported(s) && PatternsUnfenced(s) && "oneOf" !in s && "prefixItems" !in s
    ensures forall k | k in s :: k !in DROPPED
  {
    hide OrdinaryKeyword, Structural;
    forall k | k in s
      ensures !Structural(k) && k !in DROPPED && k != "oneOf" && k != "prefixItems"
    {
      OrdinaryIsKept(k);
    }
    assert "patternProperties" in DROPPED;
  }

  lemma {:induction false} EverywhereToo(p: Schema -> bool, q: Schema -> bool, j: Json)
    requires Everywhere(p, j) && forall s | p(s) :: q(s)
    ensures Everywhere(q, j)
    decreases j
  {
    if j.Obj? {
      hide Under;
      forall k, c | k in j.fields && c in Under(k, j.fields[k])
        ensures Everywhere(q, c)
      {
        UnderIsLess(j.fields, k, c);
        EverywhereToo(p, q, c);
      }
    }
  }

  lemma OrdinaryThroughout(j: Json)
    requires Everywhere(Ordinary, j)
    ensures Everywhere(Supported, j) && Everywhere(PatternsUnfenced, j)
  {
    forall s | Ordinary(s)
      ensures Supported(s) && PatternsUnfenced(s)
    {
      OrdinaryKeys(s);
    }
    hide Ordinary, Supported, PatternsUnfenced, Everywhere;
    EverywhereToo(Ordinary, Supported, j);
    EverywhereToo(Ordinary, PatternsUnfenced, j);
  }

  lemma UnderIsLess(s: Schema, k: string, c: Json)
    requires k in s && c in Under(k, s[k])
    ensures c < Obj(s)
  {
    hide Under;
  }

  lemma PropertiesBelow(m: Meaning, s: Schema, v: Json)
    requires Supported(Translate(Obj(s)).fields) && Accepts(m, Both(Obj(s)), v)
    requires "properties" in s && s["properties"].Obj? && v.Obj?
    ensures forall n | n in s["properties"].fields && n in v.fields ::
              Accepts(m, Both(s["properties"].fields[n]), v.fields[n])
  {
    KeptAsItIs(s, "properties");
    HeldBy(m, Both(Obj(s)).fields, "properties", v);
  }

  lemma ItemsBelow(m: Meaning, s: Schema, v: Json)
    requires Supported(Translate(Obj(s)).fields) && Accepts(m, Both(Obj(s)), v) && "items" in s && v.Arr?
    ensures forall i | 0 <= i < |v.items| :: Accepts(m, Both(s["items"]), v.items[i])
  {
    KeptAsItIs(s, "items");
    KeptKeys(s);
    HeldBy(m, Both(Obj(s)).fields, "items", v);
    BothItems(s["items"]);
    hide Both, BothUnder, Supported, Holds;
    ItemsMean(m, Both(Obj(s)).fields, v);
  }

  lemma OneOfTheEnum(m: Meaning, s: Schema, v: Json)
    requires Ordinary(s) && "const" in s && "enum" in s && v == s["const"]
    ensures Holds(m, s, "enum", v)
  {
    hide OrdinaryKeyword;
  }

  lemma NothingDropped(m: Meaning, s: Schema, v: Json)
    requires Ordinary(s) && Supported(Translate(Obj(s)).fields) && Accepts(m, Both(Obj(s)), v)
    ensures SatisfiesDropped(m, s, v)
  {
    hide Both, Translate, Supported, Holds, Accepts, Ordinary, DROPPED;
    OrdinaryKeys(s);
    if "const" in s && "enum" in s {
      ConstantKept(s);
      HeldBy(m, Both(Obj(s)).fields, "enum", v);
      ConstantHolds(m, s, Both(Obj(s)).fields, v);
      OneOfTheEnum(m, s, v);
    }
  }

  lemma PropertyUnder(s: Schema, n: string)
    requires "properties" in s && s["properties"].Obj? && n in s["properties"].fields
    ensures s["properties"].fields[n] in Under("properties", s["properties"])
  {
  }

  lemma ItemsUnder(s: Schema)
    requires "items" in s
    ensures s["items"] in Under("items", s["items"])
  {
  }

  /** At a node of ordinary keywords nothing is dropped. */
  lemma {:induction false} OrdinarySatisfies(m: Meaning, j: Json, v: Json)
    requires Everywhere(Ordinary, j) && Everywhere(Supported, Translate(j)) && Accepts(m, Both(j), v)
    ensures SatisfiesAlong(m, j, v)
    decreases j
  {
    if j.Obj? {
      var s := j.fields;
      hide Ordinary, Supported, Under, SatisfiesDropped, Both, Translate, Accepts;
      NothingDropped(m, s, v);
      if v.Obj? && "properties" in s && s["properties"].Obj? {
        PropertiesBelow(m, s, v);
        forall n | n in s["properties"].fields && n in v.fields
          ensures SatisfiesAlong(m, s["properties"].fields[n], v.fields[n])
        {
          PropertyUnder(s, n);
          SupportedBelow(s, "properties", s["properties"].fields[n]);
          OrdinarySatisfies(m, s["properties"].fields[n], v.fields[n]);
        }
      }
      if v.Arr? && "items" in s {
        ItemsBelow(m, s, v);
        ItemsUnder(s);
        SupportedBelow(s, "items", s["items"]);
        forall i | 0 <= i < |v.items|
          ensures SatisfiesAlong(m, s["items"], v.items[i])
        {
          OrdinarySatisfies(m, s["items"], v.items[i]);
        }
      }
      if "anyOf" in s && s["anyOf"].Arr? {
        forall c | c in s["anyOf"].items && Accepts(m, Both(c), v)
          ensures SatisfiesAlong(m, c, v)
        {
          InList("anyOf", s["anyOf"], c);
          SupportedBelow(s, "anyOf", c);
          OrdinarySatisfies(m, c, v);
        }
      }
    }
  }

  /** A schema of ordinary keywords, at any depth, is shown, and what is shown accepts exactly what it does. */
  lemma OrdinaryIsShownExactly(m: Meaning, runtime: Json)
    requires Everywhere(Ordinary, runtime)
    ensures ProviderSchema.ProviderSchema(runtime).Shown?
    ensures forall v :: Accepts(m, ProviderSchema.ProviderSchema(runtime).schema, v) <==> Accepts(m, runtime, v)
  {
    OrdinaryThroughout(runtime);
    RefusedExactlyWhenUnsupported(runtime);
    ProviderOnlyWidens(m, runtime);
    hide Ordinary, Supported, Translate, Strip, Accepts;
    forall v | Accepts(m, ProviderSchema.ProviderSchema(runtime).schema, v)
      ensures Accepts(m, runtime, v)
    {
      OrdinarySatisfies(m, runtime, v);
      OnlyTheDroppedIsLost(m, runtime, v);
    }
  }

  lemma EnumIsReplaced(s: Schema)
    requires "const" in s && !Merges(s)
    ensures Translate(Obj(s)) == Translate(Obj(s - {"enum"}))
  {
    hide TranslateUnder, TranslateAll;
    var u := s - {"enum"};
    assert Translate(Obj(s)).fields == Translate(Obj(u)).fields;
  }

  lemma AcceptsOnlyTheConstant(m: Meaning, s: Schema, v: Json)
    requires "const" in s && Accepts(m, Obj(s), v)
    ensures v == s["const"]
  {
    assert Holds(m, s, "const", v);
  }

  lemma NothingGetsIn(m: Meaning, s: Schema, v: Json)
    requires "const" in s && "enum" in s && s["enum"].Arr? && s["const"] !in s["enum"].items
    ensures !Accepts(m, Obj(s), v)
  {
    assert !Holds(m, s, "const", v) || !Holds(m, s, "enum", v);
  }

  lemma ShownWithoutTheEnum(s: Schema)
    requires "const" in s && Everywhere(Ordinary, Obj(s - {"enum"}))
    ensures ProviderSchema.ProviderSchema(Obj(s)) == ProviderSchema.ProviderSchema(Obj(s - {"enum"}))
    ensures "const" in s - {"enum"} && (s - {"enum"})["const"] == s["const"]
  {
    OrdinaryKeys(s - {"enum"});
    hide Ordinary, Supported, Translate, Strip, Everywhere, DROPPED;
    assert "oneOf" !in s;
    EnumIsReplaced(s);
  }

  /** A node that names a constant outside the enumeration beside it accepts nothing, and is shown exactly if
      the constant is refused for something else the node says. */
  lemma ExactUnlessTheConstantGetsIn(m: Meaning, s: Schema)
    requires "const" in s && "enum" in s && s["enum"].Arr? && s["const"] !in s["enum"].items
    requires Everywhere(Ordinary, Obj(s - {"enum"}))
    ensures ProviderSchema.ProviderSchema(Obj(s)).Shown?
    ensures (forall v :: Accepts(m, ProviderSchema.ProviderSchema(Obj(s)).schema, v) <==> Accepts(m, Obj(s), v))
            <==> !Accepts(m, Obj(s - {"enum"}), s["const"])
  {
    hide *;
    var u := s - {"enum"};
    ShownWithoutTheEnum(s);
    OrdinaryIsShownExactly(m, Obj(u));
    forall v
      ensures !Accepts(m, Obj(s), v) && (Accepts(m, Obj(u), v) ==> v == s["const"])
    {
      NothingGetsIn(m, s, v);
      if Accepts(m, Obj(u), v) {
        AcceptsOnlyTheConstant(m, u, v);
      }
    }
    var shown, c := ProviderSchema.ProviderSchema(Obj(s)).schema, s["const"];
    assert Accepts(m, shown, c) <==> Accepts(m, Obj(u), c);
    assert !Accepts(m, Obj(s), c);
  }

  lemma ConstantAlone(a: Json, b: Json)
    ensures Translate(Obj(map["const" := a, "enum" := Arr([b])])) == Obj(map["enum" := Arr([a])])
  {
    var s: Schema := map["const" := a, "enum" := Arr([b])];
    assert Translate(Obj(s)).fields == map["enum" := Arr([a])];
  }

  lemma EnumStays(a: Json)
    ensures Strip(Obj(map["enum" := Arr([a])])) == Obj(map["enum" := Arr([a])])
    ensures Everywhere(Supported, Obj(map["enum" := Arr([a])]))
  {
    var t: Schema := map["enum" := Arr([a])];
    assert !Removable("enum") && !Structural("enum");
    assert Strip(Obj(t)).fields == t;
  }

  lemma OnlyTheEnum(m: Meaning, a: Json)
    ensures Accepts(m, Obj(map["enum" := Arr([a])]), a)
  {
    var t: Schema := map["enum" := Arr([a])];
    assert Holds(m, t, "enum", a);
  }

  /** A constant that is not one of the enumeration beside it can never be given, and is shown as if it could. */
  lemma ConstantOutsideItsEnum(m: Meaning, a: Json, b: Json)
    requires a != b
    ensures var s := map["const" := a, "enum" := Arr([b])];
            && ProviderSchema.ProviderSchema(Obj(s)).Shown? && !Accepts(m, Obj(s), a)
            && Accepts(m, ProviderSchema.ProviderSchema(Obj(s)).schema, a)
  {
    var s: Schema := map["const" := a, "enum" := Arr([b])];
    assert !Holds(m, s, "enum", a);
    ConstantAlone(a, b);
    EnumStays(a);
    OnlyTheEnum(m, a);
    hide Translate, Strip, Supported;
  }
}
