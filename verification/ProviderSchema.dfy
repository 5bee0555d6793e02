/** The schema a strict endpoint is shown in place of a tool's own. */
module ProviderSchema {
  import opened JsonSchema

  // ----- Rewriting -----

  /** One constant becomes an enumeration of it, and `oneOf` joins `anyOf`, at every depth. */
  function Translate(j: Json): (r: Json)
    ensures r.Obj? <==> j.Obj?
    decreases j, 1
  {
    match j
    case Obj(s) =>
      var rest := map k | k in s && k != "const" && !(k == "oneOf" && s[k].Arr?) :: TranslateUnder(k, s[k]);
      var enumerated := if "const" in s then rest["enum" := Arr([s["const"]])] else rest;
      if "oneOf" in s && s["oneOf"].Arr? then
        var any := if "anyOf" in s && s["anyOf"].Arr? then TranslateAll(s["anyOf"].items) else [];
        Obj(enumerated["anyOf" := Arr(any + TranslateAll(s["oneOf"].items))])
      else Obj(enumerated)
    case _ => j
  }

  function TranslateAll(items: seq<Json>): (r: seq<Json>)
    decreases items, 2
  {
    seq(|items|, i requires 0 <= i < |items| => Translate(items[i]))
  }

  function TranslateUnder(k: string, value: Json): Json
    decreases value, 2
  {
    if HoldsNamed(k) && value.Obj? then Obj(map n | n in value.fields :: Translate(value.fields[n]))
    else if HoldsOne(k) then Translate(value)
    else if HoldsList(k) && value.Arr? then Arr(TranslateAll(value.items))
    else value
  }

  /** Drops the keywords a strict endpoint rejects, at every depth. */
  function Strip(j: Json): (r: Json)
    ensures r.Obj? <==> j.Obj?
    decreases j, 1
  {
    match j
    case Obj(s) => Obj(map k | k in s && !Removable(k) :: StripUnder(k, s[k]))
    case _ => j
  }

  function StripUnder(k: string, value: Json): Json
    decreases value, 2
  {
    if k in ["properties", "$defs", "definitions"] && value.Obj? then
      Obj(map n | n in value.fields :: Strip(value.fields[n]))
    else if k in ["items", "additionalProperties", "not", "if", "then", "else"] then Strip(value)
    else if HoldsList(k) && value.Arr? then
      Arr(seq(|value.items|, i requires 0 <= i < |value.items| => Strip(value.items[i])))
    else value
  }

  /** No keyword of the node is one that has to be rejected. */
  predicate Supported(s: Schema) {
    && (forall k | k in s :: !Structural(k))
    && ("additionalProperties" in s ==> s["additionalProperties"] == Bool(false))
  }

  datatype Result = Shown(schema: Json) | Refused

  ghost function ProviderSchema(runtime: Json): Result {
    var t := Translate(runtime);
    if Everywhere(Supported, t) then Shown(Strip(t)) else Refused
  }

  // ----- The rewriting only widens -----

  /** Names a pattern declares are not also fenced off by `additionalProperties`. */
  predicate PatternsUnfenced(s: Schema) { !("patternProperties" in s && "additionalProperties" in s) }

  function Both(j: Json): Json { Strip(Translate(j)) }

  function BothAll(items: seq<Json>): seq<Json> { seq(|items|, i requires 0 <= i < |items| => Both(items[i])) }

  /** What the two rewritings leave of one keyword that neither drops nor renames. */
  function BothUnder(k: string, value: Json): Json {
    if k in ["properties", "$defs", "definitions"] && value.Obj? then
      Obj(map n | n in value.fields :: Both(value.fields[n]))
    else if k in ["items", "additionalProperties"] then Both(value)
    else if HoldsList(k) && value.Arr? then Arr(BothAll(value.items))
    else value
  }

  predicate Merges(s: Schema) { "oneOf" in s && s["oneOf"].Arr? }

  /** The list ends with the rewritten alternatives. */
  predicate EndsWith(value: Json, items: seq<Json>) {
    && value.Arr? && |value.items| >= |items|
    && forall i | 0 <= i < |items| :: value.items[|value.items| - |items| + i] == Both(items[i])
  }

  lemma ShapeOfTranslate(s: Schema, k: string)
    requires k in Translate(Obj(s)).fields
    ensures k != "const" && (k == "oneOf" ==> !Merges(s))
    ensures var value := Translate(Obj(s)).fields[k];
            if k == "anyOf" && Merges(s) then
              value.Arr? && exists any :: value.items == any + TranslateAll(s["oneOf"].items)
            else if k == "enum" && "const" in s then value == Arr([s["const"]])
            else k in s && value == TranslateUnder(k, s[k])
  {
    hide TranslateUnder, TranslateAll;
  }

  lemma ShapeOfStrip(t: Schema, k: string)
    requires k in Strip(Obj(t)).fields
    ensures k in t && !Removable(k) && Strip(Obj(t)).fields[k] == StripUnder(k, t[k])
  {
    hide StripUnder;
  }

  lemma UnderBoth(k: string, value: Json)
    requires !Contextual(k)
    ensures StripUnder(k, TranslateUnder(k, value)) == BothUnder(k, value)
  {
    if HoldsList(k) && value.Arr? {
      assert StripUnder(k, TranslateUnder(k, value)).items == BothAll(value.items);
    }
  }

  lemma StrippedTail(any: seq<Json>, items: seq<Json>)
    ensures EndsWith(StripUnder("anyOf", Arr(any + TranslateAll(items))), items)
  {
  }

  lemma KeptEnum(value: Json)
    ensures StripUnder("enum", value) == value
  {
  }

  lemma ShapeOfBoth(s: Schema, k: string)
    requires Supported(Translate(Obj(s)).fields) && k in Both(Obj(s)).fields
    ensures !Contextual(k) && k != "const" && (k == "oneOf" ==> !Merges(s))
    ensures var value := Both(Obj(s)).fields[k];
            if k == "anyOf" && Merges(s) then EndsWith(value, s["oneOf"].items)
            else if k == "enum" && "const" in s then value == Arr([s["const"]])
            else k in s && value == BothUnder(k, s[k])
  {
    hide Translate, Strip, TranslateUnder, StripUnder, BothUnder, TranslateAll, EndsWith, Removable;
    var t := Translate(Obj(s)).fields;
    ShapeOfStrip(t, k);
    ShapeOfTranslate(s, k);
    if k == "anyOf" && Merges(s) {
      var any :| t[k].items == any + TranslateAll(s["oneOf"].items);
      StrippedTail(any, s["oneOf"].items);
    } else if k == "enum" && "const" in s {
      KeptEnum(t[k]);
    } else {
      UnderBoth(k, s[k]);
    }
  }

  ghost predicate Widened(m: Meaning, j: Json) { forall v | Accepts(m, j, v) :: Accepts(m, Both(j), v) }

  ghost predicate ChildrenWiden(m: Meaning, s: Schema) {
    forall k, c | k in s && c in Under(k, s[k]) :: Widened(m, c)
  }

  /** A child is translated where it stands, or where its list of alternatives moved. */
  lemma TranslatedChild(s: Schema, k: string, c: Json)
    requires k in s && c in Under(k, s[k])
    ensures var t := Translate(Obj(s)).fields; exists h :: h in t && Translate(c) in Under(h, t[h])
  {
    var t := Translate(Obj(s)).fields;
    if Merges(s) && (k == "oneOf" || k == "anyOf") {
      MergedHas(s, c, k);
      assert "anyOf" in t;
    } else {
      TranslatedUnder(k, s[k], c);
      PlainlyTranslated(s, k);
      assert k in t;
    }
  }

  lemma PlainlyTranslated(s: Schema, k: string)
    requires k in s && Under(k, s[k]) != {} && !(Merges(s) && (k == "oneOf" || k == "anyOf"))
    ensures var t := Translate(Obj(s)).fields; k in t && t[k] == TranslateUnder(k, s[k])
  {
    hide TranslateUnder, TranslateAll;
    assert k != "const" && k != "enum";
  }

  lemma TranslatedUnder(k: string, value: Json, c: Json)
    requires c in Under(k, value)
    ensures Translate(c) in Under(k, TranslateUnder(k, value))
  {
    hide Translate, HoldsNamed, HoldsOne, HoldsList;
    var r := TranslateUnder(k, value);
    if HoldsNamed(k) && value.Obj? {
      var n :| n in value.fields && value.fields[n] == c;
      assert r.fields[n] == Translate(c);
      assert Translate(c) in r.fields.Values;
    } else if !HoldsOne(k) {
      var i :| 0 <= i < |value.items| && value.items[i] == c;
      assert r == Arr(TranslateAll(value.items));
      assert r.items[i] == Translate(c);
      assert Translate(c) in r.items;
    }
  }

  function Alternatives(s: Schema): seq<Json>
    requires Merges(s)
  {
    (if "anyOf" in s && s["anyOf"].Arr? then s["anyOf"].items else []) + s["oneOf"].items
  }

  lemma MergedShape(s: Schema)
    requires Merges(s)
    ensures var t := Translate(Obj(s)).fields; "anyOf" in t && t["anyOf"] == Arr(TranslateAll(Alternatives(s)))
  {
    var any := if "anyOf" in s && s["anyOf"].Arr? then s["anyOf"].items else [];
    assert Translate(Obj(s)).fields["anyOf"] == Arr(TranslateAll(any) + TranslateAll(s["oneOf"].items));
    hide Translate;
    assert TranslateAll(any) + TranslateAll(s["oneOf"].items) == TranslateAll(Alternatives(s));
  }

  lemma MergedHas(s: Schema, c: Json, k: string)
    requires Merges(s) && k in s && (k == "oneOf" || k == "anyOf") && c in Under(k, s[k])
    ensures var t := Translate(Obj(s)).fields; "anyOf" in t && Translate(c) in Under("anyOf", t["anyOf"])
  {
    MergedShape(s);
    InList(k, s[k], c);
    hide Translate, Under;
    assert c in Alternatives(s);
    var i :| 0 <= i < |Alternatives(s)| && Alternatives(s)[i] == c;
    var list := TranslateAll(Alternatives(s));
    assert list[i] == Translate(c);
    assert Translate(c) in list;
    InList("anyOf", Arr(list), Translate(c));
  }

  lemma InList(k: string, value: Json, c: Json)
    requires k == "oneOf" || k == "anyOf"
    ensures c in Under(k, value) <==> value.Arr? && c in value.items
  {
  }

  /** Whoever satisfied exactly one alternative satisfies some alternative of the merged list. */
  lemma MergedWidens(m: Meaning, s: Schema, r: Schema, v: Json)
    requires Merges(s) && ChildrenWiden(m, s) && Holds(m, s, "oneOf", v)
    requires "anyOf" in r && EndsWith(r["anyOf"], s["oneOf"].items)
    ensures Holds(m, r, "anyOf", v)
  {
    var items, list := s["oneOf"].items, r["anyOf"].items;
    OneOfMeans(m, s, v);
    var i :| 0 <= i < |items| && Accepts(m, items[i], v);
    InList("oneOf", s["oneOf"], items[i]);
    assert Widened(m, items[i]);
    var c := list[|list| - |items| + i];
    assert c in list && Accepts(m, c, v);
    AnyOfMeans(m, r, v);
  }

  lemma OneOfMeans(m: Meaning, s: Schema, v: Json)
    requires Merges(s) && Holds(m, s, "oneOf", v)
    ensures exists i :: 0 <= i < |s["oneOf"].items| && Accepts(m, s["oneOf"].items[i], v)
  {
  }

  lemma AnyOfMeans(m: Meaning, s: Schema, v: Json)
    requires "anyOf" in s && s["anyOf"].Arr?
    ensures Holds(m, s, "anyOf", v) <==> exists c | c in s["anyOf"].items :: Accepts(m, c, v)
  {
  }

  lemma PropertiesWiden(m: Meaning, s: Schema, r: Schema, v: Json)
    requires ChildrenWiden(m, s) && "properties" in s && Holds(m, s, "properties", v)
    requires "properties" in r && r["properties"] == BothUnder("properties", s["properties"])
    ensures Holds(m, r, "properties", v)
  {
    if s["properties"].Obj? && v.Obj? {
      var sub, both := s["properties"].fields, r["properties"].fields;
      forall n | n in both && n in v.fields
        ensures Accepts(m, both[n], v.fields[n])
      {
        assert sub[n] in Under("properties", s["properties"]);
        assert Widened(m, sub[n]);
      }
    }
  }

  lemma ItemsWiden(m: Meaning, s: Schema, r: Schema, v: Json)
    requires ChildrenWiden(m, s) && "items" in s && Holds(m, s, "items", v)
    requires "items" in r && r["items"] == BothUnder("items", s["items"]) && PrefixLength(r) == PrefixLength(s)
    ensures Holds(m, r, "items", v)
  {
    assert s["items"] in Under("items", s["items"]);
    assert Widened(m, s["items"]);
  }

  lemma AnyOfWidens(m: Meaning, s: Schema, r: Schema, v: Json)
    requires ChildrenWiden(m, s) && "anyOf" in s && Holds(m, s, "anyOf", v)
    requires "anyOf" in r && r["anyOf"] == BothUnder("anyOf", s["anyOf"])
    ensures Holds(m, r, "anyOf", v)
  {
    if !s["anyOf"].Arr? {
      assert r["anyOf"] == s["anyOf"];
      return;
    }
    AnyOfMeans(m, s, v);
    AnyOfMeans(m, r, v);
    var items := s["anyOf"].items;
    assert r["anyOf"] == Arr(BothAll(items));
    hide Holds, Both, Under;
    var i :| 0 <= i < |items| && Accepts(m, items[i], v);
    InList("anyOf", s["anyOf"], items[i]);
    assert Widened(m, items[i]);
    assert BothAll(items)[i] in BothAll(items);
  }

  lemma TranslateKeeps(s: Schema, k: string)
    requires k !in ["const", "enum", "oneOf", "anyOf"]
    ensures var t := Translate(Obj(s)).fields; (k in s <==> k in t) && (k in s ==> t[k] == TranslateUnder(k, s[k]))
  {
    hide TranslateUnder, TranslateAll;
  }

  lemma StripKeeps(t: Schema, k: string)
    ensures k in Strip(Obj(t)).fields <==> k in t && !Removable(k)
  {
    hide StripUnder;
  }

  lemma KeptKeys(s: Schema)
    requires Supported(Translate(Obj(s)).fields)
    ensures var r := Both(Obj(s)).fields;
            && "prefixItems" !in s && "prefixItems" !in r && "patternProperties" !in r
            && ("properties" in s <==> "properties" in r)
            && ("additionalProperties" in s ==> "additionalProperties" in r)
    ensures "additionalProperties" in s ==> s["additionalProperties"] == Bool(false)
  {
    hide Translate, Strip, TranslateUnder, StripUnder;
    var t := Translate(Obj(s)).fields;
    TranslateKeeps(s, "prefixItems");
    TranslateKeeps(s, "properties");
    TranslateKeeps(s, "additionalProperties");
    StripKeeps(t, "prefixItems");
    StripKeeps(t, "patternProperties");
    StripKeeps(t, "properties");
    StripKeeps(t, "additionalProperties");
    if "additionalProperties" in s {
      FenceUntouched(s["additionalProperties"]);
    }
  }

  lemma FenceUntouched(value: Json)
    ensures TranslateUnder("additionalProperties", value) == Translate(value)
    ensures Translate(value) == Bool(false) <==> value == Bool(false)
  {
  }

  predicate OnlyNamed(s: Schema, v: Json) {
    v.Obj? ==> forall n | n in v.fields :: "properties" in s && s["properties"].Obj? && n in s["properties"].fields
  }

  /** Every name the instance uses is declared without the help of a pattern, or no fence stands in the way. */
  predicate Unfenced(s: Schema, v: Json) { PatternsUnfenced(s) || OnlyNamed(s, v) }

  /** What the fence lets through without patterns is what the properties name. */
  lemma FenceMeans(m: Meaning, s: Schema, v: Json)
    requires "additionalProperties" in s && s["additionalProperties"] == Bool(false) && "patternProperties" !in s
    ensures Holds(m, s, "additionalProperties", v) <==> OnlyNamed(s, v)
  {
    if v.Obj? {
      forall n | n in v.fields
        ensures Declared(m, s, n) <==> "properties" in s && s["properties"].Obj? && n in s["properties"].fields
      {
      }
    }
  }

  lemma SameNames(s: Schema, r: Schema, v: Json)
    requires "properties" in s <==> "properties" in r
    requires "properties" in s ==> r["properties"] == BothUnder("properties", s["properties"])
    ensures OnlyNamed(s, v) <==> OnlyNamed(r, v)
  {
  }

  /** What is left of a fenced node accepts an instance only if its properties name all it uses. */
  lemma FenceKept(m: Meaning, s: Schema, r: Schema, v: Json)
    requires Supported(Translate(Obj(s)).fields) && r == Both(Obj(s)).fields
    requires "additionalProperties" in s
    ensures "additionalProperties" in r && (Holds(m, r, "additionalProperties", v) <==> OnlyNamed(s, v))
  {
    KeptKeys(s);
    ShapeOfBoth(s, "additionalProperties");
    if "properties" in r {
      ShapeOfBoth(s, "properties");
    }
    FenceUntouched(Bool(false));
    hide Both, Translate, Supported, OnlyNamed, Holds;
    assert r["additionalProperties"] == Both(Bool(false)) == Bool(false);
    SameNames(s, r, v);
    FenceMeans(m, r, v);
  }

  lemma ConstWidens(m: Meaning, s: Schema, r: Schema, v: Json)
    requires "const" in s && Holds(m, s, "const", v) && "enum" in r && r["enum"] == Arr([s["const"]])
    ensures Holds(m, r, "enum", v)
  {
  }

  lemma PlainWidens(m: Meaning, s: Schema, r: Schema, k: string, v: Json)
    requires k in s && Holds(m, s, k, v) && !Contextual(k)
    requires k in r && r[k] == BothUnder(k, s[k])
    requires k !in ["properties", "additionalProperties", "items", "anyOf", "oneOf"]
    ensures Holds(m, r, k, v)
  {
  }

  lemma SameKeyWidens(m: Meaning, s: Schema, r: Schema, k: string, v: Json)
    requires Unfenced(s, v) && Supported(Translate(Obj(s)).fields) && ChildrenWiden(m, s) && r == Both(Obj(s)).fields
    requires k in s && Holds(m, s, k, v) && !Contextual(k)
    requires k in r && r[k] == BothUnder(k, s[k]) && (k == "oneOf" ==> !Merges(s))
    ensures Holds(m, r, k, v)
  {
    KeptKeys(s);
    if k == "properties" {
      PropertiesWiden(m, s, r, v);
    } else if k == "items" {
      ItemsWiden(m, s, r, v);
    } else if k == "anyOf" {
      AnyOfWidens(m, s, r, v);
    } else if k == "additionalProperties" {
      FenceKept(m, s, r, v);
      if "patternProperties" !in s {
        FenceMeans(m, s, v);
      }
    } else if k == "oneOf" {
      assert r["oneOf"] == s["oneOf"];
    } else {
      hide Both, BothUnder, Translate, Declared, Holds;
      PlainWidens(m, s, r, k, v);
    }
  }

  /** Rewriting a node only widens it, once rewriting its children does. */
  lemma KeywordWidens(m: Meaning, s: Schema, k: string, v: Json)
    requires Unfenced(s, v) && Supported(Translate(Obj(s)).fields) && ChildrenWiden(m, s)
    requires Accepts(m, Obj(s), v) && k in Both(Obj(s)).fields
    ensures Holds(m, Both(Obj(s)).fields, k, v)
  {
    ShapeOfBoth(s, k);
    var r := Both(Obj(s)).fields;
    hide Both, Supported, BothUnder, ChildrenWiden, Holds;
    if k == "anyOf" && Merges(s) {
      assert Holds(m, s, "oneOf", v);
      MergedWidens(m, s, r, v);
    } else if k == "enum" && "const" in s {
      assert Holds(m, s, "const", v);
      ConstWidens(m, s, r, v);
    } else {
      assert Holds(m, s, k, v);
      SameKeyWidens(m, s, r, k, v);
    }
  }

  lemma ChildrenToo(s: Schema, k: string, c: Json)
    requires Everywhere(PatternsUnfenced, Obj(s)) && Everywhere(Supported, Translate(Obj(s)))
    requires k in s && c in Under(k, s[k])
    ensures Everywhere(PatternsUnfenced, c) && Everywhere(Supported, Translate(c))
  {
    hide Translate, Under;
    TranslatedChild(s, k, c);
  }

  lemma NodeWidens(m: Meaning, s: Schema, v: Json)
    requires Unfenced(s, v) && Supported(Translate(Obj(s)).fields) && ChildrenWiden(m, s)
    requires Accepts(m, Obj(s), v)
    ensures Accepts(m, Both(Obj(s)), v)
  {
    hide Holds, ChildrenWiden, PatternsUnfenced, Supported, Both, Unfenced;
    BothIsObject(s);
    forall k | k in Both(Obj(s)).fields
      ensures Holds(m, Both(Obj(s)).fields, k, v)
    {
      KeywordWidens(m, s, k, v);
    }
  }

  lemma BothIsObject(s: Schema)
    ensures Both(Obj(s)).Obj?
  {
  }

  lemma {:induction false} TreeWidens(m: Meaning, j: Json)
    requires Everywhere(PatternsUnfenced, j) && Everywhere(Supported, Translate(j))
    ensures Widened(m, j)
    decreases j
  {
    if j.Obj? {
      var s := j.fields;
      forall k, c | k in s && c in Under(k, s[k])
        ensures Widened(m, c)
      {
        ChildrenToo(s, k, c);
        TreeWidens(m, c);
      }
      forall v | Accepts(m, j, v)
        ensures Accepts(m, Both(j), v)
      {
        NodeWidens(m, s, v);
      }
    }
  }

  /** Every instance the tool's own schema accepts is accepted by what the endpoint is
      shown, at any depth and whatever the other keywords mean. */
  lemma ProviderOnlyWidens(m: Meaning, runtime: Json)
    requires Everywhere(PatternsUnfenced, runtime) && ProviderSchema(runtime).Shown?
    ensures forall v | Accepts(m, runtime, v) :: Accepts(m, ProviderSchema(runtime).schema, v)
  {
    TreeWidens(m, runtime);
  }

  /** An accepted instance of a fenced node stays accepted exactly when no pattern was
      what declared one of its names. */
  lemma StaysAcceptedExactlyWhenUnfenced(m: Meaning, s: Schema, v: Json)
    requires forall k, c | k in s && c in Under(k, s[k]) :: Everywhere(PatternsUnfenced, c)
    requires ProviderSchema(Obj(s)).Shown? && Accepts(m, Obj(s), v)
    ensures Accepts(m, ProviderSchema(Obj(s)).schema, v) <==> Unfenced(s, v)
  {
    var t := Translate(Obj(s));
    forall k, c | k in s && c in Under(k, s[k])
      ensures Widened(m, c)
    {
      TranslatedChild(s, k, c);
      TreeWidens(m, c);
    }
    if Unfenced(s, v) {
      NodeWidens(m, s, v);
    } else {
      FenceKept(m, s, Both(Obj(s)).fields, v);
    }
  }

  // ----- When the rewriting is refused -----

  lemma {:induction false} TranslatedFrom(s: Schema, h: string, d: Json)
    requires h in Translate(Obj(s)).fields && d in Under(h, Translate(Obj(s)).fields[h])
    ensures exists k, c :: k in s && c in Under(k, s[k]) && d == Translate(c)
  {
    var t := Translate(Obj(s)).fields;
    ShapeOfTranslate(s, h);
    if h == "anyOf" && Merges(s) {
      MergedFrom(s, d);
    } else if h == "enum" && "const" in s {
    } else {
      hide Translate;
      var c := UnderFrom(h, s[h], d);
    }
  }

  lemma UnderFrom(k: string, value: Json, d: Json) returns (c: Json)
    requires d in Under(k, TranslateUnder(k, value))
    ensures c in Under(k, value) && d == Translate(c)
  {
    hide Translate, HoldsNamed, HoldsOne, HoldsList;
    var r := TranslateUnder(k, value);
    if HoldsNamed(k) && value.Obj? {
      var n :| n in r.fields && r.fields[n] == d;
      c := value.fields[n];
    } else if HoldsOne(k) {
      c := value;
    } else {
      assert r == Arr(TranslateAll(value.items));
      var i :| 0 <= i < |r.items| && r.items[i] == d;
      c := value.items[i];
    }
  }

  lemma MergedFrom(s: Schema, d: Json)
    requires Merges(s) && "anyOf" in Translate(Obj(s)).fields && d in Under("anyOf", Translate(Obj(s)).fields["anyOf"])
    ensures exists k, c :: k in s && c in Under(k, s[k]) && d == Translate(c)
  {
    MergedShape(s);
    hide Translate;
    var c := FromList(Alternatives(s), d);
    InList("oneOf", s["oneOf"], c);
    if c !in s["oneOf"].items {
      InList("anyOf", s["anyOf"], c);
    }
  }

  lemma FromList(items: seq<Json>, d: Json) returns (c: Json)
    requires d in Under("anyOf", Arr(TranslateAll(items)))
    ensures c in items && d == Translate(c)
  {
    InList("anyOf", Arr(TranslateAll(items)), d);
    hide Translate, Under;
    var i :| 0 <= i < |items| && TranslateAll(items)[i] == d;
    c := items[i];
  }

  lemma FenceEither(s: Schema)
    ensures var t := Translate(Obj(s)).fields;
            ("additionalProperties" in s ==> s["additionalProperties"] == Bool(false))
            <==> ("additionalProperties" in t ==> t["additionalProperties"] == Bool(false))
  {
    TranslateKeeps(s, "additionalProperties");
    hide Translate, TranslateUnder;
    if "additionalProperties" in s {
      FenceUntouched(s["additionalProperties"]);
    }
  }

  lemma SupportedEither(s: Schema)
    ensures Supported(s) <==> Supported(Translate(Obj(s)).fields)
  {
    var t := Translate(Obj(s)).fields;
    FenceEither(s);
    forall k | Structural(k)
      ensures k in s <==> k in t
    {
      TranslateKeeps(s, k);
    }
    hide Structural, Translate;
  }

  lemma {:induction false} SupportedBefore(j: Json)
    requires Everywhere(Supported, Translate(j))
    ensures Everywhere(Supported, j)
    decreases j
  {
    if j.Obj? {
      var s := j.fields;
      SupportedEither(s);
      hide Translate, Under, Supported;
      forall k, c | k in s && c in Under(k, s[k])
        ensures Everywhere(Supported, c)
      {
        TranslatedChild(s, k, c);
        SupportedBefore(c);
      }
    }
  }

  lemma {:induction false} SupportedAfter(j: Json)
    requires Everywhere(Supported, j)
    ensures Everywhere(Supported, Translate(j))
    decreases j
  {
    if j.Obj? {
      var s, t := j.fields, Translate(j).fields;
      SupportedEither(s);
      hide Translate, Under, Supported;
      forall h, d | h in t && d in Under(h, t[h])
        ensures Everywhere(Supported, d)
      {
        TranslatedFrom(s, h, d);
        var k, c :| k in s && c in Under(k, s[k]) && d == Translate(c);
        SupportedAfter(c);
      }
    }
  }

  /** Translating hides no keyword that has to be rejected and makes none up. */
  lemma RefusedExactlyWhenUnsupported(runtime: Json)
    ensures ProviderSchema(runtime).Refused? <==> !Everywhere(Supported, runtime)
  {
    if Everywhere(Supported, runtime) {
      SupportedAfter(runtime);
    }
    if Everywhere(Supported, Translate(runtime)) {
      SupportedBefore(runtime);
    }
  }

  // ----- What the endpoint is shown -----

  predicate Renamed(s: Schema) { "const" !in s && !Merges(s) }

  /** Nothing at the node that a strict endpoint rejects. */
  predicate Strict(s: Schema) { Supported(s) && Renamed(s) && forall k | k in s :: !Removable(k) }

  lemma {:induction false} TranslateRenames(j: Json)
    ensures Everywhere(Renamed, Translate(j))
    decreases j
  {
    if j.Obj? {
      var s, t := j.fields, Translate(j).fields;
      if "oneOf" in t {
        ShapeOfTranslate(s, "oneOf");
      }
      hide Translate, Under;
      forall h, d | h in t && d in Under(h, t[h])
        ensures Everywhere(Renamed, d)
      {
        TranslatedFrom(s, h, d);
        var k, c :| k in s && c in Under(k, s[k]) && d == Translate(c);
        TranslateRenames(c);
      }
    }
  }

  lemma StrippedFrom(k: string, value: Json, d: Json) returns (c: Json)
    requires !Contextual(k) && d in Under(k, StripUnder(k, value))
    ensures c in Under(k, value) && d == Strip(c)
  {
    hide Strip;
    var r := StripUnder(k, value);
    if HoldsNamed(k) && value.Obj? {
      var n :| n in r.fields && r.fields[n] == d;
      c := value.fields[n];
    } else if HoldsOne(k) {
      c := value;
    } else {
      var i :| 0 <= i < |r.items| && r.items[i] == d;
      c := value.items[i];
    }
  }

  lemma StripNode(t: Schema)
    requires Supported(t) && Renamed(t)
    ensures Strict(Strip(Obj(t)).fields)
  {
    var r := Strip(Obj(t)).fields;
    forall k | k in r
      ensures k in t && !Removable(k) && r[k] == StripUnder(k, t[k])
    {
      ShapeOfStrip(t, k);
    }
    hide Strip, Structural, Removable;
    assert StripUnder("additionalProperties", Bool(false)) == Strip(Bool(false));
    StripFence();
    if "oneOf" in r {
      StripUnlisted(t["oneOf"]);
    }
  }

  lemma StripFence()
    ensures Strip(Bool(false)) == Bool(false)
  {
  }

  lemma StripUnlisted(value: Json)
    ensures StripUnder("oneOf", value).Arr? <==> value.Arr?
  {
  }

  lemma {:induction false} StripIsStrict(j: Json)
    requires Everywhere(Supported, j) && Everywhere(Renamed, j)
    ensures Everywhere(Strict, Strip(j))
    decreases j
  {
    if j.Obj? {
      var t, r := j.fields, Strip(j).fields;
      StripNode(t);
      forall k, d | k in r && d in Under(k, r[k])
        ensures Everywhere(Strict, d)
      {
        ShapeOfStrip(t, k);
        hide Strip, Under, StripUnder;
        var c := StrippedFrom(k, t[k], d);
        StripIsStrict(c);
      }
    }
  }

  /** Whatever an endpoint is shown is free of rejected keywords, at every depth. */
  lemma ShownIsStrict(runtime: Json)
    requires ProviderSchema(runtime).Shown?
    ensures Everywhere(Strict, ProviderSchema(runtime).schema)
  {
    TranslateRenames(runtime);
    StripIsStrict(Translate(runtime));
  }

  const FENCED_PATTERNS: Schema := map["patternProperties" := Obj(map["^x" := Obj(map[])]),
                                       "additionalProperties" := Bool(false)]

  const ANY_MEANING := Meaning((_, _, _) => true, (_, _, _) => true, (_, _) => true)

  lemma FencedKeywords(k: string)
    ensures !Structural("patternProperties") && !Structural("additionalProperties")
    ensures Under("patternProperties", FENCED_PATTERNS["patternProperties"]) == {}
    ensures Under("additionalProperties", Bool(false)) == {Bool(false)}
    ensures k in FENCED_PATTERNS <==> k == "patternProperties" || k == "additionalProperties"
  {
  }

  lemma FencedPatternsAreShown()
    ensures ProviderSchema(Obj(FENCED_PATTERNS)).Shown?
    ensures forall k, c | k in FENCED_PATTERNS && c in Under(k, FENCED_PATTERNS[k]) :: c == Bool(false)
  {
    hide Under, ProviderSchema, Structural;
    forall k | k in FENCED_PATTERNS
      ensures !Structural(k) && forall c | c in Under(k, FENCED_PATTERNS[k]) :: c == Bool(false)
    {
      FencedKeywords(k);
    }
    assert Everywhere(Supported, Bool(false));
    assert Everywhere(Supported, Obj(FENCED_PATTERNS));
    RefusedExactlyWhenUnsupported(Obj(FENCED_PATTERNS));
  }

  lemma FencedNames(v: Json)
    requires v == Obj(map["x1" := Null])
    ensures Declared(ANY_MEANING, FENCED_PATTERNS, "x1") && !Unfenced(FENCED_PATTERNS, v)
  {
    assert "^x" in FENCED_PATTERNS["patternProperties"].fields && ANY_MEANING.matches("^x", "x1");
    assert "x1" in v.fields;
  }

  lemma FencedPatternsAccept(v: Json)
    requires v == Obj(map["x1" := Null])
    ensures Accepts(ANY_MEANING, Obj(FENCED_PATTERNS), v) && !Unfenced(FENCED_PATTERNS, v)
  {
    FencedNames(v);
    hide Declared, Unfenced, Contextual;
    assert Holds(ANY_MEANING, FENCED_PATTERNS, "additionalProperties", v);
    assert Holds(ANY_MEANING, FENCED_PATTERNS, "patternProperties", v);
  }

  /** A name only a pattern declares is accepted by the tool's schema and not by what the endpoint is shown. */
  lemma PatternsCanNarrow()
    ensures var s, v := Obj(FENCED_PATTERNS), Obj(map["x1" := Null]);
            ProviderSchema(s).Shown? && Accepts(ANY_MEANING, s, v) && !Accepts(ANY_MEANING, ProviderSchema(s).schema, v)
  {
    hide ProviderSchema, Unfenced, Under, Accepts;
    var v := Obj(map["x1" := Null]);
    FencedPatternsAreShown();
    FencedPatternsAccept(v);
    assert Everywhere(PatternsUnfenced, Bool(false));
    StaysAcceptedExactlyWhenUnfenced(ANY_MEANING, FENCED_PATTERNS, v);
  }
}
