/** What the rewriting takes from an accepted instance, along the nodes the instance meets. */
module ProviderPath {
  import opened JsonSchema
  import opened ProviderSchema

  predicate NoAlternatives(s: Schema) { "anyOf" !in s && "oneOf" !in s }

  /** Every node the instance meets through properties and items is unfenced for the value it meets there. */
  predicate UnfencedAlong(j: Json, v: Json)
    decreases j
  {
    j.Obj? ==>
      var s := j.fields;
      && Unfenced(s, v)
      && (v.Obj? && "properties" in s && s["properties"].Obj? ==>
            forall n | n in s["properties"].fields && n in v.fields ::
              UnfencedAlong(s["properties"].fields[n], v.fields[n]))
      && (v.Arr? && "items" in s ==> forall i | 0 <= i < |v.items| :: UnfencedAlong(s["items"], v.items[i]))
  }

  ghost predicate Fit(j: Json) { Everywhere(NoAlternatives, j) && Everywhere(Supported, Translate(j)) }

  /** Whatever the instance, rewriting the node keeps exactly the accepted ones that are unfenced along it. */
  ghost predicate KeepsExactly(m: Meaning, j: Json) {
    forall v | Accepts(m, j, v) :: Accepts(m, Both(j), v) <==> UnfencedAlong(j, v)
  }

  predicate PropertiesAlong(s: Schema, v: Json)
    requires "properties" in s
  {
    v.Obj? && s["properties"].Obj? ==>
      forall n | n in s["properties"].fields && n in v.fields :: UnfencedAlong(s["properties"].fields[n], v.fields[n])
  }

  predicate ItemsAlong(s: Schema, v: Json)
    requires "items" in s
  {
    v.Arr? ==> forall i | 0 <= i < |v.items| :: UnfencedAlong(s["items"], v.items[i])
  }

  lemma AlongIs(s: Schema, v: Json)
    ensures UnfencedAlong(Obj(s), v) <==>
              && Unfenced(s, v) && ("properties" in s ==> PropertiesAlong(s, v)) && ("items" in s ==> ItemsAlong(s, v))
  {
  }

  lemma PropertiesKept(m: Meaning, s: Schema, r: Schema, v: Json)
    requires "properties" in s && "properties" in r && r["properties"] == BothUnder("properties", s["properties"])
    requires Holds(m, s, "properties", v)
    requires forall c | c in Under("properties", s["properties"]) :: KeepsExactly(m, c)
    ensures Holds(m, r, "properties", v) <==> PropertiesAlong(s, v)
  {
    if v.Obj? && s["properties"].Obj? {
      var props := s["properties"].fields;
      assert r["properties"].Obj? && r["properties"].fields.Keys == props.Keys;
      hide Both, UnfencedAlong;
      forall n | n in props && n in v.fields
        ensures Accepts(m, r["properties"].fields[n], v.fields[n]) <==> UnfencedAlong(props[n], v.fields[n])
      {
        assert props[n] in Under("properties", s["properties"]);
        assert KeepsExactly(m, props[n]);
      }
    }
  }

  lemma ItemsKept(m: Meaning, s: Schema, r: Schema, v: Json)
    requires "items" in s && "items" in r && r["items"] == BothUnder("items", s["items"])
    requires "prefixItems" !in s && "prefixItems" !in r && Holds(m, s, "items", v)
    requires forall c | c in Under("items", s["items"]) :: KeepsExactly(m, c)
    ensures Holds(m, r, "items", v) <==> ItemsAlong(s, v)
  {
    assert s["items"] in Under("items", s["items"]);
    assert KeepsExactly(m, s["items"]);
    hide Both, UnfencedAlong;
  }

  /** What an accepted instance has to satisfy for one rewritten keyword to hold. */
  predicate KeywordAlong(s: Schema, k: string, v: Json) {
    if k == "properties" && k in s then PropertiesAlong(s, v)
    else if k == "items" && k in s then ItemsAlong(s, v)
    else if k == "additionalProperties" && k in s then Unfenced(s, v)
    else true
  }

  lemma FenceAlong(m: Meaning, s: Schema, r: Schema, v: Json)
    requires Supported(Translate(Obj(s)).fields) && r == Both(Obj(s)).fields
    requires "additionalProperties" in s && Holds(m, s, "additionalProperties", v)
    ensures "additionalProperties" in r && (Holds(m, r, "additionalProperties", v) <==> Unfenced(s, v))
  {
    FenceKept(m, s, r, v);
    if "patternProperties" !in s {
      KeptKeys(s);
      hide Both, Translate, Holds;
      FenceMeans(m, s, v);
    }
  }

  lemma KeywordKept(m: Meaning, s: Schema, k: string, v: Json)
    requires NoAlternatives(s) && Supported(Translate(Obj(s)).fields) && Accepts(m, Obj(s), v)
    requires forall h, c | h in s && c in Under(h, s[h]) :: KeepsExactly(m, c)
    requires k in Both(Obj(s)).fields
    ensures Holds(m, Both(Obj(s)).fields, k, v) <==> KeywordAlong(s, k, v)
  {
    hide Both, Translate, Supported, BothUnder, Holds, Under, KeepsExactly, PropertiesAlong, ItemsAlong, Unfenced;
    hide EndsWith, HoldsNamed, HoldsOne, HoldsList;
    BothIsObject(s);
    ShapeOfBoth(s, k);
    KeptNames(s);
    var r := Both(Obj(s)).fields;
    if k == "enum" && "const" in s {
      assert Holds(m, s, "const", v);
      ConstWidens(m, s, r, v);
    } else {
      assert Holds(m, s, k, v);
      if k == "properties" {
        PropertiesKept(m, s, r, v);
      } else if k == "items" {
        ItemsKept(m, s, r, v);
      } else if k == "additionalProperties" {
        FenceAlong(m, s, r, v);
      } else {
        PlainWidens(m, s, r, k, v);
      }
    }
  }

  /** A pattern fences nothing where no fence stands. */
  lemma NoFence(s: Schema, v: Json)
    requires "additionalProperties" !in s
    ensures Unfenced(s, v)
  {
  }

  lemma NodeKept(m: Meaning, s: Schema, v: Json)
    requires NoAlternatives(s) && Supported(Translate(Obj(s)).fields) && Accepts(m, Obj(s), v)
    requires forall h, c | h in s && c in Under(h, s[h]) :: KeepsExactly(m, c)
    ensures Accepts(m, Both(Obj(s)), v) <==> UnfencedAlong(Obj(s), v)
  {
    hide Both, Translate, Supported, Holds, Under, KeepsExactly, PropertiesAlong, ItemsAlong, Unfenced, UnfencedAlong;
    BothIsObject(s);
    var r := Both(Obj(s)).fields;
    KeptNames(s);
    AlongIs(s, v);
    forall k | k in r
      ensures Holds(m, r, k, v) <==> KeywordAlong(s, k, v)
    {
      KeywordKept(m, s, k, v);
    }
    if "additionalProperties" !in s {
      NoFence(s, v);
    }
    KeywordsAlong(s, r, v);
  }

  /** Together the keywords that are left ask for what the node asks for. */
  lemma KeywordsAlong(s: Schema, r: Schema, v: Json)
    requires ("properties" in s <==> "properties" in r) && ("items" in s ==> "items" in r)
    requires if "additionalProperties" in s then "additionalProperties" in r else Unfenced(s, v)
    ensures (forall k | k in r :: KeywordAlong(s, k, v)) <==> UnfencedAlong(Obj(s), v)
  {
    AlongIs(s, v);
    hide PropertiesAlong, ItemsAlong, Unfenced, UnfencedAlong;
    assert "properties" in s ==> (KeywordAlong(s, "properties", v) <==> PropertiesAlong(s, v));
    assert "items" in s ==> (KeywordAlong(s, "items", v) <==> ItemsAlong(s, v));
    assert "additionalProperties" in s ==> (KeywordAlong(s, "additionalProperties", v) <==> Unfenced(s, v));
  }

  lemma KeptNames(s: Schema)
    requires Supported(Translate(Obj(s)).fields)
    ensures var r := Both(Obj(s)).fields;
            && "prefixItems" !in s && "prefixItems" !in r
            && ("properties" in s <==> "properties" in r) && ("items" in s ==> "items" in r)
            && ("additionalProperties" in s ==> "additionalProperties" in r)
  {
    hide Translate, Strip, Supported;
    KeptKeys(s);
    TranslateKeeps(s, "items");
    StripKeeps(Translate(Obj(s)).fields, "items");
  }

  lemma ChildFits(s: Schema, k: string, c: Json)
    requires Fit(Obj(s)) && k in s && c in Under(k, s[k])
    ensures Fit(c)
  {
    hide Translate, Under;
    TranslatedChild(s, k, c);
  }

  lemma {:induction false} TreeKept(m: Meaning, j: Json)
    requires Fit(j)
    ensures KeepsExactly(m, j)
    decreases j
  {
    if j.Obj? {
      var s := j.fields;
      forall k, c | k in s && c in Under(k, s[k])
        ensures KeepsExactly(m, c)
      {
        ChildFits(s, k, c);
        TreeKept(m, c);
      }
      forall v | Accepts(m, j, v)
        ensures Accepts(m, Both(j), v) <==> UnfencedAlong(j, v)
      {
        NodeKept(m, s, v);
      }
    }
  }

  /** Of a schema without alternatives an accepted instance stays accepted exactly if, at every node it meets,
      no pattern was what declared one of the names it uses there. */
  lemma StaysAcceptedExactlyAlongThePath(m: Meaning, runtime: Json, v: Json)
    requires Everywhere(NoAlternatives, runtime) && ProviderSchema.ProviderSchema(runtime).Shown?
    requires Accepts(m, runtime, v)
    ensures Accepts(m, ProviderSchema.ProviderSchema(runtime).schema, v) <==> UnfencedAlong(runtime, v)
  {
    TreeKept(m, runtime);
  }
}
