/** Tool schemas as JSON documents, and what it means for an instance to satisfy one,
    after sections 10 and 11 of JSON Schema Core and sections 6.1 to 6.5 of JSON
    Schema Validation, draft 2020-12. */
module JsonSchema {
  datatype Json =
    | Null
    | Bool(truth: bool)
    | Num(number: real)
    | Str(text: string)
    | Arr(items: seq<Json>)
    | Obj(fields: map<string, Json>)

  type Schema = map<string, Json>

  /** How the keywords this model does not look into behave: those an endpoint is
      never shown may depend on everything beside them, the others on their own value. */
  datatype Meaning = Meaning(
    own: (string, Json, Json) -> bool,
    context: (string, Schema, Json) -> bool,
    matches: (string, string) -> bool)

  // ----- Subschemas -----

  predicate HoldsNamed(k: string) { k in ["properties", "$defs", "definitions", "dependentSchemas"] }

  predicate HoldsOne(k: string) {
    k in ["items", "additionalProperties", "contains", "propertyNames", "not", "if", "then", "else"]
  }

  predicate HoldsList(k: string) { k in ["anyOf", "allOf", "oneOf", "prefixItems"] }

  /** The subschemas under one keyword, objects or not. */
  function Under(k: string, value: Json): (r: set<Json>)
    ensures forall c | c in r :: c < value || c == value
  {
    if HoldsNamed(k) && value.Obj? then value.fields.Values
    else if HoldsOne(k) then {value}
    else if HoldsList(k) && value.Arr? then set c | c in value.items
    else {}
  }

  /** Whether a property holds of a schema node and of every one nested in it. */
  ghost predicate Everywhere(p: Schema -> bool, j: Json)
    decreases j
  {
    j.Obj? ==> p(j.fields) && forall k, c | k in j.fields && c in Under(k, j.fields[k]) :: Everywhere(p, c)
  }

  // ----- Acceptance -----

  predicate HasType(t: string, v: Json) {
    match v
    case Null => t == "null"
    case Bool(_) => t == "boolean"
    case Num(n) => t == "number" || (t == "integer" && n == n.Floor as real)
    case Str(_) => t == "string"
    case Arr(_) => t == "array"
    case Obj(_) => t == "object"
  }

  predicate TypeAllows(t: Json, v: Json) {
    match t
    case Str(name) => HasType(name, v)
    case Arr(names) => exists n | n in names :: n.Str? && HasType(n.text, v)
    case _ => true
  }

  predicate Declared(m: Meaning, s: Schema, name: string) {
    || ("properties" in s && s["properties"].Obj? && name in s["properties"].fields)
    || ("patternProperties" in s && s["patternProperties"].Obj?
        && exists p | p in s["patternProperties"].fields :: m.matches(p, name))
  }

  function PrefixLength(s: Schema): nat {
    if "prefixItems" in s && s["prefixItems"].Arr? then |s["prefixItems"].items| else 0
  }

  predicate Accepts(m: Meaning, j: Json, v: Json)
    decreases j, 1
  {
    match j
    case Bool(b) => b
    case Obj(s) => forall k | k in s :: Holds(m, s, k, v)
    case _ => true
  }

  predicate Holds(m: Meaning, s: Schema, k: string, v: Json)
    requires k in s
    decreases Obj(s), 0
  {
    var value := s[k];
    if k == "const" then v == value
    else if k == "enum" then value.Arr? ==> v in value.items
    else if k == "type" then TypeAllows(value, v)
    else if k == "required" then value.Arr? && v.Obj? ==> forall n | n in value.items && n.Str? :: n.text in v.fields
    else if k == "properties" then
      value.Obj? && v.Obj? ==> forall n | n in value.fields && n in v.fields :: Accepts(m, value.fields[n], v.fields[n])
    else if k == "additionalProperties" then
      v.Obj? ==> forall n | n in v.fields && !Declared(m, s, n) :: Accepts(m, value, v.fields[n])
    else if k == "items" then
      v.Arr? ==> forall i | PrefixLength(s) <= i < |v.items| :: Accepts(m, value, v.items[i])
    else if k == "anyOf" then value.Arr? ==> exists c | c in value.items :: Accepts(m, c, v)
    else if k == "oneOf" then
      value.Arr? ==> exists i | 0 <= i < |value.items| ::
        Accepts(m, value.items[i], v) && forall h | 0 <= h < |value.items| && h != i :: !Accepts(m, value.items[h], v)
    else if k == "$defs" || k == "definitions" then true
    else if Contextual(k) then m.context(k, s, v)
    else m.own(k, value, v)
  }

  predicate Contextual(k: string) { Structural(k) || Removable(k) }

  /** Keywords a strict endpoint rejects and no rewriting can drop. */
  predicate Structural(k: string) {
    k in ["allOf", "dependentRequired", "dependentSchemas", "else", "if", "not", "prefixItems", "then"]
  }

  /** Keywords a strict endpoint rejects that only narrow what a schema accepts. */
  predicate Removable(k: string) {
    k in ["contains", "format", "maxContains", "maxItems", "maxLength", "maxProperties", "maximum", "minContains",
          "minItems", "minLength", "minProperties", "minimum", "multipleOf", "pattern", "patternProperties",
          "propertyNames", "unevaluatedItems", "unevaluatedProperties", "uniqueItems"]
  }
}
