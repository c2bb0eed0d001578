/** The contract validator: what a schema document means. Schemas are plain JSON documents, read
    keyword by keyword as the validator reads them. `$ref` may be recursive, so a call carries the
    depth it may still descend; running out counts as `Broken`, like a thrown error. */
module Schema {
  import opened Texts
  import opened Json

  datatype Verdict = Accepts | Rejects | Broken

  /** What the host supplies: regular expressions and the canonical instant format. */
  datatype Host = Host(compiles: string -> bool, matches: (string, string) -> bool, instant: string -> bool)

  /** `new RegExp(pattern, "u").test(text)` */
  function PatternVerdict(h: Host, pattern: string, text: string): Verdict
  {
    if !h.compiles(pattern) then Broken else if h.matches(pattern, text) then Accepts else Rejects
  }

  const MAX_SAFE: real := 9007199254740991.0

  function Field(schema: Json, key: string): Option<Json>
  {
    if schema.JObj? && key in schema.fields then Some(schema.fields[key]) else None
  }

  /** Issues found (`bad`) and errors thrown (`broken`), as one verdict. */
  function Judge(broken: bool, bad: bool): Verdict
  {
    if broken then Broken else if bad then Rejects else Accepts
  }

  function Number(x: Option<Json>): Option<real>
  {
    if x.Some? && x.value.JNum? then Some(x.value.n) else None
  }

  /** `typeof bound === "number" && value < bound` */
  predicate Below(value: real, bound: Option<Json>)
  {
    Number(bound).Some? && value < Number(bound).value
  }

  predicate Above(value: real, bound: Option<Json>)
  {
    Number(bound).Some? && value > Number(bound).value
  }

  predicate IsSafeInteger(n: real)
  {
    n == n.Floor as real && -MAX_SAFE <= n <= MAX_SAFE
  }

  /** `matchesType`; an unknown type name throws. */
  function MatchesType(value: Json, name: string): Option<bool>
  {
    match name
    case "object" => Some(value.JObj?)
    case "array" => Some(value.JArr?)
    case "integer" => Some(value.JNum? && IsSafeInteger(value.n))
    case "number" => Some(value.JNum?)
    case "string" => Some(value.JStr?)
    case "boolean" => Some(value.JBool?)
    case "null" => Some(value.JNull?)
    case _ => None
  }

  /** `types.some(...)` from index `i` on. */
  function AnyType(value: Json, types: seq<Json>, i: nat): Verdict
    requires i <= |types|
    decreases |types| - i
  {
    if i == |types| || !types[i].JStr? then Rejects
    else
      var m := MatchesType(value, types[i].t);
      if m.None? then Broken else if m.value then Accepts else AnyType(value, types, i + 1)
  }

  function TypeVerdict(schema: Json, value: Json): Verdict
  {
    match Field(schema, "type")
    case Some(JStr(name)) =>
      var m := MatchesType(value, name);
      if m.None? then Broken else if m.value then Accepts else Rejects
    case Some(JArr(types)) =>
      if exists i :: 0 <= i < |types| && !types[i].JStr? then Rejects else AnyType(value, types, 0)
    case _ => Accepts
  }

  /** `const`, `enum` and `type`: the first one that fails ends the validation. */
  function Guard(schema: Json, value: Json): Verdict
  {
    var constant, choices := Field(schema, "const"), Field(schema, "enum");
    if constant.Some? && constant.value != value then Rejects
    else if choices.Some? && choices.value.JArr? && value !in choices.value.items then Rejects
    else TypeVerdict(schema, value)
  }

  function StringVerdict(h: Host, schema: Json, text: string): Verdict
  {
    var pattern := match Field(schema, "pattern") case Some(JStr(p)) => PatternVerdict(h, p, text) case _ => Accepts;
    Judge(pattern == Broken,
          Below(|text| as real, Field(schema, "minLength")) || Above(|text| as real, Field(schema, "maxLength")) ||
          pattern == Rejects || (Field(schema, "format") == Some(JStr("ontos-canonical-instant")) && !h.instant(text)))
  }

  predicate Distinct(items: seq<Json>)
  {
    forall i, j :: 0 <= i < j < |items| ==> items[i] != items[j]
  }

  /** `resolveReference` */
  function Resolve(root: Json, reference: string): Option<Json>
  {
    var prefix := "#/$defs/";
    if !(prefix <= reference) then None
    else
      match Field(root, "$defs")
      case Some(JObj(defs)) =>
        var name := reference[|prefix|..];
        if name in defs then Some(defs[name]) else None
      case _ => None
  }

  /** What the validator looks at first: `$ref` hides its siblings, then `oneOf` does. */
  datatype Form = Reference(name: string) | Choice(branches: seq<Json>) | Plain

  function FormOf(schema: Json): Form
  {
    match Field(schema, "$ref")
    case Some(JStr(reference)) => Reference(reference)
    case _ =>
      match Field(schema, "oneOf")
      case Some(JArr(branches)) => Choice(branches)
      case _ => Plain
  }

  /** `validateValue` with `fuel` levels of descent left. */
  ghost function Validate(h: Host, root: Json, schema: Json, value: Json, fuel: nat): Verdict
    decreases fuel, 2, 0
  {
    if fuel == 0 || !schema.JObj? then Broken
    else
      match FormOf(schema)
      case Reference(name) =>
        var target := Resolve(root, name);
        if target.None? then Broken else Validate(h, root, target.value, value, fuel - 1)
      case Choice(branches) => OneOf(h, root, branches, value, fuel - 1)
      case Plain => PlainVerdict(h, root, schema, value, fuel - 1)
  }

  ghost function PlainVerdict(h: Host, root: Json, schema: Json, value: Json, fuel: nat): Verdict
    decreases fuel, 5, 0
  {
    if Guard(schema, value) != Accepts then Guard(schema, value)
    else
      match value
      case JStr(text) => StringVerdict(h, schema, text)
      case JNum(n) => Judge(false, Below(n, Field(schema, "minimum")) || Above(n, Field(schema, "maximum")))
      case JArr(items) => ArrayVerdict(h, root, schema, items, fuel)
      case JObj(fields) => ObjectVerdict(h, root, schema, fields, fuel)
      case _ => Accepts
  }

  /** Exactly one branch may match. */
  ghost function OneOf(h: Host, root: Json, branches: seq<Json>, value: Json, fuel: nat): Verdict
    decreases fuel, 3, 0
  {
    if exists i :: 0 <= i < |branches| && Validate(h, root, branches[i], value, fuel) == Broken then Broken
    else if exists i :: 0 <= i < |branches| && OnlyMatch(h, root, branches, value, fuel, i) then Accepts
    else Rejects
  }

  ghost predicate OnlyMatch(h: Host, root: Json, branches: seq<Json>, value: Json, fuel: nat, i: nat)
    requires i < |branches|
    decreases fuel, 2, 1
  {
    Validate(h, root, branches[i], value, fuel) == Accepts &&
    forall j :: 0 <= j < |branches| && j != i ==> Validate(h, root, branches[j], value, fuel) == Rejects
  }

  ghost function ArrayVerdict(h: Host, root: Json, schema: Json, items: seq<Json>, fuel: nat): Verdict
    decreases fuel, 3, 0
  {
    var each := Field(schema, "items");
    Judge(each.Some? && exists i :: 0 <= i < |items| && Validate(h, root, each.value, items[i], fuel) == Broken,
          Below(|items| as real, Field(schema, "minItems")) || Above(|items| as real, Field(schema, "maxItems")) ||
          (Field(schema, "uniqueItems") == Some(JBool(true)) && !Distinct(items)) ||
          (each.Some? && exists i :: 0 <= i < |items| && Validate(h, root, each.value, items[i], fuel) == Rejects))
  }

  function Properties(schema: Json): map<string, Json>
  {
    match Field(schema, "properties") case Some(JObj(p)) => p case _ => map[]
  }

  /** `properties` is absent or an object. */
  predicate PropertiesReadable(schema: Json)
  {
    match Field(schema, "properties") case None => true case Some(p) => p.JObj?
  }

  /** The strings listed under `required`. */
  function Required(schema: Json): set<string>
  {
    match Field(schema, "required")
    case Some(JArr(names)) => set i | 0 <= i < |names| && names[i].JStr? :: names[i].t
    case _ => {}
  }

  /** One field of an object: its property schema, or else the unknown-field policy. */
  ghost function FieldVerdict(h: Host, root: Json, schema: Json, key: string, item: Json, fuel: nat): Verdict
    decreases fuel, 3, 0
  {
    if key in Properties(schema) then Validate(h, root, Properties(schema)[key], item, fuel)
    else
      match Field(schema, "additionalProperties")
      case Some(JBool(false)) => Rejects
      case Some(JObj(o)) => Validate(h, root, JObj(o), item, fuel)
      case Some(JArr(a)) => Validate(h, root, JArr(a), item, fuel)
      case _ => Accepts
  }

  ghost function ObjectVerdict(h: Host, root: Json, schema: Json, fields: map<string, Json>, fuel: nat): Verdict
    decreases fuel, 4, 0
  {
    if !PropertiesReadable(schema) then Broken
    else
      Judge(exists k :: k in fields && FieldVerdict(h, root, schema, k, fields[k], fuel) == Broken,
            !(Required(schema) <= fields.Keys) ||
            exists k :: k in fields && FieldVerdict(h, root, schema, k, fields[k], fuel) == Rejects)
  }

  /** `validateSchemaDefinition(root, name, value).valid`, on some finite descent. */
  ghost predicate Admits(h: Host, root: Json, schema: Json, value: Json)
  {
    exists fuel: nat :: Validate(h, root, schema, value, fuel) == Accepts
  }

  ghost predicate Refuses(h: Host, root: Json, schema: Json, value: Json)
  {
    exists fuel: nat :: Validate(h, root, schema, value, fuel) == Rejects
  }

  // ---------------------------------------------------------------- more descent never changes a verdict

  /** With more fuel the verdict stays, unless it was `Broken`. */
  lemma {:induction false} MoreFuel(h: Host, root: Json, schema: Json, value: Json, fuel: nat, more: nat)
    requires fuel <= more && Validate(h, root, schema, value, fuel) != Broken
    ensures Validate(h, root, schema, value, more) == Validate(h, root, schema, value, fuel)
    decreases fuel, 1, 0
  {
    hide PlainVerdict, OneOf;
    match FormOf(schema)
    case Reference(name) => MoreFuel(h, root, Resolve(root, name).value, value, fuel - 1, more - 1);
    case Choice(branches) => MoreForEach(h, root, branches, value, fuel - 1, more - 1);
    case Plain => MoreForPlain(h, root, schema, value, fuel - 1, more - 1);
  }

  lemma MoreForPlain(h: Host, root: Json, schema: Json, value: Json, fuel: nat, more: nat)
    requires fuel <= more && PlainVerdict(h, root, schema, value, fuel) != Broken
    ensures PlainVerdict(h, root, schema, value, more) == PlainVerdict(h, root, schema, value, fuel)
    decreases fuel, 3
  {
    hide ArrayVerdict, ObjectVerdict, Guard, StringVerdict;
    if Guard(schema, value) == Accepts {
      match value
      case JArr(items) => MoreForItems(h, root, schema, items, fuel, more);
      case JObj(fields) => MoreForFields(h, root, schema, fields, fuel, more);
      case _ =>
    }
  }

  lemma {:induction false} MoreForEach(h: Host, root: Json, branches: seq<Json>, value: Json, fuel: nat, more: nat)
    requires fuel <= more && OneOf(h, root, branches, value, fuel) != Broken
    ensures OneOf(h, root, branches, value, more) == OneOf(h, root, branches, value, fuel)
    decreases fuel, 2
  {
    hide Validate;
    forall i | 0 <= i < |branches|
      ensures Validate(h, root, branches[i], value, more) == Validate(h, root, branches[i], value, fuel)
    {
      MoreFuel(h, root, branches[i], value, fuel, more);
    }
    forall i: nat | i < |branches|
      ensures OnlyMatch(h, root, branches, value, more, i) == OnlyMatch(h, root, branches, value, fuel, i)
    {
    }
  }

  lemma {:induction false} MoreForItems(h: Host, root: Json, schema: Json, items: seq<Json>, fuel: nat, more: nat)
    requires fuel <= more && ArrayVerdict(h, root, schema, items, fuel) != Broken
    ensures ArrayVerdict(h, root, schema, items, more) == ArrayVerdict(h, root, schema, items, fuel)
    decreases fuel, 2
  {
    hide Validate;
    var each := Field(schema, "items");
    if each.Some? {
      forall i | 0 <= i < |items|
        ensures Validate(h, root, each.value, items[i], more) == Validate(h, root, each.value, items[i], fuel)
      {
        MoreFuel(h, root, each.value, items[i], fuel, more);
      }
    }
  }

  lemma {:induction false} MoreForFields(h: Host, root: Json, schema: Json, fields: map<string, Json>, fuel: nat, more: nat)
    requires fuel <= more && ObjectVerdict(h, root, schema, fields, fuel) != Broken
    ensures ObjectVerdict(h, root, schema, fields, more) == ObjectVerdict(h, root, schema, fields, fuel)
    decreases fuel, 2
  {
    hide FieldVerdict, Required, PropertiesReadable;
    forall k | k in fields
      ensures FieldVerdict(h, root, schema, k, fields[k], more) == FieldVerdict(h, root, schema, k, fields[k], fuel)
    {
      MoreForField(h, root, schema, k, fields[k], fuel, more);
    }
  }

  lemma MoreForField(h: Host, root: Json, schema: Json, key: string, item: Json, fuel: nat, more: nat)
    requires fuel <= more && FieldVerdict(h, root, schema, key, item, fuel) != Broken
    ensures FieldVerdict(h, root, schema, key, item, more) == FieldVerdict(h, root, schema, key, item, fuel)
    decreases fuel, 1, 1
  {
    hide Validate;
    if key in Properties(schema) {
      MoreFuel(h, root, Properties(schema)[key], item, fuel, more);
    } else {
      match Field(schema, "additionalProperties")
      case Some(JObj(o)) => MoreFuel(h, root, JObj(o), item, fuel, more);
      case Some(JArr(a)) => MoreFuel(h, root, JArr(a), item, fuel, more);
      case _ =>
    }
  }

  /** A value is never both admitted and refused. */
  lemma NeverBoth(h: Host, root: Json, schema: Json, value: Json)
    ensures !(Admits(h, root, schema, value) && Refuses(h, root, schema, value))
  {
    hide Validate;
    if Admits(h, root, schema, value) && Refuses(h, root, schema, value) {
      var f: nat :| Validate(h, root, schema, value, f) == Accepts;
      var g: nat :| Validate(h, root, schema, value, g) == Rejects;
      if f <= g { MoreFuel(h, root, schema, value, f, g); } else { MoreFuel(h, root, schema, value, g, f); }
    }
  }
}
