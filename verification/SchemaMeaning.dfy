/** What a schema document means, keyword by keyword, with no talk of depth: the values a node admits are
    given by what its parts admit. */
module SchemaMeaning {
  import opened Texts
  import opened Json
  import opened Schema
  import opened Compatibility
  import opened CompatibilityNeeds

  type Keywords = map<string, Json>

  // ---------------------------------------------------------------- the keywords

  /** `v` is of the type that `name` names; integers are those a double holds exactly. */
  ghost predicate HasType(v: Json, name: string)
  {
    (name == "object" && v.JObj?) || (name == "array" && v.JArr?) || (name == "string" && v.JStr?) || (name == "number" && v.JNum?) ||
    (name == "boolean" && v.JBool?) || (name == "null" && v.JNull?) ||
    (name == "integer" && v.JNum? && exists k: int :: IsWhole(v.n, k) && -9007199254740991 <= k <= 9007199254740991)
  }

  /** The number `x` is the integer `k`. */
  predicate IsWhole(x: real, k: int)
  {
    x == k as real
  }

  predicate Known(name: string)
  {
    name in {"object", "array", "string", "number", "boolean", "null", "integer"}
  }

  /** One of the listed types fits, and none of those tried before it is unknown. */
  ghost predicate OneFits(v: Json, types: seq<Json>)
  {
    (forall i :: 0 <= i < |types| ==> types[i].JStr?) &&
    exists k :: 0 <= k < |types| && FitsAt(v, types, k)
  }

  ghost predicate FitsAt(v: Json, types: seq<Json>, k: nat)
    requires k < |types| && forall i :: 0 <= i < |types| ==> types[i].JStr?
  {
    HasType(v, types[k].t) && forall i :: 0 <= i < k ==> Known(types[i].t)
  }

  /** `const`, `enum` and `type`, which look at every value. */
  ghost predicate IsOneOf(f: Keywords, v: Json)
  {
    ("const" in f ==> v == f["const"]) && ("enum" in f && f["enum"].JArr? ==> v in f["enum"].items) &&
    ("type" in f && f["type"].JStr? ==> HasType(v, f["type"].t)) && ("type" in f && f["type"].JArr? ==> OneFits(v, f["type"].items))
  }

  /** `size` is at least the number under `key`, if there is one. */
  predicate AtLeast(f: Keywords, key: string, size: real)
  {
    key in f && f[key].JNum? ==> f[key].n <= size
  }

  predicate NotOver(f: Keywords, key: string, size: real)
  {
    key in f && f[key].JNum? ==> size <= f[key].n
  }

  predicate TextFits(h: Host, f: Keywords, text: string)
  {
    AtLeast(f, "minLength", |text| as real) && NotOver(f, "maxLength", |text| as real) &&
    ("pattern" in f && f["pattern"].JStr? ==> h.compiles(f["pattern"].t) && h.matches(f["pattern"].t, text)) &&
    ("format" in f && f["format"] == JStr("ontos-canonical-instant") ==> h.instant(text))
  }

  ghost predicate ListFits(h: Host, root: Json, f: Keywords, items: seq<Json>)
  {
    AtLeast(f, "minItems", |items| as real) && NotOver(f, "maxItems", |items| as real) &&
    ("uniqueItems" in f && f["uniqueItems"] == JBool(true) ==> forall i, j :: 0 <= i < j < |items| ==> items[i] != items[j]) &&
    ("items" in f ==> forall i :: 0 <= i < |items| ==> Admits(h, root, f["items"], items[i]))
  }

  /** A declared property by its own schema, any other field by the policy for unknown ones. */
  ghost predicate FieldFits(h: Host, root: Json, f: Keywords, k: string, x: Json)
  {
    if "properties" in f && f["properties"].JObj? && k in f["properties"].fields then Admits(h, root, f["properties"].fields[k], x)
    else if "additionalProperties" in f then
      f["additionalProperties"] != JBool(false) &&
      (f["additionalProperties"].JObj? || f["additionalProperties"].JArr? ==> Admits(h, root, f["additionalProperties"], x))
    else true
  }

  ghost predicate ObjectFits(h: Host, root: Json, f: Keywords, fields: map<string, Json>)
  {
    ("properties" in f ==> f["properties"].JObj?) &&
    ("required" in f && f["required"].JArr? ==> forall name :: JStr(name) in f["required"].items ==> name in fields) &&
    forall k :: k in fields ==> FieldFits(h, root, f, k, fields[k])
  }

  /** The value meets every keyword of the node. */
  ghost predicate Meets(h: Host, root: Json, f: Keywords, v: Json)
  {
    IsOneOf(f, v) && (v.JNum? ==> AtLeast(f, "minimum", v.n) && NotOver(f, "maximum", v.n)) && (v.JStr? ==> TextFits(h, f, v.t)) &&
    (v.JArr? ==> ListFits(h, root, f, v.items)) && (v.JObj? ==> ObjectFits(h, root, f, v.fields))
  }

  predicate HasRef(f: Keywords)
  {
    "$ref" in f && f["$ref"].JStr?
  }

  predicate HasChoice(f: Keywords)
  {
    !HasRef(f) && "oneOf" in f && f["oneOf"].JArr?
  }

  // ---------------------------------------------------------------- guards

  lemma TypeMeans(v: Json, name: string)
    ensures MatchesType(v, name) == if Known(name) then Some(HasType(v, name)) else None
  {
    if name == "integer" && v.JNum? {
      if IsSafeInteger(v.n) { assert IsWhole(v.n, v.n.Floor); }
      if k: int :| IsWhole(v.n, k) && -9007199254740991 <= k <= 9007199254740991 { assert v.n.Floor == k; }
    }
  }

  lemma {:induction false} TypesMean(v: Json, types: seq<Json>, k: nat)
    requires k <= |types| && forall i :: 0 <= i < |types| ==> types[i].JStr?
    ensures AnyType(v, types, k) == Accepts <==>
      exists m :: k <= m < |types| && HasType(v, types[m].t) && forall i :: k <= i < m ==> Known(types[i].t)
    decreases |types| - k
  {
    hide MatchesType, HasType, Known;
    if k < |types| {
      TypeMeans(v, types[k].t);
      TypesMean(v, types, k + 1);
      KnownIfTyped(v, types[k].t);
      if m :| k <= m < |types| && HasType(v, types[m].t) && forall i :: k <= i < m ==> Known(types[i].t) {
        if m > k { assert Known(types[k].t); }
      }
    }
  }

  lemma KnownIfTyped(v: Json, name: string)
    ensures HasType(v, name) ==> Known(name)
  {
  }

  lemma FirstFit(v: Json, types: seq<Json>)
    requires forall i :: 0 <= i < |types| ==> types[i].JStr?
    ensures AnyType(v, types, 0) == Accepts <==> OneFits(v, types)
  {
    hide HasType, Known, AnyType;
    TypesMean(v, types, 0);
    if m :| 0 <= m < |types| && HasType(v, types[m].t) && forall i :: 0 <= i < m ==> Known(types[i].t) { assert FitsAt(v, types, m); }
  }

  lemma TypeKeyMeans(f: Keywords, v: Json)
    ensures TypeVerdict(JObj(f), v) == Accepts <==>
      ("type" in f && f["type"].JStr? ==> HasType(v, f["type"].t)) && ("type" in f && f["type"].JArr? ==> OneFits(v, f["type"].items))
  {
    hide MatchesType, HasType, Known, AnyType;
    if "type" in f && f["type"].JStr? {
      TypeMeans(v, f["type"].t);
      KnownIfTyped(v, f["type"].t);
    }
    if "type" in f && f["type"].JArr? && forall i :: 0 <= i < |f["type"].items| ==> f["type"].items[i].JStr? { FirstFit(v, f["type"].items); }
  }

  lemma GuardMeans(f: Keywords, v: Json)
    ensures Guard(JObj(f), v) == Accepts <==> IsOneOf(f, v)
  {
    TypeKeyMeans(f, v);
    hide TypeVerdict, HasType, OneFits;
  }

  // ---------------------------------------------------------------- texts, numbers, lists, objects

  lemma BoundsMean(f: Keywords, key: string, size: real)
    ensures !Below(size, Field(JObj(f), key)) <==> AtLeast(f, key, size)
    ensures !Above(size, Field(JObj(f), key)) <==> NotOver(f, key, size)
  {
  }

  lemma TextMeans(h: Host, f: Keywords, text: string)
    ensures StringVerdict(h, JObj(f), text) == Accepts <==> TextFits(h, f, text)
  {
    BoundsMean(f, "minLength", |text| as real);
    BoundsMean(f, "maxLength", |text| as real);
    hide Below, Above, AtLeast, NotOver;
  }

  lemma ItemsMean(h: Host, root: Json, f: Keywords, items: seq<Json>)
    ensures (exists fuel: nat :: ArrayVerdict(h, root, JObj(f), items, fuel) == Accepts) <==> ListFits(h, root, f, items)
  {
    BoundsMean(f, "minItems", |items| as real);
    BoundsMean(f, "maxItems", |items| as real);
    SizeMeans(f, items);
    hide Below, Above, AtLeast, NotOver, SizeOk, Validate, ArrayVerdict;
    if fuel: nat :| ArrayVerdict(h, root, JObj(f), items, fuel) == Accepts {
      ArrayAccepts(h, root, JObj(f), items, fuel);
    }
    if ListFits(h, root, f, items) {
      var fuel := 0;
      if "items" in f { fuel := ItemFuel(h, root, f["items"], items); }
      ArrayAccepts(h, root, JObj(f), items, fuel);
    }
  }

  lemma SizeMeans(f: Keywords, items: seq<Json>)
    ensures SizeOk(JObj(f), items) <==>
      AtLeast(f, "minItems", |items| as real) && NotOver(f, "maxItems", |items| as real) &&
      ("uniqueItems" in f && f["uniqueItems"] == JBool(true) ==> forall i, j :: 0 <= i < j < |items| ==> items[i] != items[j])
  {
  }

  lemma ItemFuel(h: Host, root: Json, each: Json, items: seq<Json>) returns (fuel: nat)
    requires forall i :: 0 <= i < |items| ==> Admits(h, root, each, items[i])
    ensures forall i :: 0 <= i < |items| ==> Validate(h, root, each, items[i], fuel) == Accepts
  {
    hide Validate;
    var pairs := set i | 0 <= i < |items| :: (each, items[i]);
    forall p | p in pairs
      ensures exists g: nat :: Settles(h, root, p, g)
    {
      var i :| 0 <= i < |items| && p == (each, items[i]);
      var g: nat :| Validate(h, root, each, items[i], g) == Accepts;
      assert Settles(h, root, p, g);
    }
    fuel := CommonFuel(h, root, pairs);
    forall i | 0 <= i < |items|
      ensures Validate(h, root, each, items[i], fuel) == Accepts
    {
      assert (each, items[i]) in pairs;
      SettledVerdict(h, root, each, items[i], fuel);
    }
  }

  lemma FieldMeans(h: Host, root: Json, f: Keywords, k: string, x: Json)
    ensures FieldAdmits(h, root, JObj(f), k, x) <==> FieldFits(h, root, f, k, x)
  {
    hide Admits;
  }

  lemma RequiredMeans(f: Keywords, fields: map<string, Json>)
    ensures Required(JObj(f)) <= fields.Keys <==>
      ("required" in f && f["required"].JArr? ==> forall name :: JStr(name) in f["required"].items ==> name in fields)
  {
    if "required" in f && f["required"].JArr? {
      var names := f["required"].items;
      forall name
        ensures name in Required(JObj(f)) <==> JStr(name) in names
      {
        if JStr(name) in names {
          var i :| 0 <= i < |names| && names[i] == JStr(name);
        }
      }
    }
  }

  lemma FieldsMean(h: Host, root: Json, f: Keywords, fields: map<string, Json>)
    ensures (exists fuel: nat :: ObjectAt(h, root, JObj(f), fields, fuel)) <==> ObjectFits(h, root, f, fields)
  {
    ObjectVerdictAdmits(h, root, JObj(f), fields);
    RequiredMeans(f, fields);
    assert PropertiesReadable(JObj(f)) <==> ("properties" in f ==> f["properties"].JObj?);
    forall k | k in fields
      ensures FieldAdmits(h, root, JObj(f), k, fields[k]) <==> FieldFits(h, root, f, k, fields[k])
    {
      FieldMeans(h, root, f, k, fields[k]);
    }
    hide ObjectAt, FieldAdmits, FieldFits, Required, PropertiesReadable;
  }

  // ---------------------------------------------------------------- nodes

  lemma BodyMeans(h: Host, root: Json, f: Keywords, v: Json)
    ensures (exists fuel: nat :: BodyVerdict(h, root, JObj(f), v, fuel) == Accepts) <==>
      (v.JNum? ==> AtLeast(f, "minimum", v.n) && NotOver(f, "maximum", v.n)) && (v.JStr? ==> TextFits(h, f, v.t)) &&
      (v.JArr? ==> ListFits(h, root, f, v.items)) && (v.JObj? ==> ObjectFits(h, root, f, v.fields))
  {
    hide StringVerdict, ArrayVerdict, ObjectVerdict, TextFits, ListFits, ObjectFits, Field;
    match v
    case JStr(text) =>
      TextMeans(h, f, text);
      assert BodyVerdict(h, root, JObj(f), v, 0) == StringVerdict(h, JObj(f), text);
    case JNum(n) =>
      BoundsMean(f, "minimum", n);
      BoundsMean(f, "maximum", n);
      hide Below, Above, AtLeast, NotOver;
      assert BodyVerdict(h, root, JObj(f), v, 0) == Judge(false, Below(n, Field(JObj(f), "minimum")) || Above(n, Field(JObj(f), "maximum")));
    case JArr(items) =>
      ItemsMean(h, root, f, items);
      if fuel: nat :| ArrayVerdict(h, root, JObj(f), items, fuel) == Accepts { assert BodyVerdict(h, root, JObj(f), v, fuel) == Accepts; }
      if fuel: nat :| BodyVerdict(h, root, JObj(f), v, fuel) == Accepts { assert ArrayVerdict(h, root, JObj(f), items, fuel) == Accepts; }
    case JObj(fields) =>
      FieldsMean(h, root, f, fields);
      if fuel: nat :| ObjectAt(h, root, JObj(f), fields, fuel) { assert BodyVerdict(h, root, JObj(f), v, fuel) == Accepts; }
      if fuel: nat :| BodyVerdict(h, root, JObj(f), v, fuel) == Accepts { assert ObjectAt(h, root, JObj(f), fields, fuel); }
    case _ => assert BodyVerdict(h, root, JObj(f), v, 0) == Accepts;
  }

  /** A plain node admits exactly the values that meet all its keywords. */
  lemma PlainMeans(h: Host, root: Json, f: Keywords, v: Json)
    requires !HasRef(f) && !HasChoice(f)
    ensures Admits(h, root, JObj(f), v) <==> Meets(h, root, f, v)
  {
    assert FormOf(JObj(f)) == Plain;
    GuardMeans(f, v);
    BodyMeans(h, root, f, v);
    PlainAdmits(h, root, JObj(f), v);
    hide FormOf, Admits, Guard, BodyVerdict, PlainVerdict, IsOneOf, TextFits, ListFits, ObjectFits, AtLeast, NotOver;
    if fuel: nat :| PlainAt(h, root, JObj(f), v, fuel) { PlainAccepts(h, root, JObj(f), v, fuel); }
    if fuel: nat :| BodyVerdict(h, root, JObj(f), v, fuel) == Accepts {
      PlainAccepts(h, root, JObj(f), v, fuel);
      if Guard(JObj(f), v) == Accepts { assert PlainAt(h, root, JObj(f), v, fuel); }
    }
  }

  /** A reference admits what its definition admits, and nothing when there is none. */
  lemma ReferenceMeans(h: Host, root: map<string, Json>, f: Keywords, v: Json)
    requires HasRef(f)
    ensures Admits(h, JObj(root), JObj(f), v) <==>
      "$defs" in root && root["$defs"].JObj? &&
      exists name :: name in root["$defs"].fields && f["$ref"].t == "#/$defs/" + name && Admits(h, JObj(root), root["$defs"].fields[name], v)
  {
    var reference := f["$ref"].t;
    assert FormOf(JObj(f)) == Reference(reference);
    ResolveMeans(root, reference);
    hide FormOf, Resolve;
    if Admits(h, JObj(root), JObj(f), v) {
      var fuel: nat :| Validate(h, JObj(root), JObj(f), v, fuel) == Accepts;
      assert Validate(h, JObj(root), Resolve(JObj(root), reference).value, v, fuel - 1) == Accepts;
    }
    if Resolve(JObj(root), reference).Some? && Admits(h, JObj(root), Resolve(JObj(root), reference).value, v) {
      var fuel: nat :| Validate(h, JObj(root), Resolve(JObj(root), reference).value, v, fuel) == Accepts;
      assert Validate(h, JObj(root), JObj(f), v, fuel + 1) == Accepts;
    }
  }

  lemma ResolveMeans(root: map<string, Json>, reference: string)
    ensures Resolve(JObj(root), reference).Some? <==>
      "$defs" in root && root["$defs"].JObj? && exists name :: name in root["$defs"].fields && reference == "#/$defs/" + name
    ensures forall name :: reference == "#/$defs/" + name && Resolve(JObj(root), reference).Some? ==>
      name in root["$defs"].fields && Resolve(JObj(root), reference).value == root["$defs"].fields[name]
  {
    var prefix := "#/$defs/";
    forall name: string
      ensures reference == prefix + name ==> prefix <= reference && reference[|prefix|..] == name
    {
    }
    if prefix <= reference { assert reference == prefix + reference[|prefix|..]; }
  }

  /** `oneOf` admits a value that one branch admits and every other one refuses. */
  lemma ChoiceMeans(h: Host, root: Json, f: Keywords, v: Json)
    requires HasChoice(f)
    ensures Admits(h, root, JObj(f), v) <==>
      exists i :: 0 <= i < |f["oneOf"].items| && Admits(h, root, f["oneOf"].items[i], v) &&
        forall j :: 0 <= j < |f["oneOf"].items| && j != i ==> Refuses(h, root, f["oneOf"].items[j], v)
  {
    var branches := f["oneOf"].items;
    assert FormOf(JObj(f)) == Choice(branches);
    hide FormOf;
    ChoiceAdmits(h, root, JObj(f), branches, v);
    hide Admits, Refuses;
    if i :| 0 <= i < |branches| && Admits(h, root, branches[i], v) && forall j :: 0 <= j < |branches| && j != i ==> Refuses(h, root, branches[j], v) {
      assert OnlyBranch(h, root, branches, v, i);
    }
  }

  // ---------------------------------------------------------------- one keyword alone

  /** Both bounds of a number are inclusive. */
  lemma NumberBounds(h: Host, root: Json, m: Double, n: Double)
    ensures Admits(h, root, JObj(map["maximum" := JNum(m)]), JNum(n)) <==> n <= m
    ensures Admits(h, root, JObj(map["minimum" := JNum(m)]), JNum(n)) <==> m <= n
  {
    PlainMeans(h, root, map["maximum" := JNum(m)], JNum(n));
    PlainMeans(h, root, map["minimum" := JNum(m)], JNum(n));
    hide Admits;
  }

  lemma TextBounds(h: Host, root: Json, m: Double, text: string)
    ensures Admits(h, root, JObj(map["maxLength" := JNum(m)]), JStr(text)) <==> |text| as real <= m
    ensures Admits(h, root, JObj(map["minLength" := JNum(m)]), JStr(text)) <==> m <= |text| as real
  {
    PlainMeans(h, root, map["maxLength" := JNum(m)], JStr(text));
    PlainMeans(h, root, map["minLength" := JNum(m)], JStr(text));
    hide Admits;
  }

  lemma ListBounds(h: Host, root: Json, m: Double, items: seq<Json>)
    ensures Admits(h, root, JObj(map["maxItems" := JNum(m)]), JArr(items)) <==> |items| as real <= m
    ensures Admits(h, root, JObj(map["minItems" := JNum(m)]), JArr(items)) <==> m <= |items| as real
    ensures Admits(h, root, JObj(map["uniqueItems" := JBool(true)]), JArr(items)) <==> forall i, j :: 0 <= i < j < |items| ==> items[i] != items[j]
  {
    PlainMeans(h, root, map["maxItems" := JNum(m)], JArr(items));
    PlainMeans(h, root, map["minItems" := JNum(m)], JArr(items));
    PlainMeans(h, root, map["uniqueItems" := JBool(true)], JArr(items));
    hide Admits;
  }

  lemma ValuesAlone(h: Host, root: Json, x: Json, items: seq<Json>, v: Json)
    ensures Admits(h, root, JObj(map["const" := x]), v) <==> v == x
    ensures Admits(h, root, JObj(map["enum" := JArr(items)]), v) <==> v in items
  {
    PlainMeans(h, root, map["const" := x], v);
    PlainMeans(h, root, map["enum" := JArr(items)], v);
    hide Admits;
    assert forall key :: key !in map["const" := x] || key == "const";
  }

  lemma TypeAlone(h: Host, root: Json, name: string, v: Json)
    ensures Admits(h, root, JObj(map["type" := JStr(name)]), v) <==> HasType(v, name)
  {
    PlainMeans(h, root, map["type" := JStr(name)], v);
    hide Admits, HasType;
  }
}
