/** The contract diff, and its verdict proved against the validator: what the diff calls
    compatible accepts every value the baseline accepts, once three kinds of change are excluded. Two of
    the conditions are read off the documents; the one on `oneOf` is about values, and CompatibilityChecks
    gives conditions on the documents that imply it. */
module Compatibility {
  import opened Texts
  import opened Json
  import opened Schema

  // ---------------------------------------------------------------- the diff's verdict

  /** `numericConstraint` does not throw. */
  predicate Constraint(x: Option<Json>)
  {
    x.None? || (x.value.JNum? && IsSafeInteger(x.value.n) && 0.0 <= x.value.n)
  }

  predicate Constraints(schema: Json)
  {
    Constraint(Field(schema, "minLength")) && Constraint(Field(schema, "minItems")) && Constraint(Field(schema, "minimum")) &&
    Constraint(Field(schema, "maxLength")) && Constraint(Field(schema, "maxItems")) && Constraint(Field(schema, "maximum"))
  }

  /** `compareMinimum` finds nothing. */
  predicate MinimumOk(before: Option<Json>, after: Option<Json>)
  {
    Number(after).None? || (Number(before).Some? && Number(after).value <= Number(before).value)
  }

  predicate MaximumOk(before: Option<Json>, after: Option<Json>)
  {
    Number(after).None? || (Number(before).Some? && Number(after).value >= Number(before).value)
  }

  predicate Same(b: Json, c: Json, key: string)
  {
    Field(b, key) == Field(c, key)
  }

  /** The keywords of one node that are compared without descending. */
  predicate KeywordsOk(b: Json, c: Json)
  {
    Same(b, c, "type") && Same(b, c, "$ref") && Same(b, c, "const") && Same(b, c, "pattern") && Same(b, c, "format") &&
    Same(b, c, "default") && Same(b, c, "oneOf") && Same(b, c, "enum") && Same(b, c, "additionalProperties") &&
    MinimumOk(Field(b, "minLength"), Field(c, "minLength")) && MinimumOk(Field(b, "minItems"), Field(c, "minItems")) &&
    MinimumOk(Field(b, "minimum"), Field(c, "minimum")) && MaximumOk(Field(b, "maxLength"), Field(c, "maxLength")) &&
    MaximumOk(Field(b, "maxItems"), Field(c, "maxItems")) && MaximumOk(Field(b, "maximum"), Field(c, "maximum")) &&
    (Field(b, "uniqueItems") == Some(JBool(true)) || Field(c, "uniqueItems") != Some(JBool(true)))
  }

  /** `stringSet(required)` does not throw. */
  predicate RequiredReadable(schema: Json)
  {
    match Field(schema, "required")
    case Some(JArr(names)) => forall i :: 0 <= i < |names| ==> names[i].JStr?
    case _ => true
  }

  /** The names a comparison of properties looks at. */
  predicate NamesOk(b: Json, c: Json)
  {
    PropertiesReadable(b) && PropertiesReadable(c) &&
    (Field(b, "properties").Some? || Field(c, "properties").Some? ==> RequiredReadable(b) && RequiredReadable(c)) &&
    (forall k :: k in Properties(b) ==> k in Properties(c)) &&
    (forall k :: k in Properties(c) && k !in Properties(b) ==> k !in Required(c)) &&
    (forall k :: k in Required(c) && k in Properties(b) ==> k in Required(b))
  }

  /** `compareSchema(b, c)` returns and adds no breaking finding. */
  ghost predicate CompareOk(b: Json, c: Json)
    decreases b
  {
    b.JObj? && c.JObj? && Constraints(b) && Constraints(c) && KeywordsOk(b, c) && NamesOk(b, c) &&
    (forall k :: k in Properties(b) ==>
       b.fields["properties"].fields[k] == Properties(b)[k] && CompareOk(b.fields["properties"].fields[k], Properties(c)[k])) &&
    (Field(b, "items").Some? <==> Field(c, "items").Some?) &&
    (Field(b, "items").Some? ==> CompareOk(b.fields["items"], c.fields["items"]))
  }

  function Defs(root: Json): map<string, Json>
  {
    match Field(root, "$defs") case Some(JObj(d)) => d case _ => map[]
  }

  predicate HasDefs(root: Json)
  {
    match Field(root, "$defs") case Some(d) => d.JObj? case None => false
  }

  /** `diffContractSchemas(rb, rc).compatible` */
  ghost predicate DiffCompatible(rb: Json, rc: Json)
  {
    HasDefs(rb) && HasDefs(rc) && Same(rb, rc, "$id") &&
    forall name :: name in Defs(rb) ==> name in Defs(rc) && CompareOk(Defs(rb)[name], Defs(rc)[name])
  }

  // ---------------------------------------------------------------- conditions

  /** A new property is only added where unknown fields were forbidden, and every required name is
      a declared property or was required before. */
  ghost predicate Careful(b: Json, c: Json)
    decreases b
  {
    ((exists k :: k in Properties(c) && k !in Properties(b)) ==> Field(b, "additionalProperties") == Some(JBool(false))) &&
    Required(c) <= Properties(c).Keys + Required(b) &&
    (b.JObj? && "properties" in b.fields && b.fields["properties"].JObj? ==>
       forall k :: k in b.fields["properties"].fields && k in Properties(c) ==> Careful(b.fields["properties"].fields[k], Properties(c)[k])) &&
    (b.JObj? && "items" in b.fields && Field(c, "items").Some? ==> Careful(b.fields["items"], c.fields["items"]))
  }

  /** The validator can come to node `x` from node `y` without following a reference. */
  ghost predicate Part(x: Json, y: Json)
    decreases y
  {
    x == y ||
    (y.JObj? &&
     match FormOf(y)
     case Reference(_) => false
     case Choice(_) =>
       "oneOf" in y.fields && y.fields["oneOf"].JArr? &&
       exists i :: 0 <= i < |y.fields["oneOf"].items| && Part(x, y.fields["oneOf"].items[i])
     case Plain =>
       ("properties" in y.fields && y.fields["properties"].JObj? &&
        exists k :: k in y.fields["properties"].fields && Part(x, y.fields["properties"].fields[k])) ||
       ("items" in y.fields && Part(x, y.fields["items"])) ||
       ("additionalProperties" in y.fields && (y.fields["additionalProperties"].JObj? || y.fields["additionalProperties"].JArr?) &&
        Part(x, y.fields["additionalProperties"])))
  }

  /** `n` is a schema node of the document, not data that only looks like one. */
  ghost predicate Within(n: Json, root: Json)
  {
    exists name :: name in Defs(root) && Part(n, Defs(root)[name])
  }

  /** `branches[i]` is the one branch that admits `v`. */
  ghost predicate OnlyBranch(h: Host, root: Json, branches: seq<Json>, v: Json, i: nat)
    requires i < |branches|
  {
    Admits(h, root, branches[i], v) && forall j :: 0 <= j < |branches| && j != i ==> Refuses(h, root, branches[j], v)
  }

  /** A value that one branch matched in the baseline, and still matches, matches no other branch in
      the candidate. */
  ghost predicate BranchesExclude(h: Host, rb: Json, rc: Json, branches: seq<Json>)
  {
    forall v, i: nat, j: nat :: i < |branches| && j < |branches| && i != j && OnlyBranch(h, rb, branches, v, i) && Admits(h, rc, branches[i], v) ==>
      Refuses(h, rc, branches[j], v)
  }

  ghost predicate Exclusive(h: Host, rb: Json, rc: Json)
  {
    forall n :: Within(n, rc) && FormOf(n).Choice? ==> BranchesExclude(h, rb, rc, FormOf(n).branches)
  }

  ghost predicate Accepted(h: Host, rb: Json, rc: Json)
  {
    DiffCompatible(rb, rc) && Exclusive(h, rb, rc) &&
    forall name :: name in Defs(rb) && name in Defs(rc) ==> Careful(Defs(rb)[name], Defs(rc)[name])
  }

  /** The candidate node that stands for a baseline node. */
  ghost predicate Related(b: Json, c: Json)
  {
    b == c || (CompareOk(b, c) && Careful(b, c))
  }

  // ---------------------------------------------------------------- parts of a document

  lemma {:induction false} PartTransitive(x: Json, y: Json, z: Json)
    requires Part(x, y) && Part(y, z)
    ensures Part(x, z)
    decreases z
  {
    hide FormOf;
    if y != z {
      match FormOf(z)
      case Choice(_) =>
        var list := z.fields["oneOf"].items;
        var i :| 0 <= i < |list| && Part(y, list[i]);
        PartTransitive(x, y, list[i]);
      case Plain =>
        if "items" in z.fields && Part(y, z.fields["items"]) {
          PartTransitive(x, y, z.fields["items"]);
        } else if "additionalProperties" in z.fields && (z.fields["additionalProperties"].JObj? || z.fields["additionalProperties"].JArr?) &&
                  Part(y, z.fields["additionalProperties"]) {
          PartTransitive(x, y, z.fields["additionalProperties"]);
        } else {
          var k :| k in z.fields["properties"].fields && Part(y, z.fields["properties"].fields[k]);
          PartTransitive(x, y, z.fields["properties"].fields[k]);
        }
    }
  }

  lemma PartWithin(x: Json, n: Json, root: Json)
    requires Part(x, n) && Within(n, root)
    ensures Within(x, root)
  {
    hide Part;
    var name :| name in Defs(root) && Part(n, Defs(root)[name]);
    PartTransitive(x, n, Defs(root)[name]);
  }

  lemma DefinitionWithin(name: string, root: Json)
    requires name in Defs(root)
    ensures Within(Defs(root)[name], root)
  {
    assert Part(Defs(root)[name], Defs(root)[name]);
  }

  lemma ItemsWithin(n: Json, root: Json)
    requires Within(n, root) && FormOf(n) == Plain && Field(n, "items").Some?
    ensures Within(Field(n, "items").value, root)
  {
    hide Within;
    assert Part(n.fields["items"], n.fields["items"]);
    assert Part(n.fields["items"], n);
    PartWithin(n.fields["items"], n, root);
  }

  lemma PropertyWithin(n: Json, key: string, root: Json)
    requires Within(n, root) && FormOf(n) == Plain && key in Properties(n)
    ensures Within(Properties(n)[key], root)
  {
    hide Within;
    var p := n.fields["properties"].fields[key];
    assert Part(p, p);
    assert Part(p, n);
    PartWithin(p, n, root);
  }

  lemma UnknownWithin(n: Json, root: Json)
    requires Within(n, root) && FormOf(n) == Plain && Field(n, "additionalProperties").Some?
    requires Field(n, "additionalProperties").value.JObj? || Field(n, "additionalProperties").value.JArr?
    ensures Within(Field(n, "additionalProperties").value, root)
  {
    hide Within;
    var p := n.fields["additionalProperties"];
    assert Part(p, p);
    assert Part(p, n);
    PartWithin(p, n, root);
  }

  lemma BranchWithin(n: Json, i: nat, root: Json)
    requires Within(n, root) && FormOf(n).Choice? && i < |FormOf(n).branches|
    ensures Within(FormOf(n).branches[i], root)
  {
    hide Within;
    var list := n.fields["oneOf"].items;
    assert Part(list[i], list[i]);
    assert Part(list[i], n);
    PartWithin(list[i], n, root);
  }

  // ---------------------------------------------------------------- one depth for many values

  ghost predicate Settles(h: Host, root: Json, pair: (Json, Json), fuel: nat)
  {
    Validate(h, root, pair.0, pair.1, fuel) != Broken
  }

  /** Finitely many validations that answer all answer within one depth. */
  lemma {:induction false} CommonFuel(h: Host, root: Json, pairs: set<(Json, Json)>) returns (fuel: nat)
    requires forall p :: p in pairs ==> exists f: nat :: Settles(h, root, p, f)
    ensures forall p :: p in pairs ==> Settles(h, root, p, fuel)
    decreases |pairs|
  {
    hide Validate;
    if pairs == {} {
      fuel := 0;
    } else {
      var p :| p in pairs;
      var g := CommonFuel(h, root, pairs - {p});
      var f: nat :| Settles(h, root, p, f);
      fuel := if f <= g then g else f;
      forall q | q in pairs
        ensures Settles(h, root, q, fuel)
      {
        if q == p {
          MoreFuel(h, root, p.0, p.1, f, fuel);
        } else {
          assert q in pairs - {p};
          assert Settles(h, root, q, g);
          MoreFuel(h, root, q.0, q.1, g, fuel);
        }
      }
    }
  }

  /** An admitted value is accepted at every depth that settles it, a refused one is rejected. */
  lemma SettledVerdict(h: Host, root: Json, schema: Json, value: Json, fuel: nat)
    requires Settles(h, root, (schema, value), fuel)
    ensures Admits(h, root, schema, value) ==> Validate(h, root, schema, value, fuel) == Accepts
    ensures Refuses(h, root, schema, value) ==> Validate(h, root, schema, value, fuel) == Rejects
  {
    hide Validate;
    NeverBoth(h, root, schema, value);
    if Admits(h, root, schema, value) { assert !Refuses(h, root, schema, value); }
    if Refuses(h, root, schema, value) { assert !Admits(h, root, schema, value); }
  }

  // ---------------------------------------------------------------- soundness

  lemma {:induction false} Sound(h: Host, rb: Json, rc: Json, b: Json, c: Json, v: Json, fuel: nat)
    requires Accepted(h, rb, rc) && Within(c, rc) && Related(b, c)
    requires Validate(h, rb, b, v, fuel) == Accepts
    ensures Admits(h, rc, c, v)
    decreases fuel, 0
  {
    hide OneOf, PlainVerdict, Accepted, Related, Within, FormOf, Resolve;
    SameForm(b, c);
    match FormOf(b)
    case Reference(name) =>
      Target(h, rb, rc, name);
      var t := Resolve(rc, name).value;
      Sound(h, rb, rc, Resolve(rb, name).value, t, v, fuel - 1);
      var g: nat :| Validate(h, rc, t, v, g) == Accepts;
      assert Validate(h, rc, c, v, g + 1) == Accepts;
    case Choice(branches) =>
      var g := SoundChoice(h, rb, rc, c, branches, v, fuel - 1);
      assert Validate(h, rc, c, v, g + 1) == Accepts;
    case Plain =>
      var g := SoundPlain(h, rb, rc, b, c, v, fuel - 1);
      assert Validate(h, rc, c, v, g + 1) == Accepts;
  }

  lemma SameForm(b: Json, c: Json)
    requires Related(b, c)
    ensures FormOf(b) == FormOf(c) && (b.JObj? ==> c.JObj?)
  {
  }

  lemma Target(h: Host, rb: Json, rc: Json, name: string)
    requires Accepted(h, rb, rc) && Resolve(rb, name).Some?
    ensures Resolve(rc, name).Some? && Within(Resolve(rc, name).value, rc)
    ensures Related(Resolve(rb, name).value, Resolve(rc, name).value)
  {
    hide CompareOk, Careful, Exclusive;
    var key := name[|"#/$defs/"|..];
    assert key in Defs(rb) && key in Defs(rc);
    DefinitionWithin(key, rc);
  }

  lemma SoundChoice(h: Host, rb: Json, rc: Json, c: Json, branches: seq<Json>, v: Json, fuel: nat) returns (g: nat)
    requires Accepted(h, rb, rc) && Within(c, rc) && FormOf(c) == Choice(branches)
    requires OneOf(h, rb, branches, v, fuel) == Accepts
    ensures OneOf(h, rc, branches, v, g) == Accepts
    decreases fuel, 3
  {
    hide Validate, DiffCompatible, Careful, CompareOk, OnlyBranch;
    var i: nat :| i < |branches| && OnlyMatch(h, rb, branches, v, fuel, i);
    BranchWithin(c, i, rc);
    Sound(h, rb, rc, branches[i], branches[i], v, fuel);
    MatchIsBranch(h, rb, branches, v, fuel, i);
    assert BranchesExclude(h, rb, rc, branches);
    forall j: nat | j < |branches| && j != i
      ensures Refuses(h, rc, branches[j], v)
    {
      assert Admits(h, rc, branches[i], v);
    }
    g := BranchFuel(h, rc, branches, v, i);
  }

  lemma MatchIsBranch(h: Host, root: Json, branches: seq<Json>, v: Json, fuel: nat, i: nat)
    requires i < |branches| && OnlyMatch(h, root, branches, v, fuel, i)
    ensures OnlyBranch(h, root, branches, v, i)
  {
    hide Validate;
  }

  lemma BranchFuel(h: Host, rc: Json, branches: seq<Json>, v: Json, i: nat) returns (g: nat)
    requires i < |branches| && Admits(h, rc, branches[i], v)
    requires forall j :: 0 <= j < |branches| && j != i ==> Refuses(h, rc, branches[j], v)
    ensures OneOf(h, rc, branches, v, g) == Accepts
  {
    hide Validate;
    var pairs := set j | 0 <= j < |branches| :: (branches[j], v);
    forall p | p in pairs
      ensures exists f: nat :: Settles(h, rc, p, f)
    {
      var j :| 0 <= j < |branches| && p == (branches[j], v);
      assert j == i ==> Admits(h, rc, branches[j], v);
      var f: nat :| Validate(h, rc, branches[j], v, f) != Broken;
      assert Settles(h, rc, p, f);
    }
    g := CommonFuel(h, rc, pairs);
    forall j | 0 <= j < |branches|
      ensures Validate(h, rc, branches[j], v, g) == if j == i then Accepts else Rejects
    {
      assert (branches[j], v) in pairs;
      SettledVerdict(h, rc, branches[j], v, g);
    }
    assert OnlyMatch(h, rc, branches, v, g, i);
  }

  /** What a plain node looks at once its guard accepts. */
  ghost function BodyVerdict(h: Host, root: Json, schema: Json, v: Json, fuel: nat): Verdict
  {
    match v
    case JStr(text) => StringVerdict(h, schema, text)
    case JNum(n) => Judge(false, Below(n, Field(schema, "minimum")) || Above(n, Field(schema, "maximum")))
    case JArr(items) => ArrayVerdict(h, root, schema, items, fuel)
    case JObj(fields) => ObjectVerdict(h, root, schema, fields, fuel)
    case _ => Accepts
  }

  lemma PlainAccepts(h: Host, root: Json, schema: Json, v: Json, fuel: nat)
    ensures PlainVerdict(h, root, schema, v, fuel) == Accepts <==> Guard(schema, v) == Accepts && BodyVerdict(h, root, schema, v, fuel) == Accepts
  {
    hide Guard, StringVerdict, ArrayVerdict, ObjectVerdict, Judge;
  }

  lemma SoundPlain(h: Host, rb: Json, rc: Json, b: Json, c: Json, v: Json, fuel: nat) returns (g: nat)
    requires Accepted(h, rb, rc) && Within(c, rc) && Related(b, c) && FormOf(c) == Plain
    requires PlainVerdict(h, rb, b, v, fuel) == Accepts
    ensures PlainVerdict(h, rc, c, v, g) == Accepts
    decreases fuel, 5
  {
    hide Accepted, PlainVerdict, Related, Within, BodyVerdict, Guard;
    SameGuard(b, c, v);
    PlainAccepts(h, rb, b, v, fuel);
    g := SoundBody(h, rb, rc, b, c, v, fuel);
    PlainAccepts(h, rc, c, v, g);
  }

  lemma SoundBody(h: Host, rb: Json, rc: Json, b: Json, c: Json, v: Json, fuel: nat) returns (g: nat)
    requires Accepted(h, rb, rc) && Within(c, rc) && Related(b, c) && FormOf(c) == Plain
    requires BodyVerdict(h, rb, b, v, fuel) == Accepts
    ensures BodyVerdict(h, rc, c, v, g) == Accepts
    decreases fuel, 4
  {
    hide Accepted, BodyVerdict, Related, Within;
    if v.JArr? {
      g := SoundList(h, rb, rc, b, c, v, fuel);
    } else if v.JObj? {
      g := SoundRecord(h, rb, rc, b, c, v, fuel);
    } else {
      g := SoundScalar(h, rb, rc, b, c, v, fuel);
    }
  }

  lemma SoundList(h: Host, rb: Json, rc: Json, b: Json, c: Json, v: Json, fuel: nat) returns (g: nat)
    requires Accepted(h, rb, rc) && Within(c, rc) && Related(b, c) && FormOf(c) == Plain && v.JArr?
    requires BodyVerdict(h, rb, b, v, fuel) == Accepts
    ensures BodyVerdict(h, rc, c, v, g) == Accepts
    decreases fuel, 3
  {
    hide Accepted, ArrayVerdict, ObjectVerdict, Related, Within, StringVerdict, Below, Above, Field;
    g := SoundArray(h, rb, rc, b, c, v.items, fuel);
  }

  lemma SoundRecord(h: Host, rb: Json, rc: Json, b: Json, c: Json, v: Json, fuel: nat) returns (g: nat)
    requires Accepted(h, rb, rc) && Within(c, rc) && Related(b, c) && FormOf(c) == Plain && v.JObj?
    requires BodyVerdict(h, rb, b, v, fuel) == Accepts
    ensures BodyVerdict(h, rc, c, v, g) == Accepts
    decreases fuel, 3
  {
    hide Accepted, ArrayVerdict, ObjectVerdict, Related, Within, StringVerdict, Below, Above, Field;
    g := SoundObject(h, rb, rc, b, c, v.fields, fuel);
  }

  lemma SoundScalar(h: Host, rb: Json, rc: Json, b: Json, c: Json, v: Json, fuel: nat) returns (g: nat)
    requires Accepted(h, rb, rc) && Within(c, rc) && Related(b, c) && FormOf(c) == Plain && !v.JArr? && !v.JObj?
    requires BodyVerdict(h, rb, b, v, fuel) == Accepts
    ensures BodyVerdict(h, rc, c, v, g) == Accepts
    decreases fuel, 3
  {
    hide Accepted, ArrayVerdict, ObjectVerdict, Related, Within, StringVerdict, Below, Above, Field;
    if v.JStr? { SameStrings(h, b, c, v.t); }
    if v.JNum? { SameNumbers(b, c, v.n); }
    g := 0;
  }

  lemma SameGuard(b: Json, c: Json, v: Json)
    requires Related(b, c)
    ensures Guard(b, v) == Guard(c, v)
  {
    hide Related, Field, TypeVerdict;
    GuardKeywords(b, c);
    SameTypes(b, c, v);
  }

  lemma SameTypes(b: Json, c: Json, v: Json)
    requires Field(b, "type") == Field(c, "type")
    ensures TypeVerdict(b, v) == TypeVerdict(c, v)
  {
    hide Field, AnyType, MatchesType;
  }

  lemma GuardKeywords(b: Json, c: Json)
    requires Related(b, c)
    ensures Field(b, "const") == Field(c, "const") && Field(b, "enum") == Field(c, "enum") && Field(b, "type") == Field(c, "type")
  {
    hide Careful, Field, Constraints, NamesOk;
  }

  lemma SameStrings(h: Host, b: Json, c: Json, text: string)
    requires Related(b, c) && StringVerdict(h, b, text) == Accepts
    ensures StringVerdict(h, c, text) == Accepts
  {
    hide Careful;
  }

  lemma SameNumbers(b: Json, c: Json, n: real)
    requires Related(b, c) && !Below(n, Field(b, "minimum")) && !Above(n, Field(b, "maximum"))
    ensures !Below(n, Field(c, "minimum")) && !Above(n, Field(c, "maximum"))
  {
    hide Careful;
  }

  lemma SoundArray(h: Host, rb: Json, rc: Json, b: Json, c: Json, items: seq<Json>, fuel: nat) returns (g: nat)
    requires Accepted(h, rb, rc) && Within(c, rc) && Related(b, c) && FormOf(c) == Plain
    requires ArrayVerdict(h, rb, b, items, fuel) == Accepts
    ensures ArrayVerdict(h, rc, c, items, g) == Accepts
    decreases fuel, 2
  {
    hide Validate, Accepted, Related, Within, ArrayVerdict, SizeOk, Admits;
    SameItems(b, c, items);
    ArrayAccepts(h, rb, b, items, fuel);
    var each, each' := Field(b, "items"), Field(c, "items");
    if each'.None? {
      g := 0;
    } else {
      ItemsWithin(c, rc);
      forall i | 0 <= i < |items|
        ensures Admits(h, rc, each'.value, items[i])
      {
        Sound(h, rb, rc, each.value, each'.value, items[i], fuel);
      }
      g := ItemFuel(h, rc, each'.value, items);
    }
    ArrayAccepts(h, rc, c, items, g);
  }

  /** Number and distinctness of the items are as the node asks. */
  predicate SizeOk(schema: Json, items: seq<Json>)
  {
    !Below(|items| as real, Field(schema, "minItems")) && !Above(|items| as real, Field(schema, "maxItems")) &&
    (Field(schema, "uniqueItems") == Some(JBool(true)) ==> Distinct(items))
  }

  lemma ArrayAccepts(h: Host, root: Json, schema: Json, items: seq<Json>, fuel: nat)
    ensures ArrayVerdict(h, root, schema, items, fuel) == Accepts <==>
      SizeOk(schema, items) &&
      (Field(schema, "items").Some? ==> forall i :: 0 <= i < |items| ==> Validate(h, root, Field(schema, "items").value, items[i], fuel) == Accepts)
  {
    hide Validate, Below, Above, Distinct, Field;
  }

  lemma SameItems(b: Json, c: Json, items: seq<Json>)
    requires Related(b, c)
    ensures SizeOk(b, items) ==> SizeOk(c, items)
    ensures Field(b, "items").Some? <==> Field(c, "items").Some?
    ensures Field(b, "items").Some? ==> Related(Field(b, "items").value, Field(c, "items").value)
  {
    hide Distinct;
  }

  lemma ItemFuel(h: Host, rc: Json, schema: Json, items: seq<Json>) returns (g: nat)
    requires forall i :: 0 <= i < |items| ==> Admits(h, rc, schema, items[i])
    ensures forall i :: 0 <= i < |items| ==> Validate(h, rc, schema, items[i], g) == Accepts
  {
    hide Validate;
    var pairs := set i | 0 <= i < |items| :: (schema, items[i]);
    forall p | p in pairs
      ensures exists f: nat :: Settles(h, rc, p, f)
    {
      var i :| 0 <= i < |items| && p == (schema, items[i]);
      var f: nat :| Validate(h, rc, schema, items[i], f) == Accepts;
      assert Settles(h, rc, p, f);
    }
    g := CommonFuel(h, rc, pairs);
    forall i | 0 <= i < |items|
      ensures Validate(h, rc, schema, items[i], g) == Accepts
    {
      assert (schema, items[i]) in pairs;
      SettledVerdict(h, rc, schema, items[i], g);
    }
  }

  /** The schema that applies to field `key`, if any does. */
  function SchemaFor(schema: Json, key: string): Option<Json>
  {
    if key in Properties(schema) then Some(Properties(schema)[key])
    else
      match Field(schema, "additionalProperties")
      case Some(JObj(o)) => Some(JObj(o))
      case Some(JArr(a)) => Some(JArr(a))
      case _ => None
  }

  predicate Forbidden(schema: Json, key: string)
  {
    key !in Properties(schema) && Field(schema, "additionalProperties") == Some(JBool(false))
  }

  lemma FieldVerdictIs(h: Host, root: Json, schema: Json, key: string, item: Json, fuel: nat)
    ensures FieldVerdict(h, root, schema, key, item, fuel) ==
      if Forbidden(schema, key) then Rejects
      else if SchemaFor(schema, key).Some? then Validate(h, root, SchemaFor(schema, key).value, item, fuel)
      else Accepts
  {
    hide Validate;
  }

  /** The candidate looks at a field the baseline allowed with a related schema, or with none. */
  lemma SameFieldSchema(b: Json, c: Json, key: string)
    requires Related(b, c) && !Forbidden(b, key)
    ensures !Forbidden(c, key)
    ensures SchemaFor(c, key).Some? ==> SchemaFor(b, key).Some? && Related(SchemaFor(b, key).value, SchemaFor(c, key).value)
  {
    if b != c && key in Properties(b) {
      assert b.fields["properties"].fields[key] == Properties(b)[key];
      assert CompareOk(Properties(b)[key], Properties(c)[key]);
      assert Careful(b.fields["properties"].fields[key], Properties(c)[key]);
    }
  }

  lemma SchemaForWithin(n: Json, key: string, root: Json)
    requires Within(n, root) && FormOf(n) == Plain && SchemaFor(n, key).Some?
    ensures Within(SchemaFor(n, key).value, root)
  {
    hide Within;
    if key in Properties(n) { PropertyWithin(n, key, root); } else { UnknownWithin(n, root); }
  }

  lemma RequiredHeld(b: Json, c: Json, keys: set<string>)
    requires Related(b, c) && Required(b) <= keys
    ensures Required(c) <= keys
    ensures PropertiesReadable(b) ==> PropertiesReadable(c)
  {
  }

  lemma SoundObject(h: Host, rb: Json, rc: Json, b: Json, c: Json, fields: map<string, Json>, fuel: nat) returns (g: nat)
    requires Accepted(h, rb, rc) && Within(c, rc) && Related(b, c) && FormOf(c) == Plain
    requires ObjectVerdict(h, rb, b, fields, fuel) == Accepts
    ensures ObjectVerdict(h, rc, c, fields, g) == Accepts
    decreases fuel, 2
  {
    hide Validate, Accepted, Related, FieldVerdict, Required, Within, SchemaFor, Forbidden, Admits, ObjectVerdict, PropertiesReadable;
    ObjectAccepts(h, rb, b, fields, fuel);
    RequiredHeld(b, c, fields.Keys);
    forall k | k in fields
      ensures !Forbidden(c, k) && (SchemaFor(c, k).Some? ==> Admits(h, rc, SchemaFor(c, k).value, fields[k]))
    {
      SoundField(h, rb, rc, b, c, k, fields[k], fuel);
    }
    g := FieldFuel(h, rc, c, fields);
    ObjectAccepts(h, rc, c, fields, g);
  }

  lemma ObjectAccepts(h: Host, root: Json, schema: Json, fields: map<string, Json>, fuel: nat)
    ensures ObjectVerdict(h, root, schema, fields, fuel) == Accepts <==>
      PropertiesReadable(schema) && Required(schema) <= fields.Keys &&
      forall k :: k in fields ==> FieldVerdict(h, root, schema, k, fields[k], fuel) == Accepts
  {
    hide FieldVerdict, Required, PropertiesReadable;
  }

  lemma SoundField(h: Host, rb: Json, rc: Json, b: Json, c: Json, key: string, item: Json, fuel: nat)
    requires Accepted(h, rb, rc) && Within(c, rc) && Related(b, c) && FormOf(c) == Plain
    requires FieldVerdict(h, rb, b, key, item, fuel) == Accepts
    ensures !Forbidden(c, key) && (SchemaFor(c, key).Some? ==> Admits(h, rc, SchemaFor(c, key).value, item))
    decreases fuel, 1
  {
    hide Validate, Accepted, Related, FieldVerdict, Within, SchemaFor, Forbidden;
    FieldVerdictIs(h, rb, b, key, item, fuel);
    SameFieldSchema(b, c, key);
    if SchemaFor(c, key).Some? {
      SchemaForWithin(c, key, rc);
      Sound(h, rb, rc, SchemaFor(b, key).value, SchemaFor(c, key).value, item, fuel);
    }
  }

  lemma FieldFuel(h: Host, rc: Json, c: Json, fields: map<string, Json>) returns (g: nat)
    requires forall k :: k in fields ==> !Forbidden(c, k) && (SchemaFor(c, k).Some? ==> Admits(h, rc, SchemaFor(c, k).value, fields[k]))
    ensures forall k :: k in fields ==> FieldVerdict(h, rc, c, k, fields[k], g) == Accepts
  {
    hide Validate, FieldVerdict, SchemaFor, Forbidden;
    var pairs := set k | k in fields && SchemaFor(c, k).Some? :: (SchemaFor(c, k).value, fields[k]);
    forall p | p in pairs
      ensures exists f: nat :: Settles(h, rc, p, f)
    {
      var k :| k in fields && SchemaFor(c, k).Some? && p == (SchemaFor(c, k).value, fields[k]);
      var f: nat :| Validate(h, rc, SchemaFor(c, k).value, fields[k], f) == Accepts;
      assert Settles(h, rc, p, f);
    }
    g := CommonFuel(h, rc, pairs);
    forall k | k in fields
      ensures FieldVerdict(h, rc, c, k, fields[k], g) == Accepts
    {
      FieldVerdictIs(h, rc, c, k, fields[k], g);
      if SchemaFor(c, k).Some? {
        assert (SchemaFor(c, k).value, fields[k]) in pairs;
        SettledVerdict(h, rc, SchemaFor(c, k).value, fields[k], g);
      }
    }
  }

  /** If the diff reports nothing breaking, new properties were only added to closed objects,
      required names are declared or were required before, and `oneOf` branches keep apart what they
      told apart, then every value that the baseline's definition admits is admitted by the
      candidate's. */
  lemma CompatibleMeansSound(h: Host, rb: Json, rc: Json, name: string, v: Json)
    requires Accepted(h, rb, rc) && name in Defs(rb) && Admits(h, rb, Defs(rb)[name], v)
    ensures name in Defs(rc) && Admits(h, rc, Defs(rc)[name], v)
  {
    hide Validate, Exclusive, CompareOk, Careful;
    DefinitionWithin(name, rc);
    var fuel: nat :| Validate(h, rb, Defs(rb)[name], v, fuel) == Accepts;
    Sound(h, rb, rc, Defs(rb)[name], Defs(rc)[name], v, fuel);
  }
}
