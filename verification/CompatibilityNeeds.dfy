/** The conditions of `Compatibility.CompatibleMeansSound`, node by node: given sound parts, a node
    keeps every value exactly when they hold for it. And a document is always accepted unchanged. */
module CompatibilityNeeds {
  import opened Texts
  import opened Json
  import opened Schema
  import opened Compatibility

  // ---------------------------------------------------------------- unchanged documents

  lemma {:induction false} CarefulSelf(n: Json)
    ensures Careful(n, n)
    decreases n
  {
    if n.JObj? && "properties" in n.fields && n.fields["properties"].JObj? {
      forall k | k in n.fields["properties"].fields
        ensures Careful(n.fields["properties"].fields[k], n.fields["properties"].fields[k])
      {
        CarefulSelf(n.fields["properties"].fields[k]);
      }
    }
    if n.JObj? && "items" in n.fields { CarefulSelf(n.fields["items"]); }
    hide Required;
  }

  /** A document the diff can read is accepted against itself. */
  lemma UnchangedIsAccepted(h: Host, root: Json)
    ensures Accepted(h, root, root) <==> DiffCompatible(root, root)
  {
    hide CompareOk, Careful, Within, Admits, Refuses;
    forall name | name in Defs(root)
      ensures Careful(Defs(root)[name], Defs(root)[name])
    {
      CarefulSelf(Defs(root)[name]);
    }
    assert Exclusive(h, root, root);
  }

  // ---------------------------------------------------------------- oneOf

  lemma ChoiceAdmits(h: Host, root: Json, n: Json, branches: seq<Json>, v: Json)
    requires n.JObj? && FormOf(n) == Choice(branches)
    ensures Admits(h, root, n, v) <==> exists i: nat :: i < |branches| && OnlyBranch(h, root, branches, v, i)
  {
    hide OnlyBranch, OneOf, FormOf;
    if Admits(h, root, n, v) {
      var fuel: nat :| Validate(h, root, n, v, fuel) == Accepts;
      assert OneOf(h, root, branches, v, fuel - 1) == Accepts;
      var i := ChoiceMatch(h, root, branches, v, fuel - 1);
    }
    if i: nat :| i < |branches| && OnlyBranch(h, root, branches, v, i) {
      BranchFacts(h, root, branches, v, i);
      var g := BranchFuel(h, root, branches, v, i);
      assert Validate(h, root, n, v, g + 1) == Accepts;
    }
  }

  lemma BranchFacts(h: Host, root: Json, branches: seq<Json>, v: Json, i: nat)
    requires i < |branches| && OnlyBranch(h, root, branches, v, i)
    ensures Admits(h, root, branches[i], v) && forall j :: 0 <= j < |branches| && j != i ==> Refuses(h, root, branches[j], v)
  {
    hide Admits, Refuses;
  }

  lemma ChoiceMatch(h: Host, root: Json, branches: seq<Json>, v: Json, fuel: nat) returns (i: nat)
    requires OneOf(h, root, branches, v, fuel) == Accepts
    ensures i < |branches| && OnlyBranch(h, root, branches, v, i)
  {
    hide Validate;
    i :| i < |branches| && OnlyMatch(h, root, branches, v, fuel, i);
    MatchIsBranch(h, root, branches, v, fuel, i);
  }

  ghost predicate KeepsAll(h: Host, rb: Json, rc: Json, b: Json, c: Json)
  {
    forall v :: Admits(h, rb, b, v) ==> Admits(h, rc, c, v)
  }

  /** Two branches are not the only one both. */
  lemma OneOnly(h: Host, root: Json, branches: seq<Json>, v: Json, i: nat, k: nat)
    requires i < |branches| && k < |branches| && OnlyBranch(h, root, branches, v, i) && Admits(h, root, branches[k], v)
    ensures i == k
  {
    hide Validate;
    NeverBoth(h, root, branches[k], v);
  }

  /** With sound branches, a `oneOf` keeps every value exactly when its branches keep apart what they
      told apart in the baseline. */
  lemma ChoiceExact(h: Host, rb: Json, rc: Json, n: Json, branches: seq<Json>)
    requires n.JObj? && FormOf(n) == Choice(branches)
    requires forall i :: 0 <= i < |branches| ==> KeepsAll(h, rb, rc, branches[i], branches[i])
    ensures KeepsAll(h, rb, rc, n, n) <==> BranchesExclude(h, rb, rc, branches)
  {
    hide Admits, Refuses, FormOf;
    if KeepsAll(h, rb, rc, n, n) {
      forall v, i: nat, j: nat | i < |branches| && j < |branches| && i != j && OnlyBranch(h, rb, branches, v, i) && Admits(h, rc, branches[i], v)
        ensures Refuses(h, rc, branches[j], v)
      {
        ChoiceAdmits(h, rb, n, branches, v);
        ChoiceAdmits(h, rc, n, branches, v);
        var k: nat :| k < |branches| && OnlyBranch(h, rc, branches, v, k);
        OneOnly(h, rc, branches, v, k, i);
      }
    }
    if BranchesExclude(h, rb, rc, branches) {
      forall v | Admits(h, rb, n, v)
        ensures Admits(h, rc, n, v)
      {
        ChoiceAdmits(h, rb, n, branches, v);
        ChoiceAdmits(h, rc, n, branches, v);
        var i: nat :| i < |branches| && OnlyBranch(h, rb, branches, v, i);
        assert KeepsAll(h, rb, rc, branches[i], branches[i]);
        assert OnlyBranch(h, rc, branches, v, i);
      }
    }
  }

  // ---------------------------------------------------------------- objects

  /** A field that `n` allows to hold `x`. */
  ghost predicate FieldAdmits(h: Host, root: Json, n: Json, k: string, x: Json)
  {
    !Forbidden(n, k) && (SchemaFor(n, k).Some? ==> Admits(h, root, SchemaFor(n, k).value, x))
  }

  ghost predicate PlainAt(h: Host, root: Json, n: Json, v: Json, fuel: nat)
  {
    PlainVerdict(h, root, n, v, fuel) == Accepts
  }

  ghost predicate ObjectAt(h: Host, root: Json, n: Json, fields: map<string, Json>, fuel: nat)
  {
    ObjectVerdict(h, root, n, fields, fuel) == Accepts
  }

  lemma PlainAdmits(h: Host, root: Json, n: Json, v: Json)
    requires n.JObj? && FormOf(n) == Plain
    ensures Admits(h, root, n, v) <==> exists fuel: nat :: PlainAt(h, root, n, v, fuel)
  {
    hide PlainVerdict, FormOf;
    if Admits(h, root, n, v) {
      var fuel: nat :| Validate(h, root, n, v, fuel) == Accepts;
      assert PlainAt(h, root, n, v, fuel - 1);
    }
    if exists fuel: nat :: PlainAt(h, root, n, v, fuel) {
      var fuel: nat :| PlainAt(h, root, n, v, fuel);
      assert Validate(h, root, n, v, fuel + 1) == Accepts;
    }
  }

  lemma AcceptedField(h: Host, root: Json, n: Json, k: string, x: Json, fuel: nat)
    requires FieldVerdict(h, root, n, k, x, fuel) == Accepts
    ensures FieldAdmits(h, root, n, k, x)
  {
    hide Validate, FieldVerdict, SchemaFor, Forbidden;
    FieldVerdictIs(h, root, n, k, x, fuel);
  }

  lemma ObjectVerdictAdmits(h: Host, root: Json, n: Json, fields: map<string, Json>)
    ensures (exists fuel: nat :: ObjectAt(h, root, n, fields, fuel)) <==>
      (PropertiesReadable(n) && Required(n) <= fields.Keys && forall k :: k in fields ==> FieldAdmits(h, root, n, k, fields[k]))
  {
    hide ObjectVerdict, FieldVerdict, PropertiesReadable, Required, FieldAdmits;
    if exists fuel: nat :: ObjectAt(h, root, n, fields, fuel) {
      var fuel: nat :| ObjectAt(h, root, n, fields, fuel);
      ObjectAccepts(h, root, n, fields, fuel);
      forall k | k in fields
        ensures FieldAdmits(h, root, n, k, fields[k])
      {
        AcceptedField(h, root, n, k, fields[k], fuel);
      }
    }
    if PropertiesReadable(n) && Required(n) <= fields.Keys && forall k :: k in fields ==> FieldAdmits(h, root, n, k, fields[k]) {
      var fuel := FieldsFuel(h, root, n, fields);
      ObjectAccepts(h, root, n, fields, fuel);
      assert ObjectAt(h, root, n, fields, fuel);
    }
  }

  lemma FieldsFuel(h: Host, root: Json, n: Json, fields: map<string, Json>) returns (fuel: nat)
    requires forall k :: k in fields ==> FieldAdmits(h, root, n, k, fields[k])
    ensures forall k :: k in fields ==> FieldVerdict(h, root, n, k, fields[k], fuel) == Accepts
  {
    hide Admits, FieldVerdict, SchemaFor, Forbidden;
    forall k | k in fields
      ensures !Forbidden(n, k) && (SchemaFor(n, k).Some? ==> Admits(h, root, SchemaFor(n, k).value, fields[k]))
    {
      assert FieldAdmits(h, root, n, k, fields[k]);
    }
    fuel := FieldFuel(h, root, n, fields);
  }

  /** What a plain node admits among objects. */
  lemma ObjectAdmits(h: Host, root: Json, n: Json, fields: map<string, Json>)
    requires n.JObj? && FormOf(n) == Plain
    ensures Admits(h, root, n, JObj(fields)) <==>
      (Guard(n, JObj(fields)) == Accepts && PropertiesReadable(n) && Required(n) <= fields.Keys &&
       forall k :: k in fields ==> FieldAdmits(h, root, n, k, fields[k]))
  {
    hide PropertiesReadable, Required, FieldAdmits, ObjectAt, PlainAt, Guard, Admits, FormOf;
    PlainAdmits(h, root, n, JObj(fields));
    ObjectVerdictAdmits(h, root, n, fields);
    forall fuel: nat
      ensures PlainAt(h, root, n, JObj(fields), fuel) <==> Guard(n, JObj(fields)) == Accepts && ObjectAt(h, root, n, fields, fuel)
    {
      PlainObject(h, root, n, fields, fuel);
    }
  }

  lemma PlainObject(h: Host, root: Json, n: Json, fields: map<string, Json>, fuel: nat)
    ensures PlainAt(h, root, n, JObj(fields), fuel) <==> Guard(n, JObj(fields)) == Accepts && ObjectAt(h, root, n, fields, fuel)
  {
    hide Guard, ObjectVerdict;
  }

  /** The node judges objects by type only: no constant, no enumeration. */
  predicate Untied(n: Json)
  {
    Field(n, "const").None? && Field(n, "enum").None?
  }

  lemma {:induction false} AnyTypeOfObjects(f: map<string, Json>, g: map<string, Json>, types: seq<Json>, i: nat)
    requires i <= |types|
    ensures AnyType(JObj(f), types, i) == AnyType(JObj(g), types, i)
    decreases |types| - i
  {
    if i < |types| { AnyTypeOfObjects(f, g, types, i + 1); }
  }

  lemma SameGuardOfObjects(n: Json, f: map<string, Json>, g: map<string, Json>)
    requires Untied(n)
    ensures Guard(n, JObj(f)) == Guard(n, JObj(g))
  {
    hide AnyType, Field;
    match Field(n, "type")
    case Some(JArr(types)) => AnyTypeOfObjects(f, g, types, 0);
    case _ =>
  }

  /** The parts that both nodes share are sound. */
  ghost predicate PartsKept(h: Host, rb: Json, rc: Json, b: Json, c: Json)
  {
    forall k, x :: SharedField(b, c, k) && FieldAdmits(h, rb, b, k, x) ==> FieldAdmits(h, rc, c, k, x)
  }

  /** `k` is a property of both nodes, or of neither. */
  predicate SharedField(b: Json, c: Json, k: string)
  {
    k in Properties(b) || k !in Properties(c)
  }

  /** What unknown fields may hold in `b`, the new properties of `c` admit. */
  ghost predicate NewPropertiesTolerate(h: Host, rb: Json, rc: Json, b: Json, c: Json)
  {
    forall k, x :: !SharedField(b, c, k) && FieldAdmits(h, rb, b, k, x) ==> FieldAdmits(h, rc, c, k, x)
  }

  ghost predicate KeepsObjects(h: Host, rb: Json, rc: Json, b: Json, c: Json)
  {
    forall fields :: Admits(h, rb, b, JObj(fields)) ==> Admits(h, rc, c, JObj(fields))
  }

  lemma SameGuardAcross(b: Json, c: Json, v: Json)
    requires CompareOk(b, c)
    ensures Guard(b, v) == Guard(c, v)
  {
    GuardAcross(b, c);
    hide CompareOk, Field, TypeVerdict;
    SameTypes(b, c, v);
  }

  lemma GuardAcross(b: Json, c: Json)
    requires CompareOk(b, c)
    ensures Field(b, "const") == Field(c, "const") && Field(b, "enum") == Field(c, "enum") && Field(b, "type") == Field(c, "type")
    ensures FormOf(b) == FormOf(c) && b.JObj? && c.JObj? && PropertiesReadable(b) && PropertiesReadable(c)
  {
    hide Constraints;
  }

  /** A required name that is new and no property of the baseline: leaving it out of an admitted
      object gives one that the candidate does not admit. */
  lemma RequiredNeeded(h: Host, rb: Json, rc: Json, b: Json, c: Json, k: string, fields: map<string, Json>)
    requires b.JObj? && c.JObj? && FormOf(b) == FormOf(c) == Plain && Untied(b)
    requires k in Required(c) && k !in Required(b) && Admits(h, rb, b, JObj(fields))
    ensures Admits(h, rb, b, JObj(fields - {k})) && !Admits(h, rc, c, JObj(fields - {k}))
  {
    hide Admits, FieldAdmits, Guard, FormOf, Required, PropertiesReadable, Untied;
    ObjectAdmits(h, rb, b, fields);
    ObjectAdmits(h, rb, b, fields - {k});
    ObjectAdmits(h, rc, c, fields - {k});
    SameGuardOfObjects(b, fields, fields - {k});
  }

  /** A new property that refuses what the baseline allowed an unknown field to hold. */
  lemma ToleranceNeeded(h: Host, rb: Json, rc: Json, b: Json, c: Json, k: string, x: Json, fields: map<string, Json>)
    requires b.JObj? && c.JObj? && FormOf(b) == FormOf(c) == Plain && Untied(b) && Admits(h, rb, b, JObj(fields))
    requires FieldAdmits(h, rb, b, k, x) && !FieldAdmits(h, rc, c, k, x)
    ensures Admits(h, rb, b, JObj(fields[k := x])) && !Admits(h, rc, c, JObj(fields[k := x]))
  {
    hide Admits, FieldAdmits, Guard, FormOf, Required, PropertiesReadable, Untied;
    ObjectAdmits(h, rb, b, fields);
    ObjectAdmits(h, rb, b, fields[k := x]);
    ObjectAdmits(h, rc, c, fields[k := x]);
    SameGuardOfObjects(b, fields, fields[k := x]);
    assert fields[k := x][k] == x;
  }

  /** With sound parts, a changed object node keeps every object exactly when the baseline admits none
      at all, or no name is newly required and the new properties tolerate what unknown fields held. */
  lemma ObjectExact(h: Host, rb: Json, rc: Json, b: Json, c: Json)
    requires CompareOk(b, c) && FormOf(b) == Plain && Untied(b) && PartsKept(h, rb, rc, b, c)
    ensures KeepsObjects(h, rb, rc, b, c) <==>
      ((forall fields :: !Admits(h, rb, b, JObj(fields))) ||
       (Required(c) <= Required(b) && NewPropertiesTolerate(h, rb, rc, b, c)))
  {
    hide CompareOk, Admits, FieldAdmits, Guard, FormOf, Required, PropertiesReadable, Untied, SharedField;
    GuardAcross(b, c);
    if KeepsObjects(h, rb, rc, b, c) {
      forall fields | Admits(h, rb, b, JObj(fields))
        ensures Required(c) <= Required(b) && NewPropertiesTolerate(h, rb, rc, b, c)
      {
        NothingNew(h, rb, rc, b, c, fields);
      }
    }
    if Required(c) <= Required(b) && NewPropertiesTolerate(h, rb, rc, b, c) {
      forall fields | Admits(h, rb, b, JObj(fields))
        ensures Admits(h, rc, c, JObj(fields))
      {
        ObjectAdmits(h, rb, b, fields);
        ObjectAdmits(h, rc, c, fields);
        SameGuardAcross(b, c, JObj(fields));
        forall k | k in fields
          ensures FieldAdmits(h, rc, c, k, fields[k])
        {
          assert FieldAdmits(h, rb, b, k, fields[k]);
        }
      }
    }
  }

  lemma NothingNew(h: Host, rb: Json, rc: Json, b: Json, c: Json, fields: map<string, Json>)
    requires b.JObj? && c.JObj? && FormOf(b) == FormOf(c) == Plain && Untied(b)
    requires KeepsObjects(h, rb, rc, b, c) && Admits(h, rb, b, JObj(fields))
    ensures Required(c) <= Required(b) && NewPropertiesTolerate(h, rb, rc, b, c)
  {
    hide Admits, FieldAdmits, FormOf, Required, Untied, SharedField;
    forall k | k in Required(c)
      ensures k in Required(b)
    {
      if k !in Required(b) { RequiredNeeded(h, rb, rc, b, c, k, fields); }
    }
    forall k, x | !SharedField(b, c, k) && FieldAdmits(h, rb, b, k, x)
      ensures FieldAdmits(h, rc, c, k, x)
    {
      if !FieldAdmits(h, rc, c, k, x) { ToleranceNeeded(h, rb, rc, b, c, k, x, fields); }
    }
  }

  /** The conditions of the soundness theorem are these, read off the documents: with the diff's own
      checks, "declared or required before" is "nothing newly required", and a closed object has no
      unknown field to tolerate. */
  lemma CarefulIsEnough(h: Host, rb: Json, rc: Json, b: Json, c: Json)
    requires CompareOk(b, c) && Careful(b, c)
    ensures Required(c) <= Required(b) && NewPropertiesTolerate(h, rb, rc, b, c)
  {
    hide Admits, Constraints, KeywordsOk;
    forall k | k in Required(c)
      ensures k in Required(b)
    {
    }
    forall k, x | !SharedField(b, c, k)
      ensures !FieldAdmits(h, rb, b, k, x)
    {
      assert Forbidden(b, k);
    }
  }
}
