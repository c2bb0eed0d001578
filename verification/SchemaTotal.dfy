/** A well-formed schema document judges every value: it is admitted or refused, and nothing throws. */
module SchemaTotal {
  import opened Texts
  import opened Json
  import opened Schema
  import opened Compatibility

  predicate KnownType(name: string)
  {
    name in ["object", "array", "integer", "number", "string", "boolean", "null"]
  }

  /** `matchesType` does not throw on the type names of `n`. */
  predicate TypesKnown(n: Json)
  {
    match Field(n, "type")
    case Some(JStr(name)) => KnownType(name)
    case Some(JArr(types)) => forall i :: 0 <= i < |types| && types[i].JStr? ==> KnownType(types[i].t)
    case _ => true
  }

  predicate PatternCompiles(h: Host, n: Json)
  {
    match Field(n, "pattern")
    case Some(JStr(p)) => h.compiles(p)
    case _ => true
  }

  /** From `n`, references resolve and references and choices end after at most `d` steps. */
  ghost predicate Descends(root: Json, n: Json, d: nat)
    decreases d
  {
    n.JObj? &&
    match FormOf(n)
    case Reference(name) => d > 0 && Resolve(root, name).Some? && Descends(root, Resolve(root, name).value, d - 1)
    case Choice(branches) => d > 0 && forall i :: 0 <= i < |branches| ==> Descends(root, branches[i], d - 1)
    case Plain => true
  }

  ghost predicate NodeOk(h: Host, root: Json, n: Json)
  {
    (exists d: nat :: Descends(root, n, d)) &&
    (FormOf(n) == Plain ==> TypesKnown(n) && PropertiesReadable(n) && PatternCompiles(h, n))
  }

  /** References resolve, type names are known, patterns compile, and every loop of references and
      choices passes through a property, an item or an unknown field. */
  ghost predicate WellFormed(h: Host, root: Json)
  {
    forall n :: Within(n, root) ==> NodeOk(h, root, n)
  }

  // ---------------------------------------------------------------- nothing throws

  lemma {:induction false} AnyTypeAnswers(v: Json, types: seq<Json>, i: nat)
    requires i <= |types| && forall j :: 0 <= j < |types| && types[j].JStr? ==> KnownType(types[j].t)
    ensures AnyType(v, types, i) != Broken
    decreases |types| - i
  {
    if i < |types| && types[i].JStr? {
      KnownAnswers(v, types[i].t);
      hide MatchesType, KnownType;
      AnyTypeAnswers(v, types, i + 1);
    }
  }

  lemma KnownAnswers(v: Json, name: string)
    requires KnownType(name)
    ensures MatchesType(v, name).Some?
  {
  }

  lemma GuardAnswers(n: Json, v: Json)
    requires TypesKnown(n)
    ensures Guard(n, v) != Broken
  {
    hide AnyType, MatchesType, KnownType, Field;
    match Field(n, "type")
    case Some(JStr(name)) => KnownAnswers(v, name);
    case Some(JArr(types)) => AnyTypeAnswers(v, types, 0);
    case _ =>
  }

  lemma StringAnswers(h: Host, n: Json, text: string)
    requires PatternCompiles(h, n)
    ensures StringVerdict(h, n, text) != Broken
  {
    hide Below, Above, Field;
  }

  // ---------------------------------------------------------------- every value is judged

  ghost predicate Judged(h: Host, root: Json, n: Json, v: Json)
  {
    exists fuel: nat :: Settles(h, root, (n, v), fuel)
  }

  lemma JudgedOnce(h: Host, root: Json, n: Json, v: Json, fuel: nat)
    requires Validate(h, root, n, v, fuel) != Broken
    ensures Judged(h, root, n, v)
  {
    hide Validate;
    assert Settles(h, root, (n, v), fuel);
  }

  /** One depth at which several nodes judge several values. */
  lemma CommonDepth(h: Host, root: Json, pairs: set<(Json, Json)>) returns (fuel: nat)
    requires forall p :: p in pairs ==> Judged(h, root, p.0, p.1)
    ensures forall p :: p in pairs ==> Validate(h, root, p.0, p.1, fuel) != Broken
  {
    hide Validate;
    forall p | p in pairs
      ensures exists f: nat :: Settles(h, root, p, f)
    {
      assert Judged(h, root, p.0, p.1);
      var f: nat :| Settles(h, root, (p.0, p.1), f);
      assert Settles(h, root, p, f);
    }
    fuel := CommonFuel(h, root, pairs);
    forall p | p in pairs
      ensures Validate(h, root, p.0, p.1, fuel) != Broken
    {
      assert Settles(h, root, p, fuel);
    }
  }

  lemma {:induction false} JudgesAll(h: Host, root: Json, n: Json, v: Json, d: nat)
    requires WellFormed(h, root) && Within(n, root) && Descends(root, n, d)
    ensures Judged(h, root, n, v)
    decreases v, d, 3
  {
    hide WellFormed, Within, Judged, OneOf, PlainVerdict;
    match FormOf(n)
    case Reference(name) =>
      var t := Resolve(root, name).value;
      TargetWithin(root, name);
      JudgesAll(h, root, t, v, d - 1);
      var f := DepthOf(h, root, t, v);
      assert Validate(h, root, n, v, f + 1) != Broken;
      JudgedOnce(h, root, n, v, f + 1);
    case Choice(branches) =>
      forall i | 0 <= i < |branches|
        ensures Judged(h, root, branches[i], v)
      {
        BranchWithin(n, i, root);
        JudgesAll(h, root, branches[i], v, d - 1);
      }
      var f := ChoiceDepth(h, root, branches, v);
      assert Validate(h, root, n, v, f + 1) != Broken;
      JudgedOnce(h, root, n, v, f + 1);
    case Plain =>
      var f := JudgesPlain(h, root, n, v, d);
      assert Validate(h, root, n, v, f + 1) != Broken;
      JudgedOnce(h, root, n, v, f + 1);
  }

  lemma TargetWithin(root: Json, name: string)
    requires Resolve(root, name).Some?
    ensures Within(Resolve(root, name).value, root)
  {
    DefinitionWithin(name[|"#/$defs/"|..], root);
    hide Within;
  }

  lemma DepthOf(h: Host, root: Json, n: Json, v: Json) returns (fuel: nat)
    requires Judged(h, root, n, v)
    ensures Validate(h, root, n, v, fuel) != Broken
  {
    hide Validate;
    fuel :| Settles(h, root, (n, v), fuel);
  }

  lemma ChoiceDepth(h: Host, root: Json, branches: seq<Json>, v: Json) returns (fuel: nat)
    requires forall i :: 0 <= i < |branches| ==> Judged(h, root, branches[i], v)
    ensures OneOf(h, root, branches, v, fuel) != Broken
  {
    hide Validate, Judged;
    var pairs := set i | 0 <= i < |branches| :: (branches[i], v);
    fuel := CommonDepth(h, root, pairs);
    forall i | 0 <= i < |branches|
      ensures Validate(h, root, branches[i], v, fuel) != Broken
    {
      assert (branches[i], v) in pairs;
    }
  }

  lemma PlainFacts(h: Host, root: Json, n: Json)
    requires WellFormed(h, root) && Within(n, root) && FormOf(n) == Plain
    ensures TypesKnown(n) && PropertiesReadable(n) && PatternCompiles(h, n)
  {
    hide Within, Descends, TypesKnown, PropertiesReadable, PatternCompiles, FormOf;
    assert NodeOk(h, root, n);
  }

  lemma SomeDescent(h: Host, root: Json, n: Json) returns (d: nat)
    requires WellFormed(h, root) && Within(n, root)
    ensures Descends(root, n, d)
  {
    hide Within, Descends;
    assert NodeOk(h, root, n);
    d :| Descends(root, n, d);
  }

  lemma JudgesPlain(h: Host, root: Json, n: Json, v: Json, d: nat) returns (fuel: nat)
    requires WellFormed(h, root) && Within(n, root) && FormOf(n) == Plain
    ensures PlainVerdict(h, root, n, v, fuel) != Broken
    decreases v, d, 2
  {
    hide WellFormed, Within, ArrayVerdict, ObjectVerdict, StringVerdict, FormOf, Field, Guard, TypesKnown, PropertiesReadable, PatternCompiles;
    PlainFacts(h, root, n);
    GuardAnswers(n, v);
    fuel := 0;
    if v.JStr? {
      StringAnswers(h, n, v.t);
    } else if v.JArr? {
      fuel := JudgesItems(h, root, n, v, d);
    } else if v.JObj? {
      fuel := JudgesFields(h, root, n, v, d);
    }
  }

  lemma JudgesItems(h: Host, root: Json, n: Json, v: Json, d: nat) returns (fuel: nat)
    requires WellFormed(h, root) && Within(n, root) && FormOf(n) == Plain && v.JArr?
    ensures ArrayVerdict(h, root, n, v.items, fuel) != Broken
    decreases v, d, 1
  {
    hide WellFormed, Within, Judged, FormOf, Below, Above, Distinct, Validate;
    var each := Field(n, "items");
    fuel := 0;
    if each.Some? {
      ItemsWithin(n, root);
      forall i | 0 <= i < |v.items|
        ensures Judged(h, root, each.value, v.items[i])
      {
        var e := SomeDescent(h, root, each.value);
        JudgesAll(h, root, each.value, v.items[i], e);
      }
      var pairs := set i | 0 <= i < |v.items| :: (each.value, v.items[i]);
      fuel := CommonDepth(h, root, pairs);
      forall i | 0 <= i < |v.items|
        ensures Validate(h, root, each.value, v.items[i], fuel) != Broken
      {
        assert (each.value, v.items[i]) in pairs;
      }
    }
  }

  lemma JudgesFields(h: Host, root: Json, n: Json, v: Json, d: nat) returns (fuel: nat)
    requires WellFormed(h, root) && Within(n, root) && FormOf(n) == Plain && v.JObj?
    ensures ObjectVerdict(h, root, n, v.fields, fuel) != Broken
    decreases v, d, 1
  {
    hide WellFormed, Within, Judged, FormOf, SchemaFor, Validate, ObjectVerdict;
    PlainFacts(h, root, n);
    forall k | k in v.fields && SchemaFor(n, k).Some?
      ensures Judged(h, root, SchemaFor(n, k).value, v.fields[k])
    {
      SchemaForWithin(n, k, root);
      var e := SomeDescent(h, root, SchemaFor(n, k).value);
      JudgesAll(h, root, SchemaFor(n, k).value, v.fields[k], e);
    }
    var pairs := set k | k in v.fields && SchemaFor(n, k).Some? :: (SchemaFor(n, k).value, v.fields[k]);
    fuel := CommonDepth(h, root, pairs);
    forall k | k in v.fields
      ensures FieldVerdict(h, root, n, k, v.fields[k], fuel) != Broken
    {
      FieldVerdictIs(h, root, n, k, v.fields[k], fuel);
      if SchemaFor(n, k).Some? { assert (SchemaFor(n, k).value, v.fields[k]) in pairs; }
    }
    FieldsAnswer(h, root, n, v.fields, fuel);
  }

  lemma FieldsAnswer(h: Host, root: Json, n: Json, fields: map<string, Json>, fuel: nat)
    requires PropertiesReadable(n) && forall k :: k in fields ==> FieldVerdict(h, root, n, k, fields[k], fuel) != Broken
    ensures ObjectVerdict(h, root, n, fields, fuel) != Broken
  {
    hide FieldVerdict, PropertiesReadable, Required;
  }

  /** Under a node of a well-formed document every value is admitted or refused, and not both. */
  lemma AdmitsXorRefuses(h: Host, root: Json, n: Json, v: Json)
    requires WellFormed(h, root) && Within(n, root)
    ensures Admits(h, root, n, v) <==> !Refuses(h, root, n, v)
  {
    hide WellFormed, Within, Validate, Judged;
    NeverBoth(h, root, n, v);
    var d := SomeDescent(h, root, n);
    JudgesAll(h, root, n, v, d);
    var fuel := DepthOf(h, root, n, v);
    assert Validate(h, root, n, v, fuel) == Accepts || Validate(h, root, n, v, fuel) == Rejects;
  }

  /** No deeper descent than `d` is needed: from there on the verdict is the value's own. */
  ghost predicate Settled(h: Host, root: Json, n: Json, v: Json, d: nat)
  {
    forall fuel: nat :: d <= fuel ==> Validate(h, root, n, v, fuel) == if Admits(h, root, n, v) then Accepts else Rejects
  }

  /** So a limit on the depth of recursion is no restriction on such documents. */
  lemma EnoughDepth(h: Host, root: Json, n: Json, v: Json)
    requires WellFormed(h, root) && Within(n, root)
    ensures exists d: nat :: Settled(h, root, n, v, d)
  {
    hide WellFormed, Within, Validate, Judged;
    var e := SomeDescent(h, root, n);
    JudgesAll(h, root, n, v, e);
    AdmitsXorRefuses(h, root, n, v);
    var d := DepthOf(h, root, n, v);
    forall fuel: nat | d <= fuel
      ensures Validate(h, root, n, v, fuel) == if Admits(h, root, n, v) then Accepts else Rejects
    {
      MoreFuel(h, root, n, v, d, fuel);
    }
    assert Settled(h, root, n, v, d);
  }
}
