/** The diff as the program runs it: comparisons that push findings onto a shared list. It reports
    no breaking finding exactly when `Compatibility.CompareOk` holds, and exactly the findings that
    `Findings` names, each with its severity, code and path. */
module SchemaDiff {
  import opened Texts
  import opened Json
  import opened Schema
  import opened Compatibility

  datatype Finding = Finding(breaking: bool, code: string, path: string)

  // ---------------------------------------------------------------- what there is to find

  ghost function When(bad: bool, code: string, path: string): iset<Finding>
  {
    if bad then iset{Finding(true, code, path)} else iset{}
  }

  /** Keywords that may not change. */
  ghost function FixedFindings(b: Json, c: Json, path: string): iset<Finding>
  {
    When(!Same(b, c, "type"), "TYPE_CHANGED", path + "." + "type") + When(!Same(b, c, "$ref"), "REF_CHANGED", path + "." + "$ref") +
    When(!Same(b, c, "const"), "CONST_CHANGED", path + "." + "const") + When(!Same(b, c, "pattern"), "PATTERN_CHANGED", path + "." + "pattern") +
    When(!Same(b, c, "format"), "FORMAT_CHANGED", path + "." + "format") + When(!Same(b, c, "default"), "DEFAULT_CHANGED", path + "." + "default") +
    When(!Same(b, c, "oneOf"), "ONEOF_CHANGED", path + "." + "oneOf") + When(!Same(b, c, "enum"), "ENUM_CHANGED", path + "." + "enum")
  }

  /** Bounds that may only widen. */
  ghost function BoundFindings(b: Json, c: Json, path: string): iset<Finding>
  {
    When(!FloorOk(b, c, "minLength"), "CONSTRAINT_TIGHTENED", path + "." + "minLength") +
    When(!FloorOk(b, c, "minItems"), "CONSTRAINT_TIGHTENED", path + "." + "minItems") +
    When(!FloorOk(b, c, "minimum"), "CONSTRAINT_TIGHTENED", path + "." + "minimum") +
    When(!CeilingOk(b, c, "maxLength"), "CONSTRAINT_TIGHTENED", path + "." + "maxLength") +
    When(!CeilingOk(b, c, "maxItems"), "CONSTRAINT_TIGHTENED", path + "." + "maxItems") +
    When(!CeilingOk(b, c, "maximum"), "CONSTRAINT_TIGHTENED", path + "." + "maximum")
  }

  ghost function KeywordFindings(b: Json, c: Json, path: string): iset<Finding>
  {
    FixedFindings(b, c, path) + BoundFindings(b, c, path) +
    When(Field(b, "uniqueItems") != Some(JBool(true)) && Field(c, "uniqueItems") == Some(JBool(true)), "CONSTRAINT_TIGHTENED", path + ".uniqueItems") +
    When(!Same(b, c, "additionalProperties"), "UNKNOWN_FIELD_POLICY_CHANGED", path + ".additionalProperties")
  }

  /** One property of the baseline: gone, or compared, and perhaps no longer required. */
  ghost function PropertyFindings(b: Json, c: Json, name: string, path: string): iset<Finding>
    requires b.JObj? && PropertiesReadable(b) && name in Properties(b)
    decreases b, 0
  {
    var at := path + ".properties." + name;
    if name !in Properties(c) then iset{Finding(true, "PROPERTY_REMOVED", at)}
    else
      Findings(b.fields["properties"].fields[name], Properties(c)[name], at) +
      if name in Required(b) && name !in Required(c) then iset{Finding(false, "REQUIRED_PROPERTY_OPTIONALIZED", at)} else iset{}
  }

  ghost function PropertiesFindings(b: Json, c: Json, path: string, names: set<string>): iset<Finding>
    requires b.JObj? && PropertiesReadable(b)
    decreases b, 1
  {
    iset name, x | name in names && name in Properties(b) && x in PropertyFindings(b, c, name, path) :: x
  }

  /** New properties of the candidate. */
  ghost function AddedFindings(b: Json, c: Json, path: string, names: set<string>): iset<Finding>
  {
    iset name | name in names && name in Properties(c) && name !in Properties(b) ::
      if name in Required(c) then Finding(true, "REQUIRED_PROPERTY_ADDED", path + ".properties." + name)
      else Finding(false, "OPTIONAL_PROPERTY_ADDED", path + ".properties." + name)
  }

  /** Properties that were optional. */
  ghost function RequiredFindings(b: Json, c: Json, path: string, names: set<string>): iset<Finding>
  {
    iset name | name in names && name in Required(c) && name in Properties(b) && name !in Required(b) ::
      Finding(true, "OPTIONAL_PROPERTY_REQUIRED", path + ".properties." + name)
  }

  ghost function ItemsFindings(b: Json, c: Json, path: string): iset<Finding>
    requires b.JObj? && c.JObj?
    decreases b, 0
  {
    if "items" in b.fields && "items" in c.fields then Findings(b.fields["items"], c.fields["items"], path + ".items")
    else When("items" in b.fields || "items" in c.fields, "ARRAY_ITEM_SCHEMA_CHANGED", path + ".items")
  }

  /** All that the comparison of two nodes finds. */
  ghost function Findings(b: Json, c: Json, path: string): iset<Finding>
    decreases b, 2
  {
    if !b.JObj? || !c.JObj? || !PropertiesReadable(b) then iset{}
    else
      KeywordFindings(b, c, path) + PropertiesFindings(b, c, path, Properties(b).Keys) +
      (AddedFindings(b, c, path, Properties(c).Keys) + RequiredFindings(b, c, path, Required(c))) + ItemsFindings(b, c, path)
  }

  /** One definition of the baseline: gone, or compared. */
  ghost function DefinitionFinding(before: map<string, Json>, after: map<string, Json>, name: string): iset<Finding>
    requires name in before
  {
    if name in after then Findings(before[name], after[name], "$defs." + name) else iset{Finding(true, "DEFINITION_REMOVED", "$defs." + name)}
  }

  ghost function DefinitionFindings(before: map<string, Json>, after: map<string, Json>, names: set<string>): iset<Finding>
  {
    iset name, x | name in names && name in before && x in DefinitionFinding(before, after, name) :: x
  }

  /** The findings of a whole diff. */
  ghost function AllFindings(rb: Json, rc: Json): iset<Finding>
  {
    When(!Same(rb, rc, "$id"), "ID_CHANGED", "$.$id") + DefinitionFindings(Defs(rb), Defs(rc), Defs(rb).Keys) +
    iset name | name in Defs(rc) && name !in Defs(rb) :: Finding(false, "DEFINITION_ADDED", "$defs." + name)
  }

  /** `out` holds what `findings` held and what was found. */
  ghost predicate Adds(findings: seq<Finding>, out: seq<Finding>, found: iset<Finding>)
  {
    forall x :: x in out <==> x in findings || x in found
  }

  lemma AddsBoth(a: seq<Finding>, b: seq<Finding>, c: seq<Finding>, x: iset<Finding>, y: iset<Finding>)
    requires Adds(a, b, x) && Adds(b, c, y)
    ensures Adds(a, c, x + y)
  {
  }

  lemma AddsNothing(a: seq<Finding>)
    ensures Adds(a, a, iset{})
  {
  }

  lemma AddsOne(a: seq<Finding>, x: Finding)
    ensures Adds(a, a + [x], iset{x})
  {
  }

  // ---------------------------------------------------------------- the diff as it runs

  /** `after` is `before` with compatible findings appended. */
  predicate Unbroken(before: seq<Finding>, after: seq<Finding>)
  {
    before <= after && forall i :: |before| <= i < |after| ==> !after[i].breaking
  }

  lemma UnbrokenTransitive(a: seq<Finding>, b: seq<Finding>, c: seq<Finding>)
    requires a <= b <= c
    ensures Unbroken(a, c) <==> Unbroken(a, b) && Unbroken(b, c)
  {
    assert forall i :: |a| <= i < |b| ==> c[i] == b[i];
  }

  method AddUnless(ok: bool, code: string, path: string, findings: seq<Finding>) returns (out: seq<Finding>)
    ensures findings <= out && (Unbroken(findings, out) <==> ok) && Adds(findings, out, When(!ok, code, path))
  {
    if ok {
      out := findings;
    } else {
      out := findings + [Finding(true, code, path)];
      assert out[|findings|].breaking;
    }
  }

  /** The keywords that must not change, with the code of the finding when they do. */
  const Fixed: seq<(string, string)> := [
    ("type", "TYPE_CHANGED"), ("$ref", "REF_CHANGED"), ("const", "CONST_CHANGED"), ("pattern", "PATTERN_CHANGED"),
    ("format", "FORMAT_CHANGED"), ("default", "DEFAULT_CHANGED"), ("oneOf", "ONEOF_CHANGED"), ("enum", "ENUM_CHANGED")]

  const Floors: seq<string> := ["minLength", "minItems", "minimum"]
  const Ceilings: seq<string> := ["maxLength", "maxItems", "maximum"]

  /** The comparisons of `compareSchema` that look at one keyword each, in its order. */
  method CompareKeywords(b: Json, c: Json, path: string, findings: seq<Finding>) returns (out: seq<Finding>)
    ensures findings <= out && (Unbroken(findings, out) <==> KeywordsOk(b, c)) && Adds(findings, out, KeywordFindings(b, c, path))
  {
    KeywordsByList(b, c);
    hide KeywordsOk, Same, MinimumOk, MaximumOk, Unbroken, Fixed, Floors, Ceilings, Adds, When, FixedFindings, BoundFindings;
    var fixed := CompareFixed(b, c, path, findings);
    var bounds := CompareBounds(b, c, path, fixed);
    var unique := AddUnless(Field(b, "uniqueItems") == Some(JBool(true)) || Field(c, "uniqueItems") != Some(JBool(true)),
      "CONSTRAINT_TIGHTENED", path + ".uniqueItems", bounds);
    out := AddUnless(Same(b, c, "additionalProperties"), "UNKNOWN_FIELD_POLICY_CHANGED", path + ".additionalProperties", unique);
    UnbrokenTransitive(findings, fixed, bounds);
    UnbrokenTransitive(findings, bounds, unique);
    UnbrokenTransitive(findings, unique, out);
    AddsBoth(findings, fixed, bounds, FixedFindings(b, c, path), BoundFindings(b, c, path));
    ghost var most := FixedFindings(b, c, path) + BoundFindings(b, c, path);
    ghost var on := When(!(Field(b, "uniqueItems") == Some(JBool(true)) || Field(c, "uniqueItems") != Some(JBool(true))), "CONSTRAINT_TIGHTENED", path + ".uniqueItems");
    AddsBoth(findings, bounds, unique, most, on);
    AddsBoth(findings, unique, out, most + on, When(!Same(b, c, "additionalProperties"), "UNKNOWN_FIELD_POLICY_CHANGED", path + ".additionalProperties"));
  }

  /** The findings of the first `n` fixed keywords. */
  ghost function FixedUpTo(b: Json, c: Json, path: string, n: nat): iset<Finding>
    requires n <= |Fixed|
  {
    if n == 0 then iset{} else FixedUpTo(b, c, path, n - 1) + When(!Same(b, c, Fixed[n - 1].0), Fixed[n - 1].1, path + "." + Fixed[n - 1].0)
  }

  lemma FixedEntries()
    ensures |Fixed| == 8 && Fixed[0] == ("type", "TYPE_CHANGED") && Fixed[1] == ("$ref", "REF_CHANGED") && Fixed[2] == ("const", "CONST_CHANGED")
    ensures Fixed[3] == ("pattern", "PATTERN_CHANGED") && Fixed[4] == ("format", "FORMAT_CHANGED") && Fixed[5] == ("default", "DEFAULT_CHANGED")
    ensures Fixed[6] == ("oneOf", "ONEOF_CHANGED") && Fixed[7] == ("enum", "ENUM_CHANGED")
  {
  }

  lemma FixedStep(b: Json, c: Json, path: string, n: nat, key: string, code: string, before: iset<Finding>)
    requires n < |Fixed| && Fixed[n] == (key, code) && FixedUpTo(b, c, path, n) == before
    ensures FixedUpTo(b, c, path, n + 1) == before + When(!Same(b, c, key), code, path + "." + key)
  {
    hide Same, When, Fixed;
  }

  lemma FixedFirst(b: Json, c: Json, path: string)
    ensures FixedUpTo(b, c, path, 4) ==
      When(!Same(b, c, "type"), "TYPE_CHANGED", path + "." + "type") + When(!Same(b, c, "$ref"), "REF_CHANGED", path + "." + "$ref") +
      When(!Same(b, c, "const"), "CONST_CHANGED", path + "." + "const") + When(!Same(b, c, "pattern"), "PATTERN_CHANGED", path + "." + "pattern")
  {
    FixedEntries();
    hide Same, When, Fixed;
    var w1 := When(!Same(b, c, "type"), "TYPE_CHANGED", path + "." + "type");
    FixedStep(b, c, path, 0, "type", "TYPE_CHANGED", iset{});
    assert iset{} + w1 == w1;
    var w2 := w1 + When(!Same(b, c, "$ref"), "REF_CHANGED", path + "." + "$ref");
    FixedStep(b, c, path, 1, "$ref", "REF_CHANGED", w1);
    var w3 := w2 + When(!Same(b, c, "const"), "CONST_CHANGED", path + "." + "const");
    FixedStep(b, c, path, 2, "const", "CONST_CHANGED", w2);
    FixedStep(b, c, path, 3, "pattern", "PATTERN_CHANGED", w3);
    hide FixedUpTo;
  }

  lemma FixedLast(b: Json, c: Json, path: string, w4: iset<Finding>)
    requires FixedUpTo(b, c, path, 4) == w4
    ensures FixedUpTo(b, c, path, |Fixed|) ==
      w4 + When(!Same(b, c, "format"), "FORMAT_CHANGED", path + "." + "format") + When(!Same(b, c, "default"), "DEFAULT_CHANGED", path + "." + "default") +
      When(!Same(b, c, "oneOf"), "ONEOF_CHANGED", path + "." + "oneOf") + When(!Same(b, c, "enum"), "ENUM_CHANGED", path + "." + "enum")
  {
    FixedEntries();
    hide Same, When, Fixed;
    var w5 := w4 + When(!Same(b, c, "format"), "FORMAT_CHANGED", path + "." + "format");
    FixedStep(b, c, path, 4, "format", "FORMAT_CHANGED", w4);
    var w6 := w5 + When(!Same(b, c, "default"), "DEFAULT_CHANGED", path + "." + "default");
    FixedStep(b, c, path, 5, "default", "DEFAULT_CHANGED", w5);
    var w7 := w6 + When(!Same(b, c, "oneOf"), "ONEOF_CHANGED", path + "." + "oneOf");
    FixedStep(b, c, path, 6, "oneOf", "ONEOF_CHANGED", w6);
    FixedStep(b, c, path, 7, "enum", "ENUM_CHANGED", w7);
    hide FixedUpTo;
  }

  lemma FixedIsList(b: Json, c: Json, path: string)
    ensures FixedUpTo(b, c, path, |Fixed|) == FixedFindings(b, c, path)
  {
    hide Same, When, FixedUpTo;
    FixedFirst(b, c, path);
    FixedLast(b, c, path, FixedUpTo(b, c, path, 4));
    hide Fixed;
  }

  method CompareFixed(b: Json, c: Json, path: string, findings: seq<Finding>) returns (out: seq<Finding>)
    ensures findings <= out && (Unbroken(findings, out) <==> forall j :: 0 <= j < |Fixed| ==> Same(b, c, Fixed[j].0))
    ensures Adds(findings, out, FixedFindings(b, c, path))
  {
    hide Same, Fixed, Adds, When, FixedFindings;
    out := findings;
    AddsNothing(findings);
    for i := 0 to |Fixed|
      invariant findings <= out && Adds(findings, out, FixedUpTo(b, c, path, i))
      invariant Unbroken(findings, out) <==> forall j :: 0 <= j < i ==> Same(b, c, Fixed[j].0)
    {
      var next := AddUnless(Same(b, c, Fixed[i].0), Fixed[i].1, path + "." + Fixed[i].0, out);
      UnbrokenTransitive(findings, out, next);
      AddsBoth(findings, out, next, FixedUpTo(b, c, path, i), When(!Same(b, c, Fixed[i].0), Fixed[i].1, path + "." + Fixed[i].0));
      out := next;
    }
    FixedIsList(b, c, path);
  }

  predicate FloorOk(b: Json, c: Json, key: string)
  {
    MinimumOk(Field(b, key), Field(c, key))
  }

  predicate CeilingOk(b: Json, c: Json, key: string)
  {
    MaximumOk(Field(b, key), Field(c, key))
  }

  /** The findings of the first `n` lower and the first `m` upper bounds. */
  ghost function BoundsUpTo(b: Json, c: Json, path: string, n: nat, m: nat): iset<Finding>
    requires n <= |Floors| && m <= |Ceilings|
    decreases n + m
  {
    if m > 0 then BoundsUpTo(b, c, path, n, m - 1) + When(!CeilingOk(b, c, Ceilings[m - 1]), "CONSTRAINT_TIGHTENED", path + "." + Ceilings[m - 1])
    else if n > 0 then BoundsUpTo(b, c, path, n - 1, 0) + When(!FloorOk(b, c, Floors[n - 1]), "CONSTRAINT_TIGHTENED", path + "." + Floors[n - 1])
    else iset{}
  }

  lemma BoundEntries()
    ensures |Floors| == |Ceilings| == 3 && Floors[0] == "minLength" && Floors[1] == "minItems" && Floors[2] == "minimum"
    ensures Ceilings[0] == "maxLength" && Ceilings[1] == "maxItems" && Ceilings[2] == "maximum"
  {
  }

  lemma FloorStep(b: Json, c: Json, path: string, n: nat, before: iset<Finding>)
    requires n < |Floors| && BoundsUpTo(b, c, path, n, 0) == before
    ensures BoundsUpTo(b, c, path, n + 1, 0) == before + When(!FloorOk(b, c, Floors[n]), "CONSTRAINT_TIGHTENED", path + "." + Floors[n])
  {
    hide FloorOk, When, Floors, Ceilings;
  }

  lemma CeilingStep(b: Json, c: Json, path: string, m: nat, before: iset<Finding>)
    requires m < |Ceilings| && BoundsUpTo(b, c, path, |Floors|, m) == before
    ensures BoundsUpTo(b, c, path, |Floors|, m + 1) == before + When(!CeilingOk(b, c, Ceilings[m]), "CONSTRAINT_TIGHTENED", path + "." + Ceilings[m])
  {
    hide CeilingOk, When, Floors, Ceilings;
  }

  lemma FloorsFirst(b: Json, c: Json, path: string)
    ensures BoundsUpTo(b, c, path, |Floors|, 0) ==
      When(!FloorOk(b, c, "minLength"), "CONSTRAINT_TIGHTENED", path + "." + "minLength") +
      When(!FloorOk(b, c, "minItems"), "CONSTRAINT_TIGHTENED", path + "." + "minItems") +
      When(!FloorOk(b, c, "minimum"), "CONSTRAINT_TIGHTENED", path + "." + "minimum")
  {
    BoundEntries();
    hide FloorOk, CeilingOk, When, Floors, Ceilings;
    var w1 := When(!FloorOk(b, c, "minLength"), "CONSTRAINT_TIGHTENED", path + "." + "minLength");
    FloorStep(b, c, path, 0, iset{});
    assert iset{} + w1 == w1;
    var w2 := w1 + When(!FloorOk(b, c, "minItems"), "CONSTRAINT_TIGHTENED", path + "." + "minItems");
    FloorStep(b, c, path, 1, w1);
    FloorStep(b, c, path, 2, w2);
    hide BoundsUpTo;
  }

  lemma CeilingsLast(b: Json, c: Json, path: string, w3: iset<Finding>)
    requires BoundsUpTo(b, c, path, |Floors|, 0) == w3
    ensures BoundsUpTo(b, c, path, |Floors|, |Ceilings|) ==
      w3 + When(!CeilingOk(b, c, "maxLength"), "CONSTRAINT_TIGHTENED", path + "." + "maxLength") +
      When(!CeilingOk(b, c, "maxItems"), "CONSTRAINT_TIGHTENED", path + "." + "maxItems") +
      When(!CeilingOk(b, c, "maximum"), "CONSTRAINT_TIGHTENED", path + "." + "maximum")
  {
    BoundEntries();
    hide FloorOk, CeilingOk, When, Floors, Ceilings;
    var w4 := w3 + When(!CeilingOk(b, c, "maxLength"), "CONSTRAINT_TIGHTENED", path + "." + "maxLength");
    CeilingStep(b, c, path, 0, w3);
    var w5 := w4 + When(!CeilingOk(b, c, "maxItems"), "CONSTRAINT_TIGHTENED", path + "." + "maxItems");
    CeilingStep(b, c, path, 1, w4);
    CeilingStep(b, c, path, 2, w5);
    hide BoundsUpTo;
  }

  lemma BoundsAreList(b: Json, c: Json, path: string)
    ensures BoundsUpTo(b, c, path, |Floors|, |Ceilings|) == BoundFindings(b, c, path)
  {
    hide FloorOk, CeilingOk, When, BoundsUpTo;
    FloorsFirst(b, c, path);
    CeilingsLast(b, c, path, BoundsUpTo(b, c, path, |Floors|, 0));
    hide Floors, Ceilings;
  }

  method CompareBounds(b: Json, c: Json, path: string, findings: seq<Finding>) returns (out: seq<Finding>)
    ensures findings <= out
    ensures Unbroken(findings, out) <==>
      (forall j :: 0 <= j < |Floors| ==> FloorOk(b, c, Floors[j])) && (forall j :: 0 <= j < |Ceilings| ==> CeilingOk(b, c, Ceilings[j]))
    ensures Adds(findings, out, BoundFindings(b, c, path))
  {
    hide FloorOk, CeilingOk, Floors, Ceilings, Adds, When, BoundFindings;
    out := findings;
    AddsNothing(findings);
    for i := 0 to |Floors|
      invariant findings <= out && Adds(findings, out, BoundsUpTo(b, c, path, i, 0))
      invariant Unbroken(findings, out) <==> forall j :: 0 <= j < i ==> FloorOk(b, c, Floors[j])
    {
      var next := AddUnless(FloorOk(b, c, Floors[i]), "CONSTRAINT_TIGHTENED", path + "." + Floors[i], out);
      UnbrokenTransitive(findings, out, next);
      AddsBoth(findings, out, next, BoundsUpTo(b, c, path, i, 0), When(!FloorOk(b, c, Floors[i]), "CONSTRAINT_TIGHTENED", path + "." + Floors[i]));
      out := next;
    }
    ghost var floors := Unbroken(findings, out);
    for i := 0 to |Ceilings|
      invariant findings <= out && Adds(findings, out, BoundsUpTo(b, c, path, |Floors|, i))
      invariant Unbroken(findings, out) <==> floors && forall j :: 0 <= j < i ==> CeilingOk(b, c, Ceilings[j])
    {
      var next := AddUnless(CeilingOk(b, c, Ceilings[i]), "CONSTRAINT_TIGHTENED", path + "." + Ceilings[i], out);
      UnbrokenTransitive(findings, out, next);
      AddsBoth(findings, out, next, BoundsUpTo(b, c, path, |Floors|, i), When(!CeilingOk(b, c, Ceilings[i]), "CONSTRAINT_TIGHTENED", path + "." + Ceilings[i]));
      out := next;
    }
    BoundsAreList(b, c, path);
  }

  lemma KeywordsByList(b: Json, c: Json)
    ensures KeywordsOk(b, c) <==>
      (forall j :: 0 <= j < |Fixed| ==> Same(b, c, Fixed[j].0)) &&
      (forall j :: 0 <= j < |Floors| ==> FloorOk(b, c, Floors[j])) && (forall j :: 0 <= j < |Ceilings| ==> CeilingOk(b, c, Ceilings[j])) &&
      (Field(b, "uniqueItems") == Some(JBool(true)) || Field(c, "uniqueItems") != Some(JBool(true))) &&
      Same(b, c, "additionalProperties")
  {
    hide Same, MinimumOk, MaximumOk, Field;
    FixedByList(b, c);
    assert (forall j :: 0 <= j < |Floors| ==> FloorOk(b, c, Floors[j])) <==>
      (FloorOk(b, c, Floors[0]) && FloorOk(b, c, Floors[1]) && FloorOk(b, c, Floors[2]));
    assert (forall j :: 0 <= j < |Ceilings| ==> CeilingOk(b, c, Ceilings[j])) <==>
      (CeilingOk(b, c, Ceilings[0]) && CeilingOk(b, c, Ceilings[1]) && CeilingOk(b, c, Ceilings[2]));
  }

  lemma FixedByList(b: Json, c: Json)
    ensures (forall j :: 0 <= j < |Fixed| ==> Same(b, c, Fixed[j].0)) <==>
      (Same(b, c, "type") && Same(b, c, "$ref") && Same(b, c, "const") && Same(b, c, "pattern") &&
       Same(b, c, "format") && Same(b, c, "default") && Same(b, c, "oneOf") && Same(b, c, "enum"))
  {
    hide Same;
    if forall j :: 0 <= j < |Fixed| ==> Same(b, c, Fixed[j].0) {
      assert Same(b, c, Fixed[0].0) && Same(b, c, Fixed[1].0) && Same(b, c, Fixed[2].0) && Same(b, c, Fixed[3].0);
      assert Same(b, c, Fixed[4].0) && Same(b, c, Fixed[5].0) && Same(b, c, Fixed[6].0) && Same(b, c, Fixed[7].0);
    }
  }

  /** The part of `CompareOk` about properties, and the part about items. */
  ghost predicate PropertiesOk(b: Json, c: Json)
  {
    NamesOk(b, c) && b.JObj? &&
    forall k :: k in Properties(b) ==>
      b.fields["properties"].fields[k] == Properties(b)[k] && CompareOk(b.fields["properties"].fields[k], Properties(c)[k])
  }

  ghost predicate ItemsOk(b: Json, c: Json)
    requires b.JObj? && c.JObj?
  {
    (Field(b, "items").Some? <==> Field(c, "items").Some?) && (Field(b, "items").Some? ==> CompareOk(b.fields["items"], c.fields["items"]))
  }

  lemma CompareParts(b: Json, c: Json)
    ensures CompareOk(b, c) <==>
      b.JObj? && c.JObj? && Constraints(b) && Constraints(c) && KeywordsOk(b, c) && PropertiesOk(b, c) && ItemsOk(b, c)
    ensures PropertiesOk(b, c) ==>
      PropertiesReadable(b) && PropertiesReadable(c) &&
      (Field(b, "properties").Some? || Field(c, "properties").Some? ==> RequiredReadable(b) && RequiredReadable(c))
  {
    hide Constraints, KeywordsOk, RequiredReadable, PropertiesReadable;
  }

  /** `compareSchema`: either it throws, or it appends its findings to the list. */
  method CompareSchema(b: Json, c: Json, path: string, findings: seq<Finding>) returns (thrown: bool, out: seq<Finding>)
    ensures findings <= out
    ensures !thrown && Unbroken(findings, out) <==> CompareOk(b, c)
    ensures !thrown ==> Adds(findings, out, Findings(b, c, path))
    decreases b, 3
  {
    hide CompareOk, Constraints, KeywordsOk, PropertiesOk, Unbroken, RequiredReadable, PropertiesReadable, Adds, KeywordFindings, ItemsFindings;
    hide PropertiesFindings, AddedFindings, RequiredFindings;
    CompareParts(b, c);
    out := findings;
    if !b.JObj? || !c.JObj? || !Constraints(b) || !Constraints(c) { return true, out; }
    out := CompareKeywords(b, c, path, out);
    if !PropertiesReadable(b) || !PropertiesReadable(c) { return true, out; }
    if ("properties" in b.fields || "properties" in c.fields) && !(RequiredReadable(b) && RequiredReadable(c)) { return true, out; }
    var keywords := out;
    thrown, out := CompareProperties(b, c, path, keywords);
    UnbrokenTransitive(findings, keywords, out);
    if thrown { return; }
    var properties := out;
    thrown, out := CompareItems(b, c, path, properties);
    UnbrokenTransitive(findings, properties, out);
    if !thrown {
      ghost var first, names := KeywordFindings(b, c, path), AddedFindings(b, c, path, Properties(c).Keys) + RequiredFindings(b, c, path, Required(c));
      ghost var second := PropertiesFindings(b, c, path, Properties(b).Keys);
      AddsBoth(findings, keywords, properties, first, second + names);
      assert first + (second + names) == first + second + names;
      AddsBoth(findings, properties, out, first + second + names, ItemsFindings(b, c, path));
    }
  }

  method CompareItems(b: Json, c: Json, path: string, findings: seq<Finding>) returns (thrown: bool, out: seq<Finding>)
    requires b.JObj? && c.JObj?
    ensures findings <= out
    ensures !thrown && Unbroken(findings, out) <==> ItemsOk(b, c)
    ensures !thrown ==> Adds(findings, out, ItemsFindings(b, c, path))
    decreases b, 2
  {
    hide CompareOk, Adds, Findings;
    thrown, out := false, findings;
    AddsNothing(findings);
    if "items" in b.fields || "items" in c.fields {
      if !("items" in b.fields && "items" in c.fields) {
        out := AddUnless(false, "ARRAY_ITEM_SCHEMA_CHANGED", path + ".items", findings);
      } else {
        thrown, out := CompareSchema(b.fields["items"], c.fields["items"], path + ".items", findings);
      }
    }
  }

  ghost predicate PropertyPairsOk(b: Json, c: Json, names: set<string>)
    requires b.JObj? && PropertiesReadable(b)
  {
    forall k :: k in names && k in Properties(b) ==> k in Properties(c) && CompareOk(Properties(b)[k], Properties(c)[k])
  }

  /** One property of the baseline. */
  method CompareProperty(b: Json, c: Json, name: string, path: string, findings: seq<Finding>) returns (thrown: bool, out: seq<Finding>)
    requires b.JObj? && PropertiesReadable(b) && name in Properties(b)
    ensures findings <= out
    ensures !thrown && Unbroken(findings, out) <==> (name in Properties(c) && CompareOk(Properties(b)[name], Properties(c)[name]))
    ensures !thrown ==> Adds(findings, out, PropertyFindings(b, c, name, path))
    decreases b, 0
  {
    hide CompareOk, Adds, Findings;
    out := findings;
    var after := Properties(c);
    if name !in after {
      out := AddUnless(false, "PROPERTY_REMOVED", path + ".properties." + name, out);
      return false, out;
    }
    assert Properties(b)[name] == b.fields["properties"].fields[name];
    thrown, out := CompareSchema(b.fields["properties"].fields[name], after[name], path + ".properties." + name, out);
    ghost var compared, found := out, Findings(b.fields["properties"].fields[name], after[name], path + ".properties." + name);
    if !thrown && name in Required(b) && name !in Required(c) {
      out := out + [Finding(false, "REQUIRED_PROPERTY_OPTIONALIZED", path + ".properties." + name)];
      UnbrokenTransitive(findings, compared, out);
      AddsOne(compared, Finding(false, "REQUIRED_PROPERTY_OPTIONALIZED", path + ".properties." + name));
      AddsBoth(findings, compared, out, found, iset{Finding(false, "REQUIRED_PROPERTY_OPTIONALIZED", path + ".properties." + name)});
    } else {
      assert found + iset{} == found;
    }
  }

  lemma NoPairs(b: Json, c: Json)
    requires b.JObj? && PropertiesReadable(b)
    ensures PropertyPairsOk(b, c, {})
  {
  }

  lemma UnbrokenSelf(findings: seq<Finding>)
    ensures Unbroken(findings, findings)
  {
  }

  lemma AllPairs(b: Json, c: Json, name: string)
    requires b.JObj? && PropertiesReadable(b) && name in Properties(b)
    ensures PropertyPairsOk(b, c, Properties(b).Keys) ==> name in Properties(c) && CompareOk(Properties(b)[name], Properties(c)[name])
  {
    hide CompareOk, Properties;
  }

  lemma PairsStep(b: Json, c: Json, done: set<string>, name: string)
    requires b.JObj? && PropertiesReadable(b) && name in Properties(b)
    ensures PropertyPairsOk(b, c, done + {name}) <==>
      PropertyPairsOk(b, c, done) && name in Properties(c) && CompareOk(Properties(b)[name], Properties(c)[name])
  {
    hide CompareOk, Properties;
  }

  lemma NoProperties(b: Json, c: Json, path: string)
    requires b.JObj? && PropertiesReadable(b)
    ensures PropertiesFindings(b, c, path, {}) == iset{}
  {
  }

  lemma PropertiesStep(b: Json, c: Json, path: string, names: set<string>, name: string)
    requires b.JObj? && PropertiesReadable(b) && name in Properties(b)
    ensures PropertiesFindings(b, c, path, names + {name}) == PropertiesFindings(b, c, path, names) + PropertyFindings(b, c, name, path)
  {
    hide PropertyFindings, Properties;
  }

  /** The loop over the baseline's properties. */
  method CompareEach(b: Json, c: Json, path: string, findings: seq<Finding>) returns (thrown: bool, out: seq<Finding>)
    requires b.JObj? && PropertiesReadable(b)
    ensures findings <= out
    ensures !thrown && Unbroken(findings, out) <==> PropertyPairsOk(b, c, Properties(b).Keys)
    ensures !thrown ==> Adds(findings, out, PropertiesFindings(b, c, path, Properties(b).Keys))
    decreases b, 1
  {
    hide CompareOk, Properties, PropertiesReadable, PropertyPairsOk, Unbroken, Adds, PropertiesFindings, PropertyFindings;
    out := findings;
    var rest, before := Properties(b).Keys, Properties(b);
    NoPairs(b, c);
    UnbrokenSelf(out);
    NoProperties(b, c, path);
    AddsNothing(findings);
    assert before.Keys - rest == {};
    while rest != {}
      invariant rest <= before.Keys && findings <= out && Adds(findings, out, PropertiesFindings(b, c, path, before.Keys - rest))
      invariant Unbroken(findings, out) <==> PropertyPairsOk(b, c, before.Keys - rest)
      decreases |rest|
    {
      var name :| name in rest;
      var next;
      thrown, next := CompareProperty(b, c, name, path, out);
      if thrown {
        AllPairs(b, c, name);
        return thrown, next;
      }
      UnbrokenTransitive(findings, out, next);
      PairsStep(b, c, before.Keys - rest, name);
      PropertiesStep(b, c, path, before.Keys - rest, name);
      AddsBoth(findings, out, next, PropertiesFindings(b, c, path, before.Keys - rest), PropertyFindings(b, c, name, path));
      assert before.Keys - (rest - {name}) == before.Keys - rest + {name};
      out, rest := next, rest - {name};
    }
    assert before.Keys - rest == before.Keys;
    thrown := false;
  }

  /** `compareProperties`. */
  method CompareProperties(b: Json, c: Json, path: string, findings: seq<Finding>) returns (thrown: bool, out: seq<Finding>)
    requires b.JObj? && c.JObj? && PropertiesReadable(b) && PropertiesReadable(c)
    requires Field(b, "properties").Some? || Field(c, "properties").Some? ==> RequiredReadable(b) && RequiredReadable(c)
    ensures findings <= out
    ensures !thrown && Unbroken(findings, out) <==>
      PropertiesOk(b, c)
    ensures !thrown ==> Adds(findings, out, PropertiesFindings(b, c, path, Properties(b).Keys) +
      (AddedFindings(b, c, path, Properties(c).Keys) + RequiredFindings(b, c, path, Required(c))))
    decreases b, 2
  {
    hide CompareOk, RequiredReadable, Unbroken, Adds, PropertiesFindings, AddedFindings, RequiredFindings;
    thrown, out := CompareEach(b, c, path, findings);
    assert forall k :: k in Properties(b) ==> b.fields["properties"].fields[k] == Properties(b)[k];
    if thrown { return; }
    ghost var pairs := out;
    out := CompareNames(b, c, path, out);
    UnbrokenTransitive(findings, pairs, out);
    AddsBoth(findings, pairs, out, PropertiesFindings(b, c, path, Properties(b).Keys),
             AddedFindings(b, c, path, Properties(c).Keys) + RequiredFindings(b, c, path, Required(c)));
  }

  /** The loops over the candidate's own names. */
  method CompareNames(b: Json, c: Json, path: string, findings: seq<Finding>) returns (out: seq<Finding>)
    ensures findings <= out
    ensures Unbroken(findings, out) <==>
      (forall k :: k in Properties(c) && k !in Properties(b) ==> k !in Required(c)) &&
      (forall k :: k in Required(c) && k in Properties(b) ==> k in Required(b))
    ensures Adds(findings, out, AddedFindings(b, c, path, Properties(c).Keys) + RequiredFindings(b, c, path, Required(c)))
  {
    hide Properties, Required, Adds, AddedFindings, RequiredFindings, Unbroken;
    var added := CompareAdded(b, c, path, findings);
    out := CompareRequired(b, c, path, added);
    UnbrokenTransitive(findings, added, out);
    AddsBoth(findings, added, out, AddedFindings(b, c, path, Properties(c).Keys), RequiredFindings(b, c, path, Required(c)));
  }

  lemma NoneAdded(b: Json, c: Json, path: string)
    ensures AddedFindings(b, c, path, {}) == iset{} && RequiredFindings(b, c, path, {}) == iset{}
  {
  }

  /** What one new name brings. */
  ghost function AddedFinding(b: Json, c: Json, path: string, name: string): iset<Finding>
  {
    if name !in Properties(c) || name in Properties(b) then iset{}
    else if name in Required(c) then iset{Finding(true, "REQUIRED_PROPERTY_ADDED", path + ".properties." + name)}
    else iset{Finding(false, "OPTIONAL_PROPERTY_ADDED", path + ".properties." + name)}
  }

  lemma AddedStep(b: Json, c: Json, path: string, names: set<string>, name: string)
    ensures AddedFindings(b, c, path, names + {name}) == AddedFindings(b, c, path, names) + AddedFinding(b, c, path, name)
  {
    hide Properties, Required;
  }

  lemma RequiredStep(b: Json, c: Json, path: string, names: set<string>, name: string)
    requires name in Required(c)
    ensures RequiredFindings(b, c, path, names + {name}) ==
      RequiredFindings(b, c, path, names) + When(name in Properties(b) && name !in Required(b), "OPTIONAL_PROPERTY_REQUIRED", path + ".properties." + name)
  {
    hide Properties, Required;
  }

  method CompareAdded(b: Json, c: Json, path: string, findings: seq<Finding>) returns (out: seq<Finding>)
    ensures findings <= out
    ensures Unbroken(findings, out) <==> forall k :: k in Properties(c) && k !in Properties(b) ==> k !in Required(c)
    ensures Adds(findings, out, AddedFindings(b, c, path, Properties(c).Keys))
  {
    hide Properties, Required, Adds, AddedFindings, When;
    out := findings;
    var before, after, needed := Properties(b), Properties(c), Required(c);
    var rest := after.Keys;
    NoneAdded(b, c, path);
    AddsNothing(findings);
    assert after.Keys - rest == {};
    while rest != {}
      invariant rest <= after.Keys && findings <= out && Adds(findings, out, AddedFindings(b, c, path, after.Keys - rest))
      invariant Unbroken(findings, out) <==> forall k :: k in after && k !in rest && k !in before ==> k !in needed
      decreases |rest|
    {
      var name :| name in rest;
      var next := CompareNew(b, c, path, name, out);
      UnbrokenTransitive(findings, out, next);
      AddedStep(b, c, path, after.Keys - rest, name);
      AddsBoth(findings, out, next, AddedFindings(b, c, path, after.Keys - rest), AddedFinding(b, c, path, name));
      assert after.Keys - (rest - {name}) == after.Keys - rest + {name};
      out, rest := next, rest - {name};
    }
    assert after.Keys - rest == after.Keys;
  }

  method CompareNew(b: Json, c: Json, path: string, name: string, findings: seq<Finding>) returns (out: seq<Finding>)
    requires name in Properties(c)
    ensures findings <= out && (Unbroken(findings, out) <==> name in Properties(b) || name !in Required(c))
    ensures Adds(findings, out, AddedFinding(b, c, path, name))
  {
    hide Properties, Required, Adds;
    var before, needed := Properties(b), Required(c);
    out := findings;
    AddsNothing(findings);
    if name !in before {
      if name in needed {
        out := AddUnless(false, "REQUIRED_PROPERTY_ADDED", path + ".properties." + name, findings);
      } else {
        out := findings + [Finding(false, "OPTIONAL_PROPERTY_ADDED", path + ".properties." + name)];
        AddsOne(findings, Finding(false, "OPTIONAL_PROPERTY_ADDED", path + ".properties." + name));
      }
    }
  }

  method CompareRequired(b: Json, c: Json, path: string, findings: seq<Finding>) returns (out: seq<Finding>)
    ensures findings <= out
    ensures Unbroken(findings, out) <==> forall k :: k in Required(c) && k in Properties(b) ==> k in Required(b)
    ensures Adds(findings, out, RequiredFindings(b, c, path, Required(c)))
  {
    hide Properties, Required, Adds, RequiredFindings, When;
    out := findings;
    var before, needed, had := Properties(b), Required(c), Required(b);
    var rest := needed;
    NoneAdded(b, c, path);
    AddsNothing(findings);
    assert needed - rest == {};
    while rest != {}
      invariant rest <= needed && findings <= out && Adds(findings, out, RequiredFindings(b, c, path, needed - rest))
      invariant Unbroken(findings, out) <==> forall k :: k in needed && k !in rest && k in before ==> k in had
      decreases |rest|
    {
      var name :| name in rest;
      var next := AddUnless(!(name in before && name !in had), "OPTIONAL_PROPERTY_REQUIRED", path + ".properties." + name, out);
      UnbrokenTransitive(findings, out, next);
      RequiredStep(b, c, path, needed - rest, name);
      AddsBoth(findings, out, next, RequiredFindings(b, c, path, needed - rest),
               When(name in before && name !in had, "OPTIONAL_PROPERTY_REQUIRED", path + ".properties." + name));
      assert needed - (rest - {name}) == needed - rest + {name};
      out, rest := next, rest - {name};
    }
    assert needed - rest == needed;
  }

  ghost predicate PairsOk(before: map<string, Json>, after: map<string, Json>, names: set<string>)
  {
    forall k :: k in names && k in before ==> k in after && CompareOk(before[k], after[k])
  }

  lemma NoDefinitions(before: map<string, Json>, after: map<string, Json>)
    ensures DefinitionFindings(before, after, {}) == iset{}
  {
  }

  lemma DefinitionsStep(before: map<string, Json>, after: map<string, Json>, names: set<string>, name: string)
    requires name in before
    ensures DefinitionFindings(before, after, names + {name}) == DefinitionFindings(before, after, names) + DefinitionFinding(before, after, name)
  {
    hide Findings;
  }

  /** The loop over the baseline's definitions. */
  method CompareDefinitions(before: map<string, Json>, after: map<string, Json>, findings: seq<Finding>) returns (thrown: bool, out: seq<Finding>)
    ensures findings <= out
    ensures !thrown && Unbroken(findings, out) <==> PairsOk(before, after, before.Keys)
    ensures !thrown ==> Adds(findings, out, DefinitionFindings(before, after, before.Keys))
  {
    hide CompareOk, Adds, DefinitionFindings, Findings;
    out := findings;
    var rest := before.Keys;
    NoDefinitions(before, after);
    AddsNothing(findings);
    assert before.Keys - rest == {};
    while rest != {}
      invariant rest <= before.Keys && findings <= out && Adds(findings, out, DefinitionFindings(before, after, before.Keys - rest))
      invariant Unbroken(findings, out) <==> PairsOk(before, after, before.Keys - rest)
      decreases |rest|
    {
      var name :| name in rest;
      var next;
      if name !in after {
        next := AddUnless(false, "DEFINITION_REMOVED", "$defs." + name, out);
      } else {
        thrown, next := CompareSchema(before[name], after[name], "$defs." + name, out);
        if thrown { return; }
      }
      UnbrokenTransitive(findings, out, next);
      DefinitionsStep(before, after, before.Keys - rest, name);
      AddsBoth(findings, out, next, DefinitionFindings(before, after, before.Keys - rest), DefinitionFinding(before, after, name));
      assert before.Keys - (rest - {name}) == before.Keys - rest + {name};
      out, rest := next, rest - {name};
    }
    assert before.Keys - rest == before.Keys;
    thrown := false;
  }

  /** A sort of findings; how texts collate is the host's. */
  type Sorter = seq<Finding> -> seq<Finding>

  ghost predicate Permutes(sort: Sorter)
  {
    forall findings :: multiset(sort(findings)) == multiset(findings)
  }

  lemma SortedUnbroken(findings: seq<Finding>, sorted: seq<Finding>)
    requires multiset(sorted) == multiset(findings)
    ensures Unbroken([], sorted) <==> Unbroken([], findings)
  {
    NoneBreaking(findings, sorted);
    NoneBreaking(sorted, findings);
  }

  lemma NoneBreaking(a: seq<Finding>, b: seq<Finding>)
    requires multiset(a) == multiset(b)
    ensures Unbroken([], a) ==> Unbroken([], b)
  {
    forall i | 0 <= i < |b|
      ensures b[i] in a
    {
      assert b[i] in multiset(b);
    }
  }

  /** `diffContractSchemas`: thrown, or the verdict and the sorted findings. */
  method DiffContractSchemas(rb: Json, rc: Json, sort: Sorter) returns (thrown: bool, compatible: bool, findings: seq<Finding>)
    requires Permutes(sort)
    ensures !thrown && compatible <==> DiffCompatible(rb, rc)
    ensures !thrown ==> (compatible <==> forall i :: 0 <= i < |findings| ==> !findings[i].breaking)
    ensures !thrown ==> forall x :: x in findings <==> x in AllFindings(rb, rc)
  {
    hide DiffCompatible, AllFindings;
    var found;
    thrown, found := CollectFindings(rb, rc);
    if thrown { return true, false, []; }
    findings := sort(found);
    SortedUnbroken(found, findings);
    SortedHolds(found, findings);
    compatible := forall i :: 0 <= i < |findings| ==> !findings[i].breaking;
  }

  lemma SortedHolds(findings: seq<Finding>, sorted: seq<Finding>)
    requires multiset(sorted) == multiset(findings)
    ensures forall x :: x in sorted <==> x in findings
  {
    forall x
      ensures x in sorted <==> x in findings
    {
      assert x in multiset(sorted) <==> x in multiset(findings);
    }
  }

  method CollectFindings(rb: Json, rc: Json) returns (thrown: bool, findings: seq<Finding>)
    ensures !thrown && Unbroken([], findings) <==> DiffCompatible(rb, rc)
    ensures !thrown ==> forall x :: x in findings <==> x in AllFindings(rb, rc)
  {
    hide CompareOk, Same, Unbroken, Adds, When, DefinitionFindings;
    findings := [];
    if !HasDefs(rb) || !HasDefs(rc) { return true, findings; }
    findings := AddUnless(Same(rb, rc, "$id"), "ID_CHANGED", "$.$id", findings);
    var before, after := Defs(rb), Defs(rc);
    hide HasDefs, Defs;
    var next;
    thrown, next := CompareDefinitions(before, after, findings);
    UnbrokenTransitive([], findings, next);
    ghost var first := findings;
    findings := next;
    assert PairsOk(before, after, before.Keys) && Same(rb, rc, "$id") <==> DiffCompatible(rb, rc);
    if thrown { return; }
    ghost var kept := When(!Same(rb, rc, "$id"), "ID_CHANGED", "$.$id") + DefinitionFindings(before, after, before.Keys);
    AddsBoth([], first, findings, When(!Same(rb, rc, "$id"), "ID_CHANGED", "$.$id"), DefinitionFindings(before, after, before.Keys));
    next := AddDefinitions(after.Keys - before.Keys, findings);
    UnbrokenTransitive([], findings, next);
    AddsBoth([], findings, next, kept, NewDefinitions(after.Keys - before.Keys));
    findings := next;
    assert NewDefinitions(after.Keys - before.Keys) == iset name | name in after && name !in before :: Finding(false, "DEFINITION_ADDED", "$defs." + name);
    FromNothing(findings, kept + NewDefinitions(after.Keys - before.Keys));
  }

  lemma FromNothing(findings: seq<Finding>, found: iset<Finding>)
    requires Adds([], findings, found)
    ensures forall x :: x in findings <==> x in found
  {
  }

  ghost function NewDefinitions(names: set<string>): iset<Finding>
  {
    iset name | name in names :: Finding(false, "DEFINITION_ADDED", "$defs." + name)
  }

  method AddDefinitions(added: set<string>, findings: seq<Finding>) returns (out: seq<Finding>)
    ensures Unbroken(findings, out) && Adds(findings, out, NewDefinitions(added))
  {
    out := findings;
    var rest := added;
    while rest != {}
      invariant rest <= added && Unbroken(findings, out) && Adds(findings, out, NewDefinitions(added - rest))
      decreases |rest|
    {
      var name :| name in rest;
      assert NewDefinitions(added - (rest - {name})) == NewDefinitions(added - rest) + iset{Finding(false, "DEFINITION_ADDED", "$defs." + name)};
      out, rest := out + [Finding(false, "DEFINITION_ADDED", "$defs." + name)], rest - {name};
    }
    assert added - rest == added;
  }
}
