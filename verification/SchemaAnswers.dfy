/** When the validator answers at all: a node throws on a value exactly when an unknown type name, a pattern
    that does not compile, a malformed `properties` or a part that throws comes up before the answer. */
module SchemaAnswers {
  import opened Texts
  import opened Json
  import opened Schema
  import opened Compatibility
  import opened CompatibilityNeeds
  import opened SchemaTotal
  import opened SchemaMeaning

  /** The validator says yes or no. */
  ghost predicate Judges(h: Host, root: Json, n: Json, v: Json)
  {
    Admits(h, root, n, v) || Refuses(h, root, n, v)
  }

  lemma JudgesIsJudged(h: Host, root: Json, n: Json, v: Json)
    ensures Judges(h, root, n, v) <==> Judged(h, root, n, v)
  {
    hide Admits, Refuses, Judged;
    if Admits(h, root, n, v) { AdmittedIsJudged(h, root, n, v); }
    if Refuses(h, root, n, v) { RefusedIsJudged(h, root, n, v); }
    if Judged(h, root, n, v) { JudgedIsOne(h, root, n, v); }
  }

  lemma AdmittedIsJudged(h: Host, root: Json, n: Json, v: Json)
    requires Admits(h, root, n, v)
    ensures Judged(h, root, n, v)
  {
    hide Validate, Judged;
    var fuel: nat :| Validate(h, root, n, v, fuel) == Accepts;
    JudgedOnce(h, root, n, v, fuel);
  }

  lemma RefusedIsJudged(h: Host, root: Json, n: Json, v: Json)
    requires Refuses(h, root, n, v)
    ensures Judged(h, root, n, v)
  {
    hide Validate, Judged;
    var fuel: nat :| Validate(h, root, n, v, fuel) == Rejects;
    JudgedOnce(h, root, n, v, fuel);
  }

  lemma JudgedIsOne(h: Host, root: Json, n: Json, v: Json)
    requires Judged(h, root, n, v)
    ensures Admits(h, root, n, v) || Refuses(h, root, n, v)
  {
    hide Validate, Judged;
    var fuel := DepthOf(h, root, n, v);
    if Validate(h, root, n, v, fuel) == Accepts { assert Admits(h, root, n, v); } else { assert Refuses(h, root, n, v); }
  }

  // ---------------------------------------------------------------- what can throw

  predicate Mismatch(f: Keywords, v: Json)
  {
    ("const" in f && v != f["const"]) || ("enum" in f && f["enum"].JArr? && v !in f["enum"].items)
  }

  ghost predicate TypeFits(f: Keywords, v: Json)
  {
    ("type" in f && f["type"].JStr? ==> HasType(v, f["type"].t)) && ("type" in f && f["type"].JArr? ==> OneFits(v, f["type"].items))
  }

  /** No unknown type name is met before one fits. */
  ghost predicate TypeAnswers(f: Keywords, v: Json)
  {
    ("type" in f && f["type"].JStr? ==> Known(f["type"].t)) &&
    ("type" in f && f["type"].JArr? && (forall x :: x in f["type"].items ==> x.JStr?) ==>
       OneFits(v, f["type"].items) || forall i :: 0 <= i < |f["type"].items| ==> Known(f["type"].items[i].t))
  }

  ghost predicate FieldAnswers(h: Host, root: Json, f: Keywords, k: string, x: Json)
  {
    if "properties" in f && f["properties"].JObj? && k in f["properties"].fields then Judges(h, root, f["properties"].fields[k], x)
    else
      "additionalProperties" in f && (f["additionalProperties"].JObj? || f["additionalProperties"].JArr?) ==>
        Judges(h, root, f["additionalProperties"], x)
  }

  ghost predicate PartsAnswer(h: Host, root: Json, f: Keywords, v: Json)
  {
    (v.JStr? && "pattern" in f && f["pattern"].JStr? ==> h.compiles(f["pattern"].t)) &&
    (v.JArr? && "items" in f ==> forall i :: 0 <= i < |v.items| ==> Judges(h, root, f["items"], v.items[i])) &&
    (v.JObj? ==> ("properties" in f ==> f["properties"].JObj?) && forall k :: k in v.fields ==> FieldAnswers(h, root, f, k, v.fields[k]))
  }

  /** `const` and `enum` answer first, then `type`, then the parts. */
  ghost predicate Answers(h: Host, root: Json, f: Keywords, v: Json)
  {
    Mismatch(f, v) || (TypeAnswers(f, v) && (!TypeFits(f, v) || PartsAnswer(h, root, f, v)))
  }

  // ---------------------------------------------------------------- guards

  lemma {:induction false} AnyTypeAnswersExactly(v: Json, types: seq<Json>, k: nat)
    requires k <= |types| && forall i :: 0 <= i < |types| ==> types[i].JStr?
    ensures AnyType(v, types, k) != Broken <==> AnyType(v, types, k) == Accepts || forall i :: k <= i < |types| ==> Known(types[i].t)
    decreases |types| - k
  {
    hide HasType, MatchesType, Known;
    if k < |types| {
      TypeMeans(v, types[k].t);
      AnyTypeAnswersExactly(v, types, k + 1);
    }
  }

  lemma TypeListAnswers(v: Json, types: seq<Json>)
    requires forall i :: 0 <= i < |types| ==> types[i].JStr?
    ensures AnyType(v, types, 0) != Broken <==> OneFits(v, types) || forall i :: 0 <= i < |types| ==> Known(types[i].t)
  {
    hide AnyType, OneFits, Known;
    AnyTypeAnswersExactly(v, types, 0);
    FirstFit(v, types);
  }

  lemma TypeVerdictMeans(f: Keywords, v: Json)
    ensures TypeVerdict(JObj(f), v) != Broken <==> TypeAnswers(f, v)
    ensures TypeVerdict(JObj(f), v) == Accepts <==> TypeFits(f, v)
  {
    TypeKeyMeans(f, v);
    hide HasType, Known, AnyType, OneFits, MatchesType;
    if "type" in f && f["type"].JStr? { TypeMeans(v, f["type"].t); }
    if "type" in f && f["type"].JArr? {
      var types := f["type"].items;
      if forall i :: 0 <= i < |types| ==> types[i].JStr? { TypeListAnswers(v, types); }
    }
  }

  lemma GuardAnswersExactly(f: Keywords, v: Json)
    ensures Guard(JObj(f), v) != Broken <==> Mismatch(f, v) || TypeAnswers(f, v)
    ensures Guard(JObj(f), v) == Accepts <==> !Mismatch(f, v) && TypeFits(f, v)
  {
    TypeVerdictMeans(f, v);
    hide TypeVerdict, TypeAnswers, TypeFits;
  }

  // ---------------------------------------------------------------- parts

  ghost predicate BodyAt(h: Host, root: Json, f: Keywords, v: Json, fuel: nat)
  {
    BodyVerdict(h, root, JObj(f), v, fuel) != Broken
  }

  lemma TextAnswers(h: Host, f: Keywords, text: string)
    ensures StringVerdict(h, JObj(f), text) != Broken <==> ("pattern" in f && f["pattern"].JStr? ==> h.compiles(f["pattern"].t))
  {
    hide Below, Above;
  }

  lemma ListAnswers(h: Host, root: Json, f: Keywords, items: seq<Json>)
    ensures (exists fuel: nat :: ArrayVerdict(h, root, JObj(f), items, fuel) != Broken) <==>
      ("items" in f ==> forall i :: 0 <= i < |items| ==> Judges(h, root, f["items"], items[i]))
  {
    hide Judges, Below, Above, Distinct, Validate;
    forall i | 0 <= i < |items| && "items" in f
      ensures Judges(h, root, f["items"], items[i]) <==> Judged(h, root, f["items"], items[i])
    {
      JudgesIsJudged(h, root, f["items"], items[i]);
    }
    if fuel: nat :| ArrayVerdict(h, root, JObj(f), items, fuel) != Broken {
      if "items" in f {
        forall i | 0 <= i < |items|
          ensures Judged(h, root, f["items"], items[i])
        {
          JudgedOnce(h, root, f["items"], items[i], fuel);
        }
      }
    }
    if "items" in f ==> forall i :: 0 <= i < |items| ==> Judges(h, root, f["items"], items[i]) {
      var fuel := 0;
      if "items" in f { fuel := ListDepth(h, root, f["items"], items); }
      assert ArrayVerdict(h, root, JObj(f), items, fuel) != Broken;
    }
  }

  lemma ListDepth(h: Host, root: Json, each: Json, items: seq<Json>) returns (fuel: nat)
    requires forall i :: 0 <= i < |items| ==> Judged(h, root, each, items[i])
    ensures forall i :: 0 <= i < |items| ==> Validate(h, root, each, items[i], fuel) != Broken
  {
    hide Judged, Validate;
    var pairs := set i | 0 <= i < |items| :: (each, items[i]);
    fuel := CommonDepth(h, root, pairs);
    forall i | 0 <= i < |items|
      ensures Validate(h, root, each, items[i], fuel) != Broken
    {
      assert (each, items[i]) in pairs;
    }
  }

  lemma FieldAnswersMeans(h: Host, root: Json, f: Keywords, k: string, x: Json)
    ensures FieldAnswers(h, root, f, k, x) <==> (SchemaFor(JObj(f), k).Some? ==> Judged(h, root, SchemaFor(JObj(f), k).value, x))
  {
    hide Judges, Judged;
    if SchemaFor(JObj(f), k).Some? { JudgesIsJudged(h, root, SchemaFor(JObj(f), k).value, x); }
  }

  lemma RecordAnswers(h: Host, root: Json, f: Keywords, fields: map<string, Json>)
    ensures (exists fuel: nat :: ObjectVerdict(h, root, JObj(f), fields, fuel) != Broken) <==>
      ("properties" in f ==> f["properties"].JObj?) && forall k :: k in fields ==> FieldAnswers(h, root, f, k, fields[k])
  {
    assert PropertiesReadable(JObj(f)) <==> ("properties" in f ==> f["properties"].JObj?);
    hide PropertiesReadable, FieldAnswers, ObjectVerdict, SchemaFor, Judged, Validate, FieldVerdict;
    forall k | k in fields
      ensures FieldAnswers(h, root, f, k, fields[k]) <==> (SchemaFor(JObj(f), k).Some? ==> Judged(h, root, SchemaFor(JObj(f), k).value, fields[k]))
    {
      FieldAnswersMeans(h, root, f, k, fields[k]);
    }
    if fuel: nat :| ObjectVerdict(h, root, JObj(f), fields, fuel) != Broken {
      RecordJudges(h, root, JObj(f), fields, fuel);
    }
    if PropertiesReadable(JObj(f)) && forall k :: k in fields ==> FieldAnswers(h, root, f, k, fields[k]) {
      var fuel := RecordDepth(h, root, JObj(f), fields);
    }
  }

  lemma RecordJudges(h: Host, root: Json, n: Json, fields: map<string, Json>, fuel: nat)
    requires ObjectVerdict(h, root, n, fields, fuel) != Broken
    ensures PropertiesReadable(n) && forall k :: k in fields && SchemaFor(n, k).Some? ==> Judged(h, root, SchemaFor(n, k).value, fields[k])
  {
    hide PropertiesReadable, SchemaFor, Judged, Validate, FieldVerdict, Required, Forbidden;
    forall k | k in fields && SchemaFor(n, k).Some?
      ensures Judged(h, root, SchemaFor(n, k).value, fields[k])
    {
      FieldVerdictIs(h, root, n, k, fields[k], fuel);
      NotForbidden(n, k);
      JudgedOnce(h, root, SchemaFor(n, k).value, fields[k], fuel);
    }
  }

  lemma NotForbidden(n: Json, k: string)
    ensures SchemaFor(n, k).Some? ==> !Forbidden(n, k)
  {
  }

  lemma RecordDepth(h: Host, root: Json, n: Json, fields: map<string, Json>) returns (fuel: nat)
    requires PropertiesReadable(n) && forall k :: k in fields && SchemaFor(n, k).Some? ==> Judged(h, root, SchemaFor(n, k).value, fields[k])
    ensures ObjectVerdict(h, root, n, fields, fuel) != Broken
  {
    hide PropertiesReadable, SchemaFor, Judged, Validate, FieldVerdict, ObjectVerdict;
    var pairs := set k | k in fields && SchemaFor(n, k).Some? :: (SchemaFor(n, k).value, fields[k]);
    fuel := CommonDepth(h, root, pairs);
    forall k | k in fields
      ensures FieldVerdict(h, root, n, k, fields[k], fuel) != Broken
    {
      FieldVerdictIs(h, root, n, k, fields[k], fuel);
      if SchemaFor(n, k).Some? { assert (SchemaFor(n, k).value, fields[k]) in pairs; }
    }
    FieldsAnswer(h, root, n, fields, fuel);
  }

  lemma BodyAnswers(h: Host, root: Json, f: Keywords, v: Json)
    ensures (exists fuel: nat :: BodyAt(h, root, f, v, fuel)) <==> PartsAnswer(h, root, f, v)
  {
    hide StringVerdict, ArrayVerdict, ObjectVerdict, Judges, FieldAnswers, Below, Above;
    match v
    case JStr(text) =>
      TextAnswers(h, f, text);
      assert BodyAt(h, root, f, v, 0) <==> StringVerdict(h, JObj(f), text) != Broken;
    case JArr(items) =>
      ListAnswers(h, root, f, items);
      if fuel: nat :| ArrayVerdict(h, root, JObj(f), items, fuel) != Broken { assert BodyAt(h, root, f, v, fuel); }
      if fuel: nat :| BodyAt(h, root, f, v, fuel) { assert ArrayVerdict(h, root, JObj(f), items, fuel) != Broken; }
    case JObj(fields) =>
      RecordAnswers(h, root, f, fields);
      if fuel: nat :| ObjectVerdict(h, root, JObj(f), fields, fuel) != Broken { assert BodyAt(h, root, f, v, fuel); }
      if fuel: nat :| BodyAt(h, root, f, v, fuel) { assert ObjectVerdict(h, root, JObj(f), fields, fuel) != Broken; }
    case _ => assert BodyAt(h, root, f, v, 0);
  }

  // ---------------------------------------------------------------- nodes

  lemma PlainUnfolds(h: Host, root: Json, n: Json, v: Json, fuel: nat)
    ensures PlainVerdict(h, root, n, v, fuel) == if Guard(n, v) != Accepts then Guard(n, v) else BodyVerdict(h, root, n, v, fuel)
  {
    hide Guard, StringVerdict, ArrayVerdict, ObjectVerdict;
  }

  /** A plain node says yes or no exactly when nothing throws before it can. */
  lemma PlainAnswers(h: Host, root: Json, f: Keywords, v: Json)
    requires !HasRef(f) && !HasChoice(f)
    ensures Judges(h, root, JObj(f), v) <==> Answers(h, root, f, v)
  {
    assert FormOf(JObj(f)) == Plain;
    JudgesIsJudged(h, root, JObj(f), v);
    GuardAnswersExactly(f, v);
    BodyAnswers(h, root, f, v);
    hide FormOf, Judges, Guard, PlainVerdict, BodyVerdict, Mismatch, TypeAnswers, TypeFits, PartsAnswer;
    if Judged(h, root, JObj(f), v) {
      var fuel := DepthOf(h, root, JObj(f), v);
      PlainUnfolds(h, root, JObj(f), v, fuel - 1);
      if Guard(JObj(f), v) == Accepts { assert BodyAt(h, root, f, v, fuel - 1); }
    }
    if Answers(h, root, f, v) {
      var fuel: nat := 0;
      if Guard(JObj(f), v) == Accepts { fuel :| BodyAt(h, root, f, v, fuel); }
      PlainUnfolds(h, root, JObj(f), v, fuel);
      assert Validate(h, root, JObj(f), v, fuel + 1) != Broken;
      JudgedOnce(h, root, JObj(f), v, fuel + 1);
    }
  }

  /** A plain node refuses exactly the values it answers on and that miss a keyword. */
  lemma PlainRefuses(h: Host, root: Json, f: Keywords, v: Json)
    requires !HasRef(f) && !HasChoice(f)
    ensures Refuses(h, root, JObj(f), v) <==> Answers(h, root, f, v) && !Meets(h, root, f, v)
  {
    hide Admits, Refuses, Answers, Meets;
    PlainAnswers(h, root, f, v);
    PlainMeans(h, root, f, v);
    NeverBoth(h, root, JObj(f), v);
  }

  /** A reference refuses what its definition refuses; one without a definition throws. */
  lemma ReferenceRefuses(h: Host, root: map<string, Json>, f: Keywords, v: Json)
    requires HasRef(f)
    ensures Refuses(h, JObj(root), JObj(f), v) <==>
      "$defs" in root && root["$defs"].JObj? &&
      exists name :: name in root["$defs"].fields && f["$ref"].t == "#/$defs/" + name && Refuses(h, JObj(root), root["$defs"].fields[name], v)
  {
    var reference := f["$ref"].t;
    assert FormOf(JObj(f)) == Reference(reference);
    ResolveMeans(root, reference);
    hide FormOf, Resolve;
    if Refuses(h, JObj(root), JObj(f), v) {
      var fuel: nat :| Validate(h, JObj(root), JObj(f), v, fuel) == Rejects;
      assert Validate(h, JObj(root), Resolve(JObj(root), reference).value, v, fuel - 1) == Rejects;
    }
    if Resolve(JObj(root), reference).Some? && Refuses(h, JObj(root), Resolve(JObj(root), reference).value, v) {
      var fuel: nat :| Validate(h, JObj(root), Resolve(JObj(root), reference).value, v, fuel) == Rejects;
      assert Validate(h, JObj(root), JObj(f), v, fuel + 1) == Rejects;
    }
  }

  /** `oneOf` answers exactly when every branch does. */
  lemma ChoiceAnswers(h: Host, root: Json, f: Keywords, v: Json)
    requires HasChoice(f)
    ensures Judges(h, root, JObj(f), v) <==> forall i :: 0 <= i < |f["oneOf"].items| ==> Judges(h, root, f["oneOf"].items[i], v)
  {
    var branches := f["oneOf"].items;
    assert FormOf(JObj(f)) == Choice(branches);
    JudgesIsJudged(h, root, JObj(f), v);
    forall i | 0 <= i < |branches|
      ensures Judges(h, root, branches[i], v) <==> Judged(h, root, branches[i], v)
    {
      JudgesIsJudged(h, root, branches[i], v);
    }
    hide FormOf, Judges, Judged;
    if Judged(h, root, JObj(f), v) {
      var fuel := DepthOf(h, root, JObj(f), v);
      BranchesJudge(h, root, branches, v, fuel - 1);
    }
    if forall i :: 0 <= i < |branches| ==> Judged(h, root, branches[i], v) {
      var fuel := ChoiceDepth(h, root, branches, v);
      assert Validate(h, root, JObj(f), v, fuel + 1) != Broken;
      JudgedOnce(h, root, JObj(f), v, fuel + 1);
    }
  }

  lemma BranchesJudge(h: Host, root: Json, branches: seq<Json>, v: Json, fuel: nat)
    requires OneOf(h, root, branches, v, fuel) != Broken
    ensures forall i :: 0 <= i < |branches| ==> Judged(h, root, branches[i], v)
  {
    hide Judged, Validate;
    forall i | 0 <= i < |branches|
      ensures Judged(h, root, branches[i], v)
    {
      JudgedOnce(h, root, branches[i], v, fuel);
    }
  }

  /** A node that is no object throws on every value. */
  lemma OnlyObjectsAnswer(h: Host, root: Json, n: Json, v: Json)
    requires !n.JObj?
    ensures !Judges(h, root, n, v)
  {
  }
}
