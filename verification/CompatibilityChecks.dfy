/** The soundness of the diff under conditions that are read off the two documents. What is left to
    the host is whether their patterns compile. */
module CompatibilityChecks {
  import opened Texts
  import opened Json
  import opened Schema
  import opened Compatibility
  import opened CompatibilityNeeds
  import opened SchemaTotal

  // ---------------------------------------------------------------- the plain nodes behind a node

  /** `p` is a plain node that `n` leads to through at most `d` references and choices. */
  ghost predicate IsLeaf(root: Json, n: Json, d: nat, p: Json)
    decreases d
  {
    match FormOf(n)
    case Reference(name) => d > 0 && Resolve(root, name).Some? && IsLeaf(root, Resolve(root, name).value, d - 1, p)
    case Choice(branches) => d > 0 && exists i :: 0 <= i < |branches| && IsLeaf(root, branches[i], d - 1, p)
    case Plain => p == n
  }

  lemma ReferenceAdmits(h: Host, root: Json, n: Json, v: Json)
    requires n.JObj? && FormOf(n).Reference? && Resolve(root, FormOf(n).name).Some? && Admits(h, root, n, v)
    ensures Admits(h, root, Resolve(root, FormOf(n).name).value, v)
  {
    hide FormOf, Resolve;
    var fuel: nat :| Validate(h, root, n, v, fuel) == Accepts;
    assert Validate(h, root, Resolve(root, FormOf(n).name).value, v, fuel - 1) == Accepts;
  }

  /** What a node admits, one of the plain nodes behind it admits. */
  lemma {:induction false} LeafAdmits(h: Host, root: Json, n: Json, d: nat, v: Json) returns (p: Json)
    requires Within(n, root) && Descends(root, n, d) && Admits(h, root, n, v)
    ensures IsLeaf(root, n, d, p) && p.JObj? && FormOf(p) == Plain && Within(p, root) && Admits(h, root, p, v)
    decreases d
  {
    hide Within, Admits;
    match FormOf(n)
    case Reference(name) =>
      ReferenceAdmits(h, root, n, v);
      TargetWithin(root, name);
      p := LeafAdmits(h, root, Resolve(root, name).value, d - 1, v);
    case Choice(branches) =>
      var i := OneBranch(h, root, n, branches, v);
      BranchWithin(n, i, root);
      p := LeafAdmits(h, root, branches[i], d - 1, v);
    case Plain => p := n;
  }

  lemma OneBranch(h: Host, root: Json, n: Json, branches: seq<Json>, v: Json) returns (i: nat)
    requires n.JObj? && FormOf(n) == Choice(branches) && Admits(h, root, n, v)
    ensures i < |branches| && Admits(h, root, branches[i], v)
  {
    hide FormOf, Admits, OnlyBranch;
    ChoiceAdmits(h, root, n, branches, v);
    i :| i < |branches| && OnlyBranch(h, root, branches, v, i);
    BranchFacts(h, root, branches, v, i);
  }

  lemma GuardAdmits(h: Host, root: Json, p: Json, v: Json)
    requires p.JObj? && FormOf(p) == Plain && Admits(h, root, p, v)
    ensures Guard(p, v) == Accepts
  {
    hide FormOf, Admits, Guard, BodyVerdict, PlainVerdict;
    PlainAdmits(h, root, p, v);
    var fuel: nat :| PlainAt(h, root, p, v, fuel);
    PlainAccepts(h, root, p, v, fuel);
  }

  // ---------------------------------------------------------------- told apart by type

  function TypesOf(n: Json): Option<seq<Json>>
  {
    match Field(n, "type")
    case Some(JStr(name)) => Some([JStr(name)])
    case Some(JArr(types)) => Some(types)
    case _ => None
  }

  /** The kind of value a type name stands for; integers are numbers. */
  function KindOf(name: string): string
  {
    if name == "integer" then "number" else name
  }

  function KindOfValue(v: Json): string
  {
    match v
    case JNull => "null"
    case JBool(_) => "boolean"
    case JNum(_) => "number"
    case JStr(_) => "string"
    case JArr(_) => "array"
    case JObj(_) => "object"
  }

  /** No value is of a type of both. */
  predicate TypesApart(p: Json, q: Json)
  {
    TypesOf(p).Some? && TypesOf(q).Some? &&
    forall s, t :: s in TypesOf(p).value && t in TypesOf(q).value && s.JStr? && t.JStr? ==> KindOf(s.t) != KindOf(t.t)
  }

  lemma MatchedKind(v: Json, name: string)
    ensures MatchesType(v, name) == Some(true) ==> KindOf(name) == KindOfValue(v)
  {
  }

  lemma {:induction false} SomeType(v: Json, types: seq<Json>, i: nat) returns (s: Json)
    requires i <= |types| && AnyType(v, types, i) == Accepts
    ensures s in types && s.JStr? && KindOf(s.t) == KindOfValue(v)
    decreases |types| - i
  {
    hide MatchesType, KindOf;
    MatchedKind(v, types[i].t);
    if MatchesType(v, types[i].t) == Some(true) { s := types[i]; } else { s := SomeType(v, types, i + 1); }
  }

  lemma TypeOfAccepted(n: Json, v: Json) returns (s: Json)
    requires Guard(n, v) == Accepts && TypesOf(n).Some?
    ensures s in TypesOf(n).value && s.JStr? && KindOf(s.t) == KindOfValue(v)
  {
    hide MatchesType, KindOf, AnyType, Field;
    match Field(n, "type")
    case Some(JStr(name)) =>
      MatchedKind(v, name);
      s := JStr(name);
    case Some(JArr(types)) => s := SomeType(v, types, 0);
  }

  lemma TypesRefuse(p: Json, q: Json, v: Json)
    requires TypesApart(p, q)
    ensures !(Guard(p, v) == Accepts && Guard(q, v) == Accepts)
  {
    hide Guard, TypesOf, KindOf, KindOfValue;
    if Guard(p, v) == Accepts && Guard(q, v) == Accepts {
      var s := TypeOfAccepted(p, v);
      var t := TypeOfAccepted(q, v);
    }
  }

  // ---------------------------------------------------------------- told apart by const or enum

  function ValuesOf(n: Json): Option<seq<Json>>
  {
    if Field(n, "const").Some? then Some([Field(n, "const").value])
    else
      match Field(n, "enum")
      case Some(JArr(items)) => Some(items)
      case _ => None
  }

  predicate ValuesApart(p: Json, q: Json)
  {
    ValuesOf(p).Some? && ValuesOf(q).Some? && forall x :: x in ValuesOf(p).value ==> x !in ValuesOf(q).value
  }

  lemma AcceptedIsListed(n: Json, v: Json)
    requires Guard(n, v) == Accepts && ValuesOf(n).Some?
    ensures v in ValuesOf(n).value
  {
    hide TypeVerdict;
  }

  /** Two plain nodes that accept no common value at all. */
  predicate GuardsApart(p: Json, q: Json)
  {
    TypesApart(p, q) || ValuesApart(p, q)
  }

  lemma GuardsRefuse(p: Json, q: Json, v: Json)
    requires GuardsApart(p, q)
    ensures !(Guard(p, v) == Accepts && Guard(q, v) == Accepts)
  {
    hide Guard, TypesApart, ValuesOf;
    if TypesApart(p, q) {
      TypesRefuse(p, q, v);
    } else if Guard(p, v) == Accepts && Guard(q, v) == Accepts {
      AcceptedIsListed(p, v);
      AcceptedIsListed(q, v);
    }
  }

  // ---------------------------------------------------------------- told apart by properties

  predicate OnlyObjects(n: Json)
  {
    TypesOf(n).Some? && forall s :: s in TypesOf(n).value && s.JStr? ==> s.t == "object"
  }

  lemma IsObject(n: Json, v: Json)
    requires OnlyObjects(n) && Guard(n, v) == Accepts
    ensures v.JObj?
  {
    hide Guard, TypesOf;
    var s := TypeOfAccepted(n, v);
  }

  /** The plain nodes behind `x` and `y` accept no common value. */
  ghost predicate NodesApart(root: Json, x: Json, y: Json, d: nat)
  {
    Descends(root, x, d) && Descends(root, y, d) &&
    forall s, t :: IsLeaf(root, x, d, s) && IsLeaf(root, y, d, t) ==> GuardsApart(s, t)
  }

  lemma NodesRefuse(h: Host, root: Json, x: Json, y: Json, d: nat, v: Json)
    requires NodesApart(root, x, y, d) && Within(x, root) && Within(y, root)
    ensures !(Admits(h, root, x, v) && Admits(h, root, y, v))
  {
    hide Within, Descends, IsLeaf, Admits, GuardsApart;
    if Admits(h, root, x, v) && Admits(h, root, y, v) {
      var s := LeafAdmits(h, root, x, d, v);
      var t := LeafAdmits(h, root, y, d, v);
      GuardAdmits(h, root, s, v);
      GuardAdmits(h, root, t, v);
      GuardsRefuse(s, t, v);
    }
  }

  /** A property that one of them requires holds different tags in the two. */
  ghost predicate TagApart(root: Json, p: Json, q: Json, d: nat, k: string)
  {
    k in Required(p) + Required(q) && k in Properties(p) && k in Properties(q) && NodesApart(root, Properties(p)[k], Properties(q)[k], d)
  }

  /** One requires a name that the other forbids. */
  predicate NameApart(p: Json, q: Json, k: string)
  {
    (k in Required(p) && Forbidden(q, k)) || (k in Required(q) && Forbidden(p, k))
  }

  ghost predicate LeavesApart(root: Json, p: Json, q: Json, d: nat)
  {
    GuardsApart(p, q) || ((OnlyObjects(p) || OnlyObjects(q)) && exists k :: TagApart(root, p, q, d, k) || NameApart(p, q, k))
  }

  lemma TagRefuses(h: Host, root: Json, p: Json, q: Json, d: nat, k: string, fields: map<string, Json>)
    requires p.JObj? && q.JObj? && FormOf(p) == FormOf(q) == Plain && Within(p, root) && Within(q, root) && TagApart(root, p, q, d, k)
    ensures !(Admits(h, root, p, JObj(fields)) && Admits(h, root, q, JObj(fields)))
  {
    hide Within, NodesApart, Admits, Guard, Required, FormOf, PropertiesReadable;
    if Admits(h, root, p, JObj(fields)) && Admits(h, root, q, JObj(fields)) {
      ObjectAdmits(h, root, p, fields);
      ObjectAdmits(h, root, q, fields);
      assert FieldAdmits(h, root, p, k, fields[k]) && FieldAdmits(h, root, q, k, fields[k]);
      PropertyWithin(p, k, root);
      PropertyWithin(q, k, root);
      NodesRefuse(h, root, Properties(p)[k], Properties(q)[k], d, fields[k]);
    }
  }

  lemma NameRefuses(h: Host, root: Json, p: Json, q: Json, k: string, fields: map<string, Json>)
    requires p.JObj? && q.JObj? && FormOf(p) == FormOf(q) == Plain && NameApart(p, q, k)
    ensures !(Admits(h, root, p, JObj(fields)) && Admits(h, root, q, JObj(fields)))
  {
    hide Admits, Guard, Required, FormOf, PropertiesReadable, Forbidden;
    ObjectAdmits(h, root, p, fields);
    ObjectAdmits(h, root, q, fields);
    assert k in fields ==> (FieldAdmits(h, root, p, k, fields[k]) ==> !Forbidden(p, k)) && (FieldAdmits(h, root, q, k, fields[k]) ==> !Forbidden(q, k));
  }

  lemma LeavesRefuse(h: Host, root: Json, p: Json, q: Json, d: nat, v: Json)
    requires p.JObj? && q.JObj? && FormOf(p) == FormOf(q) == Plain && Within(p, root) && Within(q, root) && LeavesApart(root, p, q, d)
    ensures !(Admits(h, root, p, v) && Admits(h, root, q, v))
  {
    hide Within, Admits, FormOf, GuardsApart, TagApart, NameApart, OnlyObjects, Guard;
    if Admits(h, root, p, v) && Admits(h, root, q, v) {
      GuardAdmits(h, root, p, v);
      GuardAdmits(h, root, q, v);
      if GuardsApart(p, q) {
        GuardsRefuse(p, q, v);
      } else {
        if OnlyObjects(p) { IsObject(p, v); } else { IsObject(q, v); }
        var k :| TagApart(root, p, q, d, k) || NameApart(p, q, k);
        if TagApart(root, p, q, d, k) { TagRefuses(h, root, p, q, d, k, v.fields); } else { NameRefuses(h, root, p, q, k, v.fields); }
      }
    }
  }

  // ---------------------------------------------------------------- branches

  /** The branches `x` and `y` have no value in common. */
  ghost predicate BranchesApart(root: Json, x: Json, y: Json, d: nat)
  {
    Descends(root, x, d) && Descends(root, y, d) &&
    forall p, q :: IsLeaf(root, x, d, p) && IsLeaf(root, y, d, q) ==> LeavesApart(root, p, q, d)
  }

  lemma ApartRefuses(h: Host, root: Json, x: Json, y: Json, d: nat, v: Json)
    requires WellFormed(h, root) && Within(x, root) && Within(y, root) && BranchesApart(root, x, y, d) && Admits(h, root, x, v)
    ensures Refuses(h, root, y, v)
  {
    hide WellFormed, Within, Admits, Refuses, Descends, IsLeaf, LeavesApart;
    AdmitsXorRefuses(h, root, y, v);
    if Admits(h, root, y, v) {
      var p := LeafAdmits(h, root, x, d, v);
      var q := LeafAdmits(h, root, y, d, v);
      LeavesRefuse(h, root, p, q, d, v);
    }
  }

  // ---------------------------------------------------------------- unchanged parts

  /** The reference means the same in both documents, and leads into `names`. */
  predicate RefKept(rb: Json, rc: Json, names: set<string>, reference: string)
  {
    Resolve(rb, reference) == Resolve(rc, reference) && (Resolve(rc, reference).Some? ==> reference[|"#/$defs/"|..] in names)
  }

  /** Every reference inside `n` does. */
  ghost predicate RefsKept(rb: Json, rc: Json, names: set<string>, n: Json)
  {
    forall x :: Part(x, n) && FormOf(x).Reference? ==> RefKept(rb, rc, names, FormOf(x).name)
  }

  /** The definitions `names` refer only to each other, and are the same in both documents. */
  ghost predicate NamesKept(rb: Json, rc: Json, names: set<string>)
  {
    forall name :: name in names ==> name in Defs(rc) && RefsKept(rb, rc, names, Defs(rc)[name])
  }

  /** Nothing that `n` leads to has changed. */
  ghost predicate Unchanged(rb: Json, rc: Json, n: Json)
  {
    exists names :: NamesKept(rb, rc, names) && RefsKept(rb, rc, names, n)
  }

  lemma PartRefs(rb: Json, rc: Json, names: set<string>, n: Json, x: Json)
    requires RefsKept(rb, rc, names, n) && Part(x, n)
    ensures RefsKept(rb, rc, names, x)
  {
    hide Part, RefKept, FormOf;
    forall y | Part(y, x) && FormOf(y).Reference?
      ensures RefKept(rb, rc, names, FormOf(y).name)
    {
      PartTransitive(y, x, n);
    }
  }

  lemma OneOfCongruent(h: Host, rb: Json, rc: Json, branches: seq<Json>, v: Json, fuel: nat)
    requires forall i :: 0 <= i < |branches| ==> Validate(h, rb, branches[i], v, fuel) == Validate(h, rc, branches[i], v, fuel)
    ensures OneOf(h, rb, branches, v, fuel) == OneOf(h, rc, branches, v, fuel)
  {
    hide Validate, OnlyMatch;
    forall i: nat | i < |branches|
      ensures OnlyMatch(h, rb, branches, v, fuel, i) == OnlyMatch(h, rc, branches, v, fuel, i)
    {
      OnlyMatchCongruent(h, rb, rc, branches, v, fuel, i);
    }
  }

  lemma OnlyMatchCongruent(h: Host, rb: Json, rc: Json, branches: seq<Json>, v: Json, fuel: nat, i: nat)
    requires forall i :: 0 <= i < |branches| ==> Validate(h, rb, branches[i], v, fuel) == Validate(h, rc, branches[i], v, fuel)
    requires i < |branches|
    ensures OnlyMatch(h, rb, branches, v, fuel, i) == OnlyMatch(h, rc, branches, v, fuel, i)
  {
    hide Validate;
  }

  /** Some item is judged `x`. */
  ghost predicate SomeItem(h: Host, root: Json, each: Json, items: seq<Json>, fuel: nat, x: Verdict)
  {
    exists i :: 0 <= i < |items| && Validate(h, root, each, items[i], fuel) == x
  }

  lemma ItemsCongruent(h: Host, rb: Json, rc: Json, each: Json, items: seq<Json>, fuel: nat, x: Verdict)
    requires forall i :: 0 <= i < |items| ==> Validate(h, rb, each, items[i], fuel) == Validate(h, rc, each, items[i], fuel)
    ensures SomeItem(h, rb, each, items, fuel, x) <==> SomeItem(h, rc, each, items, fuel, x)
  {
    hide Validate;
    if SomeItem(h, rb, each, items, fuel, x) {
      var i :| 0 <= i < |items| && Validate(h, rb, each, items[i], fuel) == x;
      assert Validate(h, rc, each, items[i], fuel) == x;
    }
    if SomeItem(h, rc, each, items, fuel, x) {
      var i :| 0 <= i < |items| && Validate(h, rc, each, items[i], fuel) == x;
      assert Validate(h, rb, each, items[i], fuel) == x;
    }
  }

  lemma ArrayParts(h: Host, root: Json, n: Json, items: seq<Json>, fuel: nat)
    ensures var each := Field(n, "items");
      ArrayVerdict(h, root, n, items, fuel) ==
      Judge(each.Some? && SomeItem(h, root, each.value, items, fuel, Broken),
            !SizeOk(n, items) || (each.Some? && SomeItem(h, root, each.value, items, fuel, Rejects)))
  {
    hide Validate, Field, Below, Above, Distinct;
  }

  lemma ArrayCongruent(h: Host, rb: Json, rc: Json, n: Json, items: seq<Json>, fuel: nat)
    requires Field(n, "items").Some? ==>
      forall i :: 0 <= i < |items| ==> Validate(h, rb, Field(n, "items").value, items[i], fuel) == Validate(h, rc, Field(n, "items").value, items[i], fuel)
    ensures ArrayVerdict(h, rb, n, items, fuel) == ArrayVerdict(h, rc, n, items, fuel)
  {
    hide Validate, Field, SizeOk, ArrayVerdict, SomeItem;
    ArrayParts(h, rb, n, items, fuel);
    ArrayParts(h, rc, n, items, fuel);
    if Field(n, "items").Some? {
      ItemsCongruent(h, rb, rc, Field(n, "items").value, items, fuel, Broken);
      ItemsCongruent(h, rb, rc, Field(n, "items").value, items, fuel, Rejects);
    }
  }

  /** Some field is judged `x`. */
  ghost predicate SomeField(h: Host, root: Json, n: Json, fields: map<string, Json>, fuel: nat, x: Verdict)
  {
    exists k :: k in fields && FieldVerdict(h, root, n, k, fields[k], fuel) == x
  }

  lemma FieldsCongruent(h: Host, rb: Json, rc: Json, n: Json, fields: map<string, Json>, fuel: nat, x: Verdict)
    requires forall k :: k in fields ==> FieldVerdict(h, rb, n, k, fields[k], fuel) == FieldVerdict(h, rc, n, k, fields[k], fuel)
    ensures SomeField(h, rb, n, fields, fuel, x) <==> SomeField(h, rc, n, fields, fuel, x)
  {
    hide FieldVerdict;
    if SomeField(h, rb, n, fields, fuel, x) {
      var k :| k in fields && FieldVerdict(h, rb, n, k, fields[k], fuel) == x;
      assert FieldVerdict(h, rc, n, k, fields[k], fuel) == x;
    }
    if SomeField(h, rc, n, fields, fuel, x) {
      var k :| k in fields && FieldVerdict(h, rc, n, k, fields[k], fuel) == x;
      assert FieldVerdict(h, rb, n, k, fields[k], fuel) == x;
    }
  }

  lemma ObjectParts(h: Host, root: Json, n: Json, fields: map<string, Json>, fuel: nat)
    ensures ObjectVerdict(h, root, n, fields, fuel) ==
      if !PropertiesReadable(n) then Broken
      else Judge(SomeField(h, root, n, fields, fuel, Broken), !(Required(n) <= fields.Keys) || SomeField(h, root, n, fields, fuel, Rejects))
  {
    hide FieldVerdict, PropertiesReadable, Required;
  }

  lemma ObjectCongruent(h: Host, rb: Json, rc: Json, n: Json, fields: map<string, Json>, fuel: nat)
    requires forall k :: k in fields ==> FieldVerdict(h, rb, n, k, fields[k], fuel) == FieldVerdict(h, rc, n, k, fields[k], fuel)
    ensures ObjectVerdict(h, rb, n, fields, fuel) == ObjectVerdict(h, rc, n, fields, fuel)
  {
    hide FieldVerdict, PropertiesReadable, Required, ObjectVerdict, SomeField;
    ObjectParts(h, rb, n, fields, fuel);
    ObjectParts(h, rc, n, fields, fuel);
    FieldsCongruent(h, rb, rc, n, fields, fuel, Broken);
    FieldsCongruent(h, rb, rc, n, fields, fuel, Rejects);
  }

  /** A node none of whose references changed judges every value as before. */
  lemma {:induction false} SameVerdict(h: Host, rb: Json, rc: Json, names: set<string>, n: Json, v: Json, fuel: nat)
    requires NamesKept(rb, rc, names) && RefsKept(rb, rc, names, n)
    ensures Validate(h, rb, n, v, fuel) == Validate(h, rc, n, v, fuel)
    decreases fuel, 3
  {
    hide NamesKept, RefsKept, OneOf, PlainVerdict, FormOf, Resolve;
    if fuel > 0 && n.JObj? {
      match FormOf(n)
      case Reference(name) =>
        ReferenceKept(rb, rc, names, n, name);
        if Resolve(rc, name).Some? { SameVerdict(h, rb, rc, names, Resolve(rc, name).value, v, fuel - 1); }
      case Choice(branches) => SameChoice(h, rb, rc, names, n, branches, v, fuel - 1);
      case Plain => SamePlain(h, rb, rc, names, n, v, fuel - 1);
    }
  }

  lemma SameChoice(h: Host, rb: Json, rc: Json, names: set<string>, n: Json, branches: seq<Json>, v: Json, fuel: nat)
    requires NamesKept(rb, rc, names) && RefsKept(rb, rc, names, n) && FormOf(n) == Choice(branches)
    ensures OneOf(h, rb, branches, v, fuel) == OneOf(h, rc, branches, v, fuel)
    decreases fuel, 4
  {
    hide NamesKept, RefsKept, OneOf, Validate, FormOf;
    forall i | 0 <= i < |branches|
      ensures Validate(h, rb, branches[i], v, fuel) == Validate(h, rc, branches[i], v, fuel)
    {
      BranchKept(rb, rc, names, n, i);
      SameVerdict(h, rb, rc, names, branches[i], v, fuel);
    }
    OneOfCongruent(h, rb, rc, branches, v, fuel);
  }

  lemma ReferenceKept(rb: Json, rc: Json, names: set<string>, n: Json, name: string)
    requires NamesKept(rb, rc, names) && RefsKept(rb, rc, names, n) && FormOf(n) == Reference(name)
    ensures Resolve(rb, name) == Resolve(rc, name) && (Resolve(rc, name).Some? ==> RefsKept(rb, rc, names, Resolve(rc, name).value))
  {
    assert Part(n, n);
    assert RefKept(rb, rc, names, name);
    hide Part, RefsKept;
  }

  lemma BranchKept(rb: Json, rc: Json, names: set<string>, n: Json, i: nat)
    requires RefsKept(rb, rc, names, n) && FormOf(n).Choice? && i < |FormOf(n).branches|
    ensures RefsKept(rb, rc, names, FormOf(n).branches[i])
  {
    var list := n.fields["oneOf"].items;
    assert Part(list[i], list[i]);
    assert Part(list[i], n);
    hide RefsKept;
    PartRefs(rb, rc, names, n, list[i]);
  }

  lemma ItemsKept(rb: Json, rc: Json, names: set<string>, n: Json)
    requires RefsKept(rb, rc, names, n) && FormOf(n) == Plain && Field(n, "items").Some?
    ensures RefsKept(rb, rc, names, Field(n, "items").value)
  {
    assert Part(n.fields["items"], n.fields["items"]);
    assert Part(n.fields["items"], n);
    hide RefsKept;
    PartRefs(rb, rc, names, n, n.fields["items"]);
  }

  lemma FieldKept(rb: Json, rc: Json, names: set<string>, n: Json, k: string)
    requires RefsKept(rb, rc, names, n) && FormOf(n) == Plain && SchemaFor(n, k).Some?
    ensures RefsKept(rb, rc, names, SchemaFor(n, k).value)
  {
    var p := if k in Properties(n) then n.fields["properties"].fields[k] else n.fields["additionalProperties"];
    assert Part(p, p);
    assert Part(p, n);
    hide RefsKept;
    PartRefs(rb, rc, names, n, p);
  }

  lemma SamePlain(h: Host, rb: Json, rc: Json, names: set<string>, n: Json, v: Json, fuel: nat)
    requires NamesKept(rb, rc, names) && RefsKept(rb, rc, names, n) && n.JObj? && FormOf(n) == Plain
    ensures PlainVerdict(h, rb, n, v, fuel) == PlainVerdict(h, rc, n, v, fuel)
    decreases fuel, 5
  {
    hide NamesKept, RefsKept, Guard, StringVerdict, ArrayVerdict, ObjectVerdict, FormOf;
    if v.JArr? { SameArray(h, rb, rc, names, n, v.items, fuel); }
    if v.JObj? { SameObject(h, rb, rc, names, n, v.fields, fuel); }
  }

  lemma SameArray(h: Host, rb: Json, rc: Json, names: set<string>, n: Json, items: seq<Json>, fuel: nat)
    requires NamesKept(rb, rc, names) && RefsKept(rb, rc, names, n) && FormOf(n) == Plain
    ensures ArrayVerdict(h, rb, n, items, fuel) == ArrayVerdict(h, rc, n, items, fuel)
    decreases fuel, 4
  {
    hide NamesKept, RefsKept, Validate, ArrayVerdict, FormOf;
    if Field(n, "items").Some? {
      ItemsKept(rb, rc, names, n);
      forall i | 0 <= i < |items|
        ensures Validate(h, rb, Field(n, "items").value, items[i], fuel) == Validate(h, rc, Field(n, "items").value, items[i], fuel)
      {
        SameVerdict(h, rb, rc, names, Field(n, "items").value, items[i], fuel);
      }
    }
    ArrayCongruent(h, rb, rc, n, items, fuel);
  }

  lemma SameObject(h: Host, rb: Json, rc: Json, names: set<string>, n: Json, fields: map<string, Json>, fuel: nat)
    requires NamesKept(rb, rc, names) && RefsKept(rb, rc, names, n) && FormOf(n) == Plain
    ensures ObjectVerdict(h, rb, n, fields, fuel) == ObjectVerdict(h, rc, n, fields, fuel)
    decreases fuel, 4
  {
    hide NamesKept, RefsKept, Validate, ObjectVerdict, FieldVerdict, FormOf, SchemaFor, Forbidden;
    forall k | k in fields
      ensures FieldVerdict(h, rb, n, k, fields[k], fuel) == FieldVerdict(h, rc, n, k, fields[k], fuel)
    {
      FieldVerdictIs(h, rb, n, k, fields[k], fuel);
      FieldVerdictIs(h, rc, n, k, fields[k], fuel);
      if SchemaFor(n, k).Some? {
        FieldKept(rb, rc, names, n, k);
        SameVerdict(h, rb, rc, names, SchemaFor(n, k).value, fields[k], fuel);
      }
    }
    ObjectCongruent(h, rb, rc, n, fields, fuel);
  }

  lemma UnchangedRefuses(h: Host, rb: Json, rc: Json, n: Json, v: Json)
    requires Unchanged(rb, rc, n) && Refuses(h, rb, n, v)
    ensures Refuses(h, rc, n, v)
  {
    hide NamesKept, RefsKept, Validate;
    var names :| NamesKept(rb, rc, names) && RefsKept(rb, rc, names, n);
    var fuel: nat :| Validate(h, rb, n, v, fuel) == Rejects;
    SameVerdict(h, rb, rc, names, n, v, fuel);
  }

  // ---------------------------------------------------------------- the checked theorem

  /** Each branch is unchanged, or has no value in common with the others: by type, by `const` or
      `enum`, by a required tag, or by a name that one requires and the other forbids. */
  ghost predicate BranchesChecked(rb: Json, rc: Json, branches: seq<Json>)
  {
    forall i, j :: 0 <= i < |branches| && 0 <= j < |branches| && i != j ==>
      Unchanged(rb, rc, branches[j]) || exists d: nat :: BranchesApart(rc, branches[i], branches[j], d)
  }

  ghost predicate ChoicesChecked(rb: Json, rc: Json)
  {
    forall n :: Within(n, rc) && FormOf(n).Choice? ==> BranchesChecked(rb, rc, FormOf(n).branches)
  }

  lemma CheckedExclude(h: Host, rb: Json, rc: Json, n: Json)
    requires WellFormed(h, rc) && Within(n, rc) && FormOf(n).Choice? && BranchesChecked(rb, rc, FormOf(n).branches)
    ensures BranchesExclude(h, rb, rc, FormOf(n).branches)
  {
    hide WellFormed, Within, FormOf, Admits, Refuses, Unchanged, BranchesApart;
    var branches := FormOf(n).branches;
    forall v, i: nat, j: nat | i < |branches| && j < |branches| && i != j && OnlyBranch(h, rb, branches, v, i) && Admits(h, rc, branches[i], v)
      ensures Refuses(h, rc, branches[j], v)
    {
      if Unchanged(rb, rc, branches[j]) {
        UnchangedRefuses(h, rb, rc, branches[j], v);
      } else {
        var d: nat :| BranchesApart(rc, branches[i], branches[j], d);
        BranchWithin(n, i, rc);
        BranchWithin(n, j, rc);
        ApartRefuses(h, rc, branches[i], branches[j], d, v);
      }
    }
  }

  /** All that the documents have to show. */
  ghost predicate Checked(h: Host, rb: Json, rc: Json)
  {
    DiffCompatible(rb, rc) && WellFormed(h, rc) && ChoicesChecked(rb, rc) &&
    forall name :: name in Defs(rb) && name in Defs(rc) ==> Careful(Defs(rb)[name], Defs(rc)[name])
  }

  lemma CheckedIsAccepted(h: Host, rb: Json, rc: Json)
    requires Checked(h, rb, rc)
    ensures Accepted(h, rb, rc)
  {
    hide WellFormed, Within, DiffCompatible, Careful, BranchesChecked, BranchesExclude, FormOf;
    forall n | Within(n, rc) && FormOf(n).Choice?
      ensures BranchesExclude(h, rb, rc, FormOf(n).branches)
    {
      CheckedExclude(h, rb, rc, n);
    }
  }

  /** If the diff finds nothing breaking and the documents pass these checks, every value that the
      baseline's definition admits is admitted by the candidate's, and what the candidate does not
      admit it refuses. */
  lemma CheckedMeansSound(h: Host, rb: Json, rc: Json, name: string, v: Json)
    requires Checked(h, rb, rc) && name in Defs(rb)
    ensures name in Defs(rc)
    ensures Admits(h, rb, Defs(rb)[name], v) ==> Admits(h, rc, Defs(rc)[name], v)
    ensures Refuses(h, rc, Defs(rc)[name], v) <==> !Admits(h, rc, Defs(rc)[name], v)
  {
    hide Admits, Refuses, WellFormed, Within, ChoicesChecked, Accepted, CompareOk, Careful;
    CheckedIsAccepted(h, rb, rc);
    DefinitionWithin(name, rc);
    AdmitsXorRefuses(h, rc, Defs(rc)[name], v);
    if Admits(h, rb, Defs(rb)[name], v) { CompatibleMeansSound(h, rb, rc, name, v); }
  }
}
