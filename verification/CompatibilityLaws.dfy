/** Compatibility as a relation between documents, and three documents that show why each
    condition of `Compatibility.CompatibleMeansSound` is there. */
module CompatibilityLaws {
  import opened Texts
  import opened Json
  import opened Schema
  import opened Compatibility

  // ---------------------------------------------------------------- reflexive and transitive

  /** The diff can read the node at all. */
  ghost predicate Readable(n: Json)
    decreases n
  {
    n.JObj? && Constraints(n) && PropertiesReadable(n) &&
    ("properties" in n.fields ==>
       RequiredReadable(n) && forall k :: k in n.fields["properties"].fields ==> Readable(n.fields["properties"].fields[k])) &&
    ("items" in n.fields ==> Readable(n.fields["items"]))
  }

  /** A schema is compatible with itself exactly when the diff can read it. */
  lemma {:induction false} Reflexive(n: Json)
    ensures CompareOk(n, n) <==> Readable(n)
    decreases n
  {
    if n.JObj? {
      if "properties" in n.fields && n.fields["properties"].JObj? {
        forall k | k in n.fields["properties"].fields
          ensures CompareOk(n.fields["properties"].fields[k], n.fields["properties"].fields[k]) <==> Readable(n.fields["properties"].fields[k])
        {
          Reflexive(n.fields["properties"].fields[k]);
        }
      }
      if "items" in n.fields { Reflexive(n.fields["items"]); }
      SelfKeywords(n);
      hide KeywordsOk, Constraints, RequiredReadable;
    }
  }

  lemma SelfKeywords(n: Json)
    ensures KeywordsOk(n, n)
  {
  }

  /** Where `a` or `c` declares properties, the `required` lists of both can be read. */
  ghost predicate RequiredKnown(a: Json, c: Json)
    decreases a
  {
    (Field(a, "properties").Some? || Field(c, "properties").Some? ==> RequiredReadable(a) && RequiredReadable(c)) &&
    (a.JObj? && "properties" in a.fields && a.fields["properties"].JObj? ==>
       forall k :: k in a.fields["properties"].fields && k in Properties(c) ==>
         RequiredKnown(a.fields["properties"].fields[k], Properties(c)[k])) &&
    (a.JObj? && "items" in a.fields && Field(c, "items").Some? ==> RequiredKnown(a.fields["items"], c.fields["items"]))
  }

  lemma KeywordsTransitive(a: Json, b: Json, c: Json)
    requires KeywordsOk(a, b) && KeywordsOk(b, c)
    ensures KeywordsOk(a, c)
  {
  }

  lemma NamesTransitive(a: Json, b: Json, c: Json)
    requires NamesOk(a, b) && NamesOk(b, c)
    ensures NamesOk(a, c) <==> (Field(a, "properties").Some? || Field(c, "properties").Some? ==> RequiredReadable(a) && RequiredReadable(c))
  {
    hide RequiredReadable, PropertiesReadable;
  }

  lemma NamesKept(a: Json, b: Json, c: Json)
    requires NamesOk(a, b) && NamesOk(b, c)
    ensures PropertiesReadable(a) && PropertiesReadable(b)
    ensures forall k :: k in Properties(a) ==> k in Properties(b) && k in Properties(c)
  {
  }

  /** Two compatible changes in a row are one compatible change, exactly when the diff can read the
      `required` lists it now has to look at. */
  lemma {:induction false} Transitive(a: Json, b: Json, c: Json)
    requires CompareOk(a, b) && CompareOk(b, c)
    ensures CompareOk(a, c) <==> RequiredKnown(a, c)
    decreases a
  {
    hide KeywordsOk, Constraints, RequiredReadable, NamesOk;
    KeywordsTransitive(a, b, c);
    NamesTransitive(a, b, c);
    NamesKept(a, b, c);
    forall k | k in Properties(a)
      ensures CompareOk(a.fields["properties"].fields[k], Properties(c)[k]) <==> RequiredKnown(a.fields["properties"].fields[k], Properties(c)[k])
    {
      assert k in Properties(b) && b.fields["properties"].fields[k] == Properties(b)[k];
      Transitive(a.fields["properties"].fields[k], Properties(b)[k], Properties(c)[k]);
    }
    if Field(a, "items").Some? { Transitive(a.fields["items"], b.fields["items"], c.fields["items"]); }
  }

  const OddRequired := JObj(map["required" := JArr([JNum(1.0)])])
  const Nothing := JObj(map[])
  const NoProperties := JObj(map["properties" := JObj(map[])])

  /** Two compatible changes that are not one: the second step makes the diff read a `required` list
      that the first had no reason to look at. */
  lemma TransitiveCanFail()
    ensures CompareOk(OddRequired, Nothing) && CompareOk(Nothing, NoProperties) && !CompareOk(OddRequired, NoProperties)
  {
    OddFacts();
    NothingFacts();
    hide Constraints, KeywordsOk, NamesOk, Properties;
  }

  lemma OddFacts()
    ensures Constraints(OddRequired) && KeywordsOk(OddRequired, Nothing) && NamesOk(OddRequired, Nothing) && !NamesOk(OddRequired, NoProperties)
    ensures Properties(OddRequired) == map[]
  {
    assert Properties(OddRequired) == map[] && Properties(Nothing) == map[] && Required(Nothing) == {};
    assert !RequiredReadable(OddRequired) by { assert !OddRequired.fields["required"].items[0].JStr?; }
    hide RequiredReadable, Required;
  }

  lemma NothingFacts()
    ensures Constraints(Nothing) && Constraints(NoProperties) && KeywordsOk(Nothing, NoProperties) && NamesOk(Nothing, NoProperties)
    ensures Properties(Nothing) == map[]
  {
    assert Properties(Nothing) == map[] && Properties(NoProperties) == map[] && Required(Nothing) == {} && Required(NoProperties) == {};
    assert RequiredReadable(Nothing) && RequiredReadable(NoProperties);
    hide RequiredReadable, Required, Properties;
  }

  // ---------------------------------------------------------------- why the conditions are needed

  function Doc(defs: map<string, Json>): Json
  {
    JObj(map["$defs" := JObj(defs)])
  }

  const Anything := JObj(map[])
  const TextOnly := JObj(map["type" := JStr("string")])
  const TypedX := JObj(map["properties" := JObj(map["x" := TextOnly])])
  const NeedsX := JObj(map["required" := JArr([JStr("x")])])

  lemma AnythingAccepts(h: Host, root: Json, v: Json)
    requires v.JObj?
    ensures Validate(h, root, Anything, v, 1) == Accepts
  {
    assert FormOf(Anything) == Plain;
    assert Guard(Anything, v) == Accepts;
    assert forall k :: k in v.fields ==> FieldVerdict(h, root, Anything, k, v.fields[k], 0) == Accepts;
    ObjectAccepts(h, root, Anything, v.fields, 0);
  }

  lemma DocFacts(defs: map<string, Json>)
    ensures Defs(Doc(defs)) == defs && HasDefs(Doc(defs))
    ensures forall other :: Same(Doc(defs), Doc(other), "$id")
  {
  }

  /** A node that says nothing can be changed into `n` as far as the diff is concerned. */
  predicate Quiet(n: Json)
  {
    n.JObj? && (forall k :: k in n.fields ==> k == "properties" || k == "required") && RequiredReadable(n) && PropertiesReadable(n) &&
    forall k :: k in Required(n) ==> k !in Properties(n)
  }

  lemma QuietKeywords(n: Json)
    requires Quiet(n)
    ensures Constraints(n) && KeywordsOk(Anything, n)
  {
    hide RequiredReadable, PropertiesReadable, Required, Properties;
  }

  lemma QuietNames(n: Json)
    requires Quiet(n)
    ensures NamesOk(Anything, n) && Properties(Anything) == map[]
  {
    assert Properties(Anything) == map[] && Required(Anything) == {};
    assert PropertiesReadable(Anything) && RequiredReadable(Anything);
    hide RequiredReadable, PropertiesReadable, Required, Properties;
  }

  lemma QuietIsCompatible(n: Json)
    requires Quiet(n)
    ensures CompareOk(Anything, n)
  {
    QuietKeywords(n);
    QuietNames(n);
    assert Constraints(Anything) && Field(n, "items").None? && Field(Anything, "items").None?;
    hide Constraints, KeywordsOk, NamesOk, Quiet, Properties;
  }

  lemma TextOnlyRejects(h: Host, root: Json)
    ensures Validate(h, root, TextOnly, JNull, 1) == Rejects
  {
    assert FormOf(TextOnly) == Plain;
    assert Guard(TextOnly, JNull) == Rejects;
  }

  lemma TypedXRejects(h: Host, root: Json)
    ensures Validate(h, root, TypedX, JObj(map["x" := JNull]), 2) == Rejects
  {
    var fields := map["x" := JNull];
    TextOnlyRejects(h, root);
    assert FormOf(TypedX) == Plain && Guard(TypedX, JObj(fields)) == Accepts;
    assert Properties(TypedX) == map["x" := TextOnly];
    assert FieldVerdict(h, root, TypedX, "x", JNull, 1) == Rejects;
    assert PropertiesReadable(TypedX);
    hide FieldVerdict, Required, PropertiesReadable, Guard, FormOf;
    assert "x" in fields && fields["x"] == JNull && forall k :: k in fields ==> k == "x";
    assert exists k :: k in fields && FieldVerdict(h, root, TypedX, k, fields[k], 1) == Rejects;
    assert forall k :: k in fields ==> FieldVerdict(h, root, TypedX, k, fields[k], 1) != Broken;
    assert ObjectVerdict(h, root, TypedX, fields, 1) == Rejects;
  }

  /** Open object: a new optional property narrows what an unknown field may hold. */
  lemma OpenObjectBreaks(h: Host)
    ensures var rb, rc, v := Doc(map["T" := Anything]), Doc(map["T" := TypedX]), JObj(map["x" := JNull]);
      DiffCompatible(rb, rc) && Admits(h, rb, Anything, v) && Refuses(h, rc, TypedX, v)
  {
    hide Validate, CompareOk, HasDefs, Defs, Same, Doc;
    DocFacts(map["T" := Anything]);
    DocFacts(map["T" := TypedX]);
    assert Quiet(TypedX);
    QuietIsCompatible(TypedX);
    AnythingAccepts(h, Doc(map["T" := Anything]), JObj(map["x" := JNull]));
    TypedXRejects(h, Doc(map["T" := TypedX]));
  }

  lemma NeedsXRejects(h: Host, root: Json)
    ensures Validate(h, root, NeedsX, JObj(map[]), 1) == Rejects
  {
    var fields: map<string, Json> := map[];
    assert FormOf(NeedsX) == Plain && Guard(NeedsX, JObj(fields)) == Accepts;
    assert "x" in Required(NeedsX) by { assert NeedsX.fields["required"].items[0] == JStr("x"); }
    assert PropertiesReadable(NeedsX);
    hide FieldVerdict, Required, PropertiesReadable, Guard, FormOf;
    assert ObjectVerdict(h, root, NeedsX, fields, 0) == Rejects;
  }

  /** Undeclared required name: the diff never looks at it. */
  lemma UndeclaredRequiredBreaks(h: Host)
    ensures var rb, rc, v := Doc(map["T" := Anything]), Doc(map["T" := NeedsX]), JObj(map[]);
      DiffCompatible(rb, rc) && Admits(h, rb, Anything, v) && Refuses(h, rc, NeedsX, v)
  {
    hide Validate, CompareOk, HasDefs, Defs, Same, Doc;
    DocFacts(map["T" := Anything]);
    DocFacts(map["T" := NeedsX]);
    assert Quiet(NeedsX);
    QuietIsCompatible(NeedsX);
    AnythingAccepts(h, Doc(map["T" := Anything]), JObj(map[]));
    NeedsXRejects(h, Doc(map["T" := NeedsX]));
  }

  const Short := JObj(map["maxLength" := JNum(1.0)])
  const Wider := JObj(map["maxLength" := JNum(3.0)])
  const Long := JObj(map["minLength" := JNum(2.0)])
  const Either := JObj(map["oneOf" := JArr([RefTo("A"), Long])])

  function RefTo(name: string): Json
  {
    JObj(map["$ref" := JStr("#/$defs/" + name)])
  }

  lemma RefVerdict(h: Host, root: Json, name: string, v: Json, fuel: nat)
    requires name in Defs(root)
    ensures Validate(h, root, RefTo(name), v, fuel + 1) == Validate(h, root, Defs(root)[name], v, fuel)
  {
    var reference := "#/$defs/" + name;
    assert reference[|"#/$defs/"|..] == name;
    assert FormOf(RefTo(name)) == Reference(reference);
    assert Resolve(root, reference) == Some(Defs(root)[name]);
    hide FormOf, Resolve;
  }

  lemma TextVerdict(h: Host, root: Json, schema: Json, text: string, fuel: nat)
    requires schema in {Short, Wider, Long} && |text| == 2 && fuel > 0
    ensures Validate(h, root, schema, JStr(text), fuel) == if schema == Short then Rejects else Accepts
  {
    assert FormOf(schema) == Plain && Guard(schema, JStr(text)) == Accepts;
    assert StringVerdict(h, schema, text) == if schema == Short then Rejects else Accepts;
  }

  lemma WiderIsCompatible()
    ensures CompareOk(Short, Wider)
  {
    assert Constraints(Short) && Constraints(Wider) && KeywordsOk(Short, Wider);
    assert Properties(Short) == map[] && Required(Short) == {} && Properties(Wider) == map[] && Required(Wider) == {};
    assert NamesOk(Short, Wider);
    hide Constraints, KeywordsOk, NamesOk;
  }

  lemma EitherIsCompatible()
    ensures CompareOk(Either, Either)
  {
    hide CompareOk;
    assert Readable(Either) by {
      assert Constraints(Either) && PropertiesReadable(Either);
      hide Constraints, PropertiesReadable;
    }
    hide Readable;
    Reflexive(Either);
  }

  /** `Either` on a text of two characters, when `A` accepts or rejects it. */
  lemma EitherVerdict(h: Host, root: Json, v: Json)
    requires "A" in Defs(root) && Validate(h, root, Defs(root)["A"], v, 1) != Broken && Validate(h, root, Long, v, 2) == Accepts
    ensures Validate(h, root, Either, v, 3) == if Validate(h, root, Defs(root)["A"], v, 1) == Rejects then Accepts else Rejects
  {
    var branches := [RefTo("A"), Long];
    RefVerdict(h, root, "A", v, 1);
    EitherIsChoice(h, root, v);
    hide Validate, RefTo, FormOf, Defs;
    TwoBranches(h, root, RefTo("A"), Long, v, 2);
  }

  lemma EitherIsChoice(h: Host, root: Json, v: Json)
    ensures Validate(h, root, Either, v, 3) == OneOf(h, root, [RefTo("A"), Long], v, 2)
  {
    assert FormOf(Either) == Choice([RefTo("A"), Long]);
    hide OneOf, PlainVerdict, RefTo;
  }

  lemma TwoBranches(h: Host, root: Json, first: Json, second: Json, v: Json, fuel: nat)
    requires Validate(h, root, first, v, fuel) != Broken && Validate(h, root, second, v, fuel) == Accepts
    ensures OneOf(h, root, [first, second], v, fuel) == if Validate(h, root, first, v, fuel) == Rejects then Accepts else Rejects
  {
    hide Validate;
    var branches := [first, second];
    if Validate(h, root, first, v, fuel) == Rejects {
      SecondOnly(h, root, branches, v, fuel);
    } else {
      BothMatch(h, root, branches, v, fuel);
    }
  }

  lemma SecondOnly(h: Host, root: Json, branches: seq<Json>, v: Json, fuel: nat)
    requires |branches| == 2 && Validate(h, root, branches[0], v, fuel) == Rejects && Validate(h, root, branches[1], v, fuel) == Accepts
    ensures OneOf(h, root, branches, v, fuel) == Accepts
  {
    hide Validate;
    assert OnlyMatch(h, root, branches, v, fuel, 1);
  }

  lemma BothMatch(h: Host, root: Json, branches: seq<Json>, v: Json, fuel: nat)
    requires |branches| == 2 && Validate(h, root, branches[0], v, fuel) == Accepts && Validate(h, root, branches[1], v, fuel) == Accepts
    ensures OneOf(h, root, branches, v, fuel) == Rejects
  {
    hide Validate;
    assert !OnlyMatch(h, root, branches, v, fuel, 0) && !OnlyMatch(h, root, branches, v, fuel, 1);
  }

  /** Overlapping `oneOf` branches: widening one branch makes a value match two. */
  lemma OverlappingBranchesBreak(h: Host)
    ensures var rb, rc, v := Doc(map["A" := Short, "T" := Either]), Doc(map["A" := Wider, "T" := Either]), JStr("ab");
      DiffCompatible(rb, rc) && Admits(h, rb, Either, v) && Refuses(h, rc, Either, v)
  {
    hide Validate, CompareOk, HasDefs, Defs, Same, Doc;
    var rb, rc, v := Doc(map["A" := Short, "T" := Either]), Doc(map["A" := Wider, "T" := Either]), JStr("ab");
    DocFacts(map["A" := Short, "T" := Either]);
    DocFacts(map["A" := Wider, "T" := Either]);
    WiderIsCompatible();
    EitherIsCompatible();
    TextVerdict(h, rb, Short, "ab", 1);
    TextVerdict(h, rc, Wider, "ab", 1);
    TextVerdict(h, rb, Long, "ab", 2);
    TextVerdict(h, rc, Long, "ab", 2);
    assert Short != Wider by { assert Short.fields["maxLength"] == JNum(1.0) && Wider.fields["maxLength"] == JNum(3.0); }
    EitherVerdict(h, rb, v);
    EitherVerdict(h, rc, v);
  }
}
