/** What the contract diff calls compatible, keyword by keyword, on the nodes as they are written. */
module DiffMeaning {
  import opened Texts
  import opened Json
  import opened Schema
  import opened Compatibility
  import opened CompatibilityLaws
  import opened SchemaMeaning

  /** The keywords that may not change at all. */
  const Fixed: set<string> := {"type", "$ref", "const", "pattern", "format", "default", "oneOf", "enum", "additionalProperties"}
  const Lower: set<string> := {"minLength", "minItems", "minimum"}
  const Upper: set<string> := {"maxLength", "maxItems", "maximum"}

  /** `key` is absent from both nodes or has the same value in both. */
  predicate SameUnder(f: Keywords, g: Keywords, key: string)
  {
    (key in f <==> key in g) && (key in f ==> f[key] == g[key])
  }

  /** A bound is a whole number from 0 to 2^53 - 1. */
  ghost predicate IsBound(x: Json)
  {
    x.JNum? && exists k: int :: 0 <= k <= 9007199254740991 && IsWhole(x.n, k)
  }

  /** A lower bound may go down or away. */
  predicate NotRaised(f: Keywords, g: Keywords, key: string)
  {
    key in g && g[key].JNum? ==> key in f && f[key].JNum? && g[key].n <= f[key].n
  }

  /** An upper bound may go up or away. */
  predicate NotLowered(f: Keywords, g: Keywords, key: string)
  {
    key in g && g[key].JNum? ==> key in f && f[key].JNum? && f[key].n <= g[key].n
  }

  function PropertiesOf(f: Keywords): map<string, Json>
  {
    if "properties" in f && f["properties"].JObj? then f["properties"].fields else map[]
  }

  predicate Requires(f: Keywords, name: string)
  {
    "required" in f && f["required"].JArr? && JStr(name) in f["required"].items
  }

  /** Nothing but names is listed as required, if a list there is. */
  predicate ListsNames(f: Keywords)
  {
    "required" in f && f["required"].JArr? ==> forall x :: x in f["required"].items ==> x.JStr?
  }

  predicate KeywordsHold(f: Keywords, g: Keywords)
  {
    (forall key :: key in Fixed ==> SameUnder(f, g, key)) && (forall key :: key in Lower ==> NotRaised(f, g, key)) &&
    (forall key :: key in Upper ==> NotLowered(f, g, key)) &&
    ("uniqueItems" in g && g["uniqueItems"] == JBool(true) ==> "uniqueItems" in f && f["uniqueItems"] == JBool(true))
  }

  /** No property goes, none comes that is required, and none becomes required. */
  ghost predicate PropertiesHold(f: Keywords, g: Keywords)
  {
    ("properties" in f ==> f["properties"].JObj?) && ("properties" in g ==> g["properties"].JObj?) &&
    ("properties" in f || "properties" in g ==> ListsNames(f) && ListsNames(g)) &&
    (forall k :: k in PropertiesOf(f) ==> k in PropertiesOf(g) && CompareOk(PropertiesOf(f)[k], PropertiesOf(g)[k])) &&
    (forall k :: k in PropertiesOf(g) && k !in PropertiesOf(f) ==> !Requires(g, k)) &&
    forall k :: k in PropertiesOf(f) && Requires(g, k) ==> Requires(f, k)
  }

  /** The second node takes every change from the first. */
  ghost predicate Holds(f: Keywords, g: Keywords)
  {
    (forall key :: key in Lower + Upper ==> (key in f ==> IsBound(f[key])) && (key in g ==> IsBound(g[key]))) &&
    KeywordsHold(f, g) && PropertiesHold(f, g) && ("items" in f <==> "items" in g) && ("items" in f ==> CompareOk(f["items"], g["items"]))
  }

  lemma BoundMeans(f: Keywords, key: string)
    ensures Constraint(Field(JObj(f), key)) <==> (key in f ==> IsBound(f[key]))
  {
    if key in f && f[key].JNum? {
      var x := f[key].n;
      if Constraint(Some(f[key])) { assert IsWhole(x, x.Floor) && 0 <= x.Floor <= 9007199254740991; }
      if k: int :| 0 <= k <= 9007199254740991 && IsWhole(x, k) { assert x.Floor == k; }
    }
  }

  lemma ConstraintsMean(f: Keywords)
    ensures Constraints(JObj(f)) <==> forall key :: key in Lower + Upper ==> (key in f ==> IsBound(f[key]))
  {
    hide Constraint, IsBound, Field;
    BoundMeans(f, "minLength");
    BoundMeans(f, "minItems");
    BoundMeans(f, "minimum");
    BoundMeans(f, "maxLength");
    BoundMeans(f, "maxItems");
    BoundMeans(f, "maximum");
  }

  lemma SameMeans(f: Keywords, g: Keywords, key: string)
    ensures Same(JObj(f), JObj(g), key) <==> SameUnder(f, g, key)
  {
  }

  lemma RaisedMeans(f: Keywords, g: Keywords, key: string)
    ensures MinimumOk(Field(JObj(f), key), Field(JObj(g), key)) <==> NotRaised(f, g, key)
    ensures MaximumOk(Field(JObj(f), key), Field(JObj(g), key)) <==> NotLowered(f, g, key)
  {
  }

  lemma FixedMeans(f: Keywords, g: Keywords)
    ensures (forall key :: key in Fixed ==> SameUnder(f, g, key)) <==>
      Same(JObj(f), JObj(g), "type") && Same(JObj(f), JObj(g), "$ref") && Same(JObj(f), JObj(g), "const") && Same(JObj(f), JObj(g), "pattern") &&
      Same(JObj(f), JObj(g), "format") && Same(JObj(f), JObj(g), "default") && Same(JObj(f), JObj(g), "oneOf") && Same(JObj(f), JObj(g), "enum") &&
      Same(JObj(f), JObj(g), "additionalProperties")
  {
    forall key
      ensures Same(JObj(f), JObj(g), key) <==> SameUnder(f, g, key)
    {
      SameMeans(f, g, key);
    }
    hide Same, SameUnder;
  }

  lemma KeywordsMean(f: Keywords, g: Keywords)
    ensures KeywordsOk(JObj(f), JObj(g)) <==> KeywordsHold(f, g)
  {
    FixedMeans(f, g);
    RaisedMeans(f, g, "minLength");
    RaisedMeans(f, g, "minItems");
    RaisedMeans(f, g, "minimum");
    RaisedMeans(f, g, "maxLength");
    RaisedMeans(f, g, "maxItems");
    RaisedMeans(f, g, "maximum");
    assert Field(JObj(f), "uniqueItems") == Some(JBool(true)) <==> "uniqueItems" in f && f["uniqueItems"] == JBool(true);
    assert Field(JObj(g), "uniqueItems") == Some(JBool(true)) <==> "uniqueItems" in g && g["uniqueItems"] == JBool(true);
    hide Same, SameUnder, MinimumOk, MaximumOk, NotRaised, NotLowered, Field;
  }

  lemma RequiredName(f: Keywords, k: string)
    ensures k in Required(JObj(f)) <==> Requires(f, k)
  {
    if Requires(f, k) {
      var names := f["required"].items;
      var i :| 0 <= i < |names| && names[i] == JStr(k);
    }
  }

  lemma NamesMean(f: Keywords)
    ensures RequiredReadable(JObj(f)) <==> ListsNames(f)
    ensures PropertiesReadable(JObj(f)) <==> ("properties" in f ==> f["properties"].JObj?)
    ensures Properties(JObj(f)) == PropertiesOf(f)
  {
  }

  lemma PropertiesMean(f: Keywords, g: Keywords)
    ensures NamesOk(JObj(f), JObj(g)) && (forall k :: k in Properties(JObj(f)) ==> k in Properties(JObj(g)) && CompareOk(Properties(JObj(f))[k], Properties(JObj(g))[k])) <==>
      PropertiesHold(f, g)
  {
    NamesMean(f);
    NamesMean(g);
    forall k
      ensures (k in Required(JObj(f)) <==> Requires(f, k)) && (k in Required(JObj(g)) <==> Requires(g, k))
    {
      RequiredName(f, k);
      RequiredName(g, k);
    }
    assert Field(JObj(f), "properties").Some? <==> "properties" in f;
    assert Field(JObj(g), "properties").Some? <==> "properties" in g;
    hide Required, Requires, RequiredReadable, ListsNames, PropertiesReadable, Properties, PropertiesOf, CompareOk, Field;
  }

  /** Two nodes are compatible exactly when every keyword holds and the parts are compatible. */
  lemma CompareMeans(f: Keywords, g: Keywords)
    ensures CompareOk(JObj(f), JObj(g)) <==> Holds(f, g)
  {
    CompareUnfolds(f, g);
    ConstraintsMean(f);
    ConstraintsMean(g);
    KeywordsMean(f, g);
    PropertiesMean(f, g);
    hide CompareOk, Constraints, KeywordsOk, KeywordsHold, NamesOk, PropertiesHold, Properties, IsBound;
  }

  lemma CompareUnfolds(f: Keywords, g: Keywords)
    ensures CompareOk(JObj(f), JObj(g)) <==>
      Constraints(JObj(f)) && Constraints(JObj(g)) && KeywordsOk(JObj(f), JObj(g)) && NamesOk(JObj(f), JObj(g)) &&
      (forall k :: k in Properties(JObj(f)) ==> k in Properties(JObj(g)) && CompareOk(Properties(JObj(f))[k], Properties(JObj(g))[k])) &&
      ("items" in f <==> "items" in g) && ("items" in f ==> CompareOk(f["items"], g["items"]))
  {
    hide Constraints, KeywordsOk;
    var b, c := JObj(f), JObj(g);
    assert forall k :: k in Properties(b) ==> b.fields["properties"].fields[k] == Properties(b)[k];
    assert Field(b, "items").Some? <==> "items" in f;
    assert Field(c, "items").Some? <==> "items" in g;
    hide Properties, Field;
    assert NamesOk(b, c) ==> forall k :: k in Properties(b) ==> k in Properties(c);
    hide NamesOk;
  }

  /** A document that is no object, or one without definitions, is never compatible; otherwise every definition
      of the baseline must be there and compatible, and the `$id` the same. */
  lemma DiffMeans(rb: Keywords, rc: Keywords)
    ensures DiffCompatible(JObj(rb), JObj(rc)) <==>
      "$defs" in rb && rb["$defs"].JObj? && "$defs" in rc && rc["$defs"].JObj? && SameUnder(rb, rc, "$id") &&
      forall name :: name in rb["$defs"].fields ==>
        name in rc["$defs"].fields && CompareOk(rb["$defs"].fields[name], rc["$defs"].fields[name])
  {
    DefsMean(rb);
    DefsMean(rc);
    SameMeans(rb, rc, "$id");
    hide CompareOk, HasDefs, Defs, Same, SameUnder;
  }

  lemma DefsMean(root: Keywords)
    ensures HasDefs(JObj(root)) <==> "$defs" in root && root["$defs"].JObj?
    ensures HasDefs(JObj(root)) ==> Defs(JObj(root)) == root["$defs"].fields
  {
  }
}
