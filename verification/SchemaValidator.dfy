/** The validator as the program runs it: functions that walk schema and value together and append
    issues to a list. It finds no issue exactly where `Schema.Validate` accepts, and otherwise exactly the
    issues that `Issues` names, each under its code and path. */
module SchemaValidator {
  import opened Texts
  import opened TextMeaning
  import opened Json
  import opened Schema
  import Encodings

  datatype Issue = Issue(code: string, path: string)

  /** The outcome of a validation: thrown, or issues appended. */
  ghost predicate Judged(verdict: Verdict, thrown: bool, issues: seq<Issue>, out: seq<Issue>)
  {
    issues <= out && (thrown <==> verdict == Broken) && (!thrown ==> (out == issues <==> verdict == Accepts))
  }

  predicate IsName(key: string)
  {
    key != "" && ('A' <= key[0] <= 'Z' || 'a' <= key[0] <= 'z' || key[0] == '_') &&
    forall i :: 0 <= i < |key| ==> 'A' <= key[i] <= 'Z' || 'a' <= key[i] <= 'z' || key[i] == '_' || '0' <= key[i] <= '9'
  }

  /** `childPath` */
  function ChildPath(parent: string, key: string): string
  {
    if IsName(key) then parent + "." + key else parent + "[" + Encodings.Quote(key) + "]"
  }

  /** Names of letters, digits and underscores that do not start with a digit follow a dot; any other key
      stands in brackets, as a JSON string. */
  lemma ChildPathMeans(parent: string, key: string)
    ensures ChildPath(parent, key) ==
      if |key| > 0 && key[0] !in Digits && forall i :: 0 <= i < |key| ==> key[i] in Capitals || key[i] in Smalls || key[i] in Digits || key[i] == '_'
      then parent + "." + key else parent + "[" + Encodings.Quote(key) + "]"
  {
    hide Encodings.Quote;
    forall i | 0 <= i < |key|
      ensures ('A' <= key[i] <= 'Z' <==> key[i] in Capitals) && ('a' <= key[i] <= 'z' <==> key[i] in Smalls) && ('0' <= key[i] <= '9' <==> key[i] in Digits)
    {
      CapitalMeans(key[i]);
      SmallMeans(key[i]);
      DigitMeans(key[i]);
    }
  }

  // ---------------------------------------------------------------- what there is to find

  ghost function When(bad: bool, code: string, path: string): iset<Issue>
  {
    if bad then iset{Issue(code, path)} else iset{}
  }

  /** A text may miss several of its keywords. */
  ghost function TextIssues(h: Host, schema: Json, text: string, path: string): iset<Issue>
  {
    When(Below(|text| as real, Field(schema, "minLength")), "MIN_LENGTH", path) +
    When(Above(|text| as real, Field(schema, "maxLength")), "MAX_LENGTH", path) +
    When(PatternOf(h, schema, text) == Rejects, "PATTERN", path) +
    When(Field(schema, "format") == Some(JStr("ontos-canonical-instant")) && !h.instant(text), "FORMAT", path)
  }

  ghost function NumberIssues(schema: Json, n: real, path: string): iset<Issue>
  {
    When(Below(n, Field(schema, "minimum")), "MINIMUM", path) + When(Above(n, Field(schema, "maximum")), "MAXIMUM", path)
  }

  ghost function SizeIssues(schema: Json, items: seq<Json>, path: string): iset<Issue>
  {
    When(Below(|items| as real, Field(schema, "minItems")), "MIN_ITEMS", path) +
    When(Above(|items| as real, Field(schema, "maxItems")), "MAX_ITEMS", path) +
    When(Field(schema, "uniqueItems") == Some(JBool(true)) && !Distinct(items), "UNIQUE_ITEMS", path)
  }

  /** The issues of the first `n` items, each under its index. */
  ghost function ItemIssues(h: Host, root: Json, each: Json, items: seq<Json>, path: string, fuel: nat, n: nat): iset<Issue>
    requires n <= |items|
    decreases fuel, 3, n
  {
    if n == 0 then iset{}
    else
      ItemIssues(h, root, each, items, path, fuel, n - 1) +
      Issues(h, root, each, items[n - 1], path + "[" + Encodings.Decimal(n - 1) + "]", fuel)
  }

  /** A required name that is not there is an issue of the object's own. */
  ghost function MissingIssues(schema: Json, fields: map<string, Json>, path: string, names: set<string>): iset<Issue>
  {
    iset name | name in names && name in Required(schema) && name !in fields :: Issue("REQUIRED", ChildPath(path, name))
  }

  ghost function FieldIssues(h: Host, root: Json, schema: Json, key: string, item: Json, path: string, fuel: nat): iset<Issue>
    decreases fuel, 3, 0
  {
    if key in Properties(schema) then Issues(h, root, Properties(schema)[key], item, ChildPath(path, key), fuel)
    else
      match Field(schema, "additionalProperties")
      case Some(JBool(false)) => iset{Issue("ADDITIONAL_PROPERTY", ChildPath(path, key))}
      case Some(JObj(o)) => Issues(h, root, JObj(o), item, ChildPath(path, key), fuel)
      case Some(JArr(a)) => Issues(h, root, JArr(a), item, ChildPath(path, key), fuel)
      case _ => iset{}
  }

  ghost function FieldsIssues(h: Host, root: Json, schema: Json, fields: map<string, Json>, path: string, fuel: nat, keys: set<string>): iset<Issue>
    decreases fuel, 4, 0
  {
    iset k, x | k in keys && k in fields && x in FieldIssues(h, root, schema, k, fields[k], path, fuel) :: x
  }

  /** `const` comes first, then `enum`, then `type`; the other keywords are looked at together. */
  ghost function PlainIssues(h: Host, root: Json, schema: Json, value: Json, path: string, fuel: nat): iset<Issue>
    decreases fuel, 5, 0
  {
    var constant, choices := Field(schema, "const"), Field(schema, "enum");
    if constant.Some? && constant.value != value then iset{Issue("CONST_MISMATCH", path)}
    else if choices.Some? && choices.value.JArr? && value !in choices.value.items then iset{Issue("ENUM_MISMATCH", path)}
    else if TypeVerdict(schema, value) == Rejects then iset{Issue("TYPE_MISMATCH", path)}
    else
      match value
      case JStr(text) => TextIssues(h, schema, text, path)
      case JNum(n) => NumberIssues(schema, n, path)
      case JArr(items) =>
        SizeIssues(schema, items, path) +
        (if Field(schema, "items").Some? then ItemIssues(h, root, Field(schema, "items").value, items, path, fuel, |items|) else iset{})
      case JObj(fields) =>
        MissingIssues(schema, fields, path, Required(schema)) + FieldsIssues(h, root, schema, fields, path, fuel, fields.Keys)
      case _ => iset{}
  }

  /** The issues of a value under a node; a `oneOf` that fails is one issue, whatever its branches say. */
  ghost function Issues(h: Host, root: Json, schema: Json, value: Json, path: string, fuel: nat): iset<Issue>
    decreases fuel, 2, 0
  {
    if fuel == 0 || !schema.JObj? then iset{}
    else
      match FormOf(schema)
      case Reference(name) => if Resolve(root, name).Some? then Issues(h, root, Resolve(root, name).value, value, path, fuel - 1) else iset{}
      case Choice(branches) => When(OneOf(h, root, branches, value, fuel - 1) == Rejects, "ONE_OF", path)
      case Plain => PlainIssues(h, root, schema, value, path, fuel - 1)
  }

  /** `out` holds what `issues` held and what was found. */
  ghost predicate Adds(issues: seq<Issue>, out: seq<Issue>, found: iset<Issue>)
  {
    forall x :: x in out <==> x in issues || x in found
  }

  lemma AddsBoth(a: seq<Issue>, b: seq<Issue>, c: seq<Issue>, x: iset<Issue>, y: iset<Issue>)
    requires Adds(a, b, x) && Adds(b, c, y)
    ensures Adds(a, c, x + y)
  {
  }

  lemma AddsNothing(a: seq<Issue>)
    ensures Adds(a, a, iset{})
  {
  }

  // ---------------------------------------------------------------- the validator as it runs

  method AddIf(bad: bool, code: string, path: string, issues: seq<Issue>) returns (out: seq<Issue>)
    ensures issues <= out && (out == issues <==> !bad) && Adds(issues, out, When(bad, code, path))
  {
    out := if bad then issues + [Issue(code, path)] else issues;
  }

  lemma Untouched(a: seq<Issue>, b: seq<Issue>, c: seq<Issue>)
    requires a <= b <= c
    ensures a <= c && (c == a <==> c == b && b == a)
  {
  }

  /** The length bounds of a text. */
  method CheckLength(schema: Json, text: string, path: string, issues: seq<Issue>) returns (out: seq<Issue>)
    ensures issues <= out && (out == issues <==> !Below(|text| as real, Field(schema, "minLength")) && !Above(|text| as real, Field(schema, "maxLength")))
    ensures Adds(issues, out, When(Below(|text| as real, Field(schema, "minLength")), "MIN_LENGTH", path) +
      When(Above(|text| as real, Field(schema, "maxLength")), "MAX_LENGTH", path))
  {
    hide Below, Above, Field, Adds, When;
    var short := AddIf(Below(|text| as real, Field(schema, "minLength")), "MIN_LENGTH", path, issues);
    out := AddIf(Above(|text| as real, Field(schema, "maxLength")), "MAX_LENGTH", path, short);
    Untouched(issues, short, out);
    AddsBoth(issues, short, out, When(Below(|text| as real, Field(schema, "minLength")), "MIN_LENGTH", path),
             When(Above(|text| as real, Field(schema, "maxLength")), "MAX_LENGTH", path));
  }

  function PatternOf(h: Host, schema: Json, text: string): Verdict
  {
    match Field(schema, "pattern") case Some(JStr(p)) => PatternVerdict(h, p, text) case _ => Accepts
  }

  method ValidateString(h: Host, schema: Json, text: string, path: string, issues: seq<Issue>) returns (thrown: bool, out: seq<Issue>)
    ensures Judged(StringVerdict(h, schema, text), thrown, issues, out)
    ensures !thrown ==> Adds(issues, out, TextIssues(h, schema, text, path))
  {
    hide Below, Above, Field, Adds, When;
    var sized := CheckLength(schema, text, path, issues);
    var matched := PatternOf(h, schema, text);
    if matched == Broken { return true, sized; }
    var misshapen := Field(schema, "format") == Some(JStr("ontos-canonical-instant")) && !h.instant(text);
    var shaped := AddIf(matched == Rejects, "PATTERN", path, sized);
    out := AddIf(misshapen, "FORMAT", path, shaped);
    thrown := false;
    Untouched(issues, sized, shaped);
    Untouched(issues, shaped, out);
    ghost var bounds := When(Below(|text| as real, Field(schema, "minLength")), "MIN_LENGTH", path) +
      When(Above(|text| as real, Field(schema, "maxLength")), "MAX_LENGTH", path);
    AddsBoth(issues, sized, shaped, bounds, When(matched == Rejects, "PATTERN", path));
    AddsBoth(issues, shaped, out, bounds + When(matched == Rejects, "PATTERN", path), When(misshapen, "FORMAT", path));
  }

  method ValidateNumber(schema: Json, n: real, path: string, issues: seq<Issue>) returns (out: seq<Issue>)
    ensures issues <= out && (out == issues <==> !Below(n, Field(schema, "minimum")) && !Above(n, Field(schema, "maximum")))
    ensures Adds(issues, out, NumberIssues(schema, n, path))
  {
    hide Below, Above, Field, Adds, When;
    var low := AddIf(Below(n, Field(schema, "minimum")), "MINIMUM", path, issues);
    out := AddIf(Above(n, Field(schema, "maximum")), "MAXIMUM", path, low);
    Untouched(issues, low, out);
    AddsBoth(issues, low, out, When(Below(n, Field(schema, "minimum")), "MINIMUM", path), When(Above(n, Field(schema, "maximum")), "MAXIMUM", path));
  }

  method ValidateValue(h: Host, root: Json, schema: Json, value: Json, path: string, issues: seq<Issue>, fuel: nat)
    returns (thrown: bool, out: seq<Issue>)
    ensures Judged(Validate(h, root, schema, value, fuel), thrown, issues, out)
    ensures !thrown ==> Adds(issues, out, Issues(h, root, schema, value, path, fuel))
    decreases fuel, 5
  {
    hide OneOf, PlainVerdict, FormOf, Resolve, Adds, When, PlainIssues;
    if fuel == 0 || !schema.JObj? { return true, issues; }
    match FormOf(schema)
    case Reference(name) =>
      var target := Resolve(root, name);
      if target.None? { return true, issues; }
      thrown, out := ValidateValue(h, root, target.value, value, path, issues, fuel - 1);
    case Choice(branches) => thrown, out := ValidateChoice(h, root, branches, value, path, issues, fuel - 1);
    case Plain => thrown, out := ValidatePlain(h, root, schema, value, path, issues, fuel - 1);
  }

  /** What the branches up to `i` said, with the matches found so far. */
  ghost predicate Counted(h: Host, root: Json, branches: seq<Json>, value: Json, fuel: nat, i: nat, matches: nat, k: nat, l: nat)
    requires i <= |branches|
  {
    (forall j :: 0 <= j < i ==> Validate(h, root, branches[j], value, fuel) != Broken) &&
    (matches == 0 ==> forall j :: 0 <= j < i ==> Validate(h, root, branches[j], value, fuel) == Rejects) &&
    (matches >= 1 ==> k < i && Validate(h, root, branches[k], value, fuel) == Accepts) &&
    (matches == 1 ==> forall j :: 0 <= j < i && j != k ==> Validate(h, root, branches[j], value, fuel) == Rejects) &&
    (matches >= 2 ==> l < i && l != k && Validate(h, root, branches[l], value, fuel) == Accepts)
  }

  lemma CountStep(h: Host, root: Json, branches: seq<Json>, value: Json, fuel: nat, i: nat, matches: nat, k: nat, l: nat)
    requires i < |branches| && Counted(h, root, branches, value, fuel, i, matches, k, l) && Validate(h, root, branches[i], value, fuel) != Broken
    ensures var hit := Validate(h, root, branches[i], value, fuel) == Accepts;
      Counted(h, root, branches, value, fuel, i + 1, if hit then matches + 1 else matches,
              if hit && matches == 0 then i else k, if hit && matches == 1 then i else l)
  {
    hide Validate;
  }

  lemma CountIsVerdict(h: Host, root: Json, branches: seq<Json>, value: Json, fuel: nat, matches: nat, k: nat, l: nat)
    requires Counted(h, root, branches, value, fuel, |branches|, matches, k, l)
    ensures OneOf(h, root, branches, value, fuel) == if matches == 1 then Accepts else Rejects
  {
    hide Validate;
    if matches == 1 {
      assert OnlyMatch(h, root, branches, value, fuel, k);
    } else {
      forall i: nat | i < |branches|
        ensures !OnlyMatch(h, root, branches, value, fuel, i)
      {
        if matches >= 2 && i == k { assert Validate(h, root, branches[l], value, fuel) == Accepts; }
      }
    }
  }

  method ValidateChoice(h: Host, root: Json, branches: seq<Json>, value: Json, path: string, issues: seq<Issue>, fuel: nat)
    returns (thrown: bool, out: seq<Issue>)
    ensures Judged(OneOf(h, root, branches, value, fuel), thrown, issues, out)
    ensures !thrown ==> Adds(issues, out, When(OneOf(h, root, branches, value, fuel) == Rejects, "ONE_OF", path))
    decreases fuel, 6
  {
    hide Validate, Counted, Adds, When, Issues;
    var matches, i := 0, 0;
    ghost var k, l := 0, 0;
    assert Counted(h, root, branches, value, fuel, 0, 0, 0, 0) by { CountNothing(h, root, branches, value, fuel); }
    while i < |branches|
      invariant 0 <= i <= |branches| && 0 <= matches && 0 <= k && 0 <= l && Counted(h, root, branches, value, fuel, i, matches, k, l)
    {
      var candidate;
      thrown, candidate := ValidateValue(h, root, branches[i], value, path, [], fuel);
      if thrown { return true, issues; }
      CountStep(h, root, branches, value, fuel, i, matches, k, l);
      if candidate == [] {
        if matches == 0 { k := i; }
        if matches == 1 { l := i; }
        matches := matches + 1;
      }
      i := i + 1;
    }
    CountIsVerdict(h, root, branches, value, fuel, matches, k, l);
    hide OneOf;
    out := AddIf(matches != 1, "ONE_OF", path, issues);
    thrown := false;
  }

  lemma CountNothing(h: Host, root: Json, branches: seq<Json>, value: Json, fuel: nat)
    ensures Counted(h, root, branches, value, fuel, 0, 0, 0, 0)
  {
  }

  method ValidatePlain(h: Host, root: Json, schema: Json, value: Json, path: string, issues: seq<Issue>, fuel: nat)
    returns (thrown: bool, out: seq<Issue>)
    requires schema.JObj?
    ensures Judged(PlainVerdict(h, root, schema, value, fuel), thrown, issues, out)
    ensures !thrown ==> Adds(issues, out, PlainIssues(h, root, schema, value, path, fuel))
    decreases fuel, 9
  {
    hide StringVerdict, ArrayVerdict, ObjectVerdict, TypeVerdict, Below, Above, Field, Adds, TextIssues, NumberIssues, SizeIssues, ItemIssues, MissingIssues, FieldsIssues;
    var guard := Guard(schema, value);
    if guard == Broken { return true, issues; }
    if guard == Rejects {
      var constant, choices := Field(schema, "const"), Field(schema, "enum");
      var code := if constant.Some? && constant.value != value then "CONST_MISMATCH"
                  else if choices.Some? && choices.value.JArr? && value !in choices.value.items then "ENUM_MISMATCH" else "TYPE_MISMATCH";
      out := AddIf(true, code, path, issues);
      return false, out;
    }
    AddsNothing(issues);
    if value.JStr? {
      thrown, out := ValidateString(h, schema, value.t, path, issues);
    } else if value.JNum? {
      out := ValidateNumber(schema, value.n, path, issues);
      thrown := false;
    } else if value.JArr? {
      thrown, out := ValidateArray(h, root, schema, value.items, path, issues, fuel);
    } else if value.JObj? {
      thrown, out := ValidateObject(h, root, schema, value.fields, path, issues, fuel);
    } else {
      thrown, out := false, issues;
    }
  }

  /** The first `n` items, judged by the item schema. */
  ghost predicate ItemsJudged(h: Host, root: Json, each: Json, items: seq<Json>, fuel: nat, n: nat, clean: bool)
    requires n <= |items|
  {
    (forall i :: 0 <= i < n ==> Validate(h, root, each, items[i], fuel) != Broken) &&
    (clean <==> forall i :: 0 <= i < n ==> Validate(h, root, each, items[i], fuel) == Accepts)
  }

  lemma ItemsStep(h: Host, root: Json, each: Json, items: seq<Json>, fuel: nat, n: nat, clean: bool)
    requires n < |items| && ItemsJudged(h, root, each, items, fuel, n, clean) && Validate(h, root, each, items[n], fuel) != Broken
    ensures ItemsJudged(h, root, each, items, fuel, n + 1, clean && Validate(h, root, each, items[n], fuel) == Accepts)
  {
    hide Validate;
  }

  lemma NoItems(h: Host, root: Json, each: Json, items: seq<Json>, fuel: nat)
    ensures ItemsJudged(h, root, each, items, fuel, 0, true)
  {
  }

  ghost predicate SomeItemBreaks(h: Host, root: Json, each: Json, items: seq<Json>, fuel: nat)
  {
    exists i :: 0 <= i < |items| && Validate(h, root, each, items[i], fuel) == Broken
  }

  lemma NoItemBreaks(h: Host, root: Json, each: Json, items: seq<Json>, fuel: nat, clean: bool)
    requires ItemsJudged(h, root, each, items, fuel, |items|, clean)
    ensures !SomeItemBreaks(h, root, each, items, fuel)
  {
    hide Validate;
  }

  lemma ThisItemBreaks(h: Host, root: Json, each: Json, items: seq<Json>, fuel: nat, i: nat)
    requires i < |items| && Validate(h, root, each, items[i], fuel) == Broken
    ensures SomeItemBreaks(h, root, each, items, fuel)
  {
  }

  method ValidateItems(h: Host, root: Json, each: Json, items: seq<Json>, path: string, issues: seq<Issue>, fuel: nat)
    returns (thrown: bool, out: seq<Issue>)
    ensures issues <= out && (thrown <==> SomeItemBreaks(h, root, each, items, fuel))
    ensures !thrown ==> ItemsJudged(h, root, each, items, fuel, |items|, out == issues)
    ensures !thrown ==> Adds(issues, out, ItemIssues(h, root, each, items, path, fuel, |items|))
    decreases fuel, 6
  {
    hide Validate, ItemsJudged, SomeItemBreaks, Adds, Issues;
    thrown, out := false, issues;
    var i := 0;
    NoItems(h, root, each, items, fuel);
    AddsNothing(issues);
    while i < |items|
      invariant 0 <= i <= |items| && issues <= out && !thrown
      invariant Adds(issues, out, ItemIssues(h, root, each, items, path, fuel, i))
      invariant ItemsJudged(h, root, each, items, fuel, i, out == issues)
    {
      var next;
      thrown, next := ValidateValue(h, root, each, items[i], path + "[" + Encodings.Decimal(i) + "]", out, fuel);
      if thrown {
        ThisItemBreaks(h, root, each, items, fuel, i);
        return true, out;
      }
      ItemsStep(h, root, each, items, fuel, i, out == issues);
      Untouched(issues, out, next);
      AddsBoth(issues, out, next, ItemIssues(h, root, each, items, path, fuel, i),
               Issues(h, root, each, items[i], path + "[" + Encodings.Decimal(i) + "]", fuel));
      out, i := next, i + 1;
    }
    NoItemBreaks(h, root, each, items, fuel, out == issues);
  }

  /** The size and uniqueness of an array are wrong. */
  predicate BadSize(schema: Json, items: seq<Json>)
  {
    Below(|items| as real, Field(schema, "minItems")) || Above(|items| as real, Field(schema, "maxItems")) ||
    (Field(schema, "uniqueItems") == Some(JBool(true)) && !Distinct(items))
  }

  method CheckSize(schema: Json, items: seq<Json>, path: string, issues: seq<Issue>) returns (out: seq<Issue>)
    ensures issues <= out && (out == issues <==> !BadSize(schema, items)) && Adds(issues, out, SizeIssues(schema, items, path))
  {
    hide Below, Above, Field, Distinct, Adds, When;
    var few := AddIf(Below(|items| as real, Field(schema, "minItems")), "MIN_ITEMS", path, issues);
    var many := AddIf(Above(|items| as real, Field(schema, "maxItems")), "MAX_ITEMS", path, few);
    Untouched(issues, few, many);
    ghost var few', many' := When(Below(|items| as real, Field(schema, "minItems")), "MIN_ITEMS", path),
      When(Above(|items| as real, Field(schema, "maxItems")), "MAX_ITEMS", path);
    AddsBoth(issues, few, many, few', many');
    var repeats := false;
    if Field(schema, "uniqueItems") == Some(JBool(true)) {
      var distinct := AllDistinct(items);
      repeats := !distinct;
    }
    out := AddIf(repeats, "UNIQUE_ITEMS", path, many);
    Untouched(issues, many, out);
    AddsBoth(issues, many, out, few' + many', When(repeats, "UNIQUE_ITEMS", path));
  }

  /** An array's verdict from its size and its items. */
  lemma ArrayFromParts(h: Host, root: Json, schema: Json, items: seq<Json>, fuel: nat, clean: bool)
    ensures var each := Field(schema, "items");
      (each.None? ==> ArrayVerdict(h, root, schema, items, fuel) == if BadSize(schema, items) then Rejects else Accepts) &&
      (each.Some? && SomeItemBreaks(h, root, each.value, items, fuel) ==> ArrayVerdict(h, root, schema, items, fuel) == Broken) &&
      (each.Some? && !SomeItemBreaks(h, root, each.value, items, fuel) && ItemsJudged(h, root, each.value, items, fuel, |items|, clean) ==>
         ArrayVerdict(h, root, schema, items, fuel) == if BadSize(schema, items) || !clean then Rejects else Accepts)
  {
    hide Validate, Below, Above, Field, Distinct;
  }

  method ValidateArray(h: Host, root: Json, schema: Json, items: seq<Json>, path: string, issues: seq<Issue>, fuel: nat)
    returns (thrown: bool, out: seq<Issue>)
    ensures Judged(ArrayVerdict(h, root, schema, items, fuel), thrown, issues, out)
    ensures !thrown ==> Adds(issues, out, SizeIssues(schema, items, path) +
      if Field(schema, "items").Some? then ItemIssues(h, root, Field(schema, "items").value, items, path, fuel, |items|) else iset{})
    decreases fuel, 7
  {
    hide ArrayVerdict, BadSize, ItemsJudged, SomeItemBreaks, Field, Adds, SizeIssues, ItemIssues;
    ArrayFromParts(h, root, schema, items, fuel, true);
    ArrayFromParts(h, root, schema, items, fuel, false);
    var sized := CheckSize(schema, items, path, issues);
    var each := Field(schema, "items");
    if each.None? {
      assert SizeIssues(schema, items, path) + iset{} == SizeIssues(schema, items, path);
      return false, sized;
    }
    thrown, out := ValidateItems(h, root, each.value, items, path, sized, fuel);
    Untouched(issues, sized, out);
    if !thrown { AddsBoth(issues, sized, out, SizeIssues(schema, items, path), ItemIssues(h, root, each.value, items, path, fuel, |items|)); }
  }

  /** `new Set(encoded).size === encoded.length`; equal encodings are equal items. */
  method AllDistinct(items: seq<Json>) returns (distinct: bool)
    ensures distinct <==> Distinct(items)
  {
    var i := 0;
    while i < |items|
      invariant 0 <= i <= |items| && Distinct(items[..i])
    {
      if items[i] in items[..i] {
        var j :| 0 <= j < i && items[..i][j] == items[i];
        assert items[j] == items[i];
        return false;
      }
      assert forall j :: 0 <= j < i ==> items[..i][j] == items[j];
      assert items[..i + 1] == items[..i] + [items[i]];
      i := i + 1;
    }
    assert items[..i] == items;
    return true;
  }

  method ValidateField(h: Host, root: Json, schema: Json, key: string, item: Json, path: string, issues: seq<Issue>, fuel: nat)
    returns (thrown: bool, out: seq<Issue>)
    requires schema.JObj? && PropertiesReadable(schema)
    ensures Judged(FieldVerdict(h, root, schema, key, item, fuel), thrown, issues, out)
    ensures !thrown ==> Adds(issues, out, FieldIssues(h, root, schema, key, item, path, fuel))
    decreases fuel, 6
  {
    hide Validate, Field, Adds, Issues;
    thrown, out := false, issues;
    AddsNothing(issues);
    var properties := Properties(schema);
    if key in properties {
      thrown, out := ValidateValue(h, root, properties[key], item, ChildPath(path, key), issues, fuel);
    } else {
      match Field(schema, "additionalProperties")
      case Some(JBool(allowed)) => out := AddIf(!allowed, "ADDITIONAL_PROPERTY", ChildPath(path, key), issues);
      case Some(JObj(o)) => thrown, out := ValidateValue(h, root, JObj(o), item, ChildPath(path, key), issues, fuel);
      case Some(JArr(a)) => thrown, out := ValidateValue(h, root, JArr(a), item, ChildPath(path, key), issues, fuel);
      case _ =>
    }
  }

  /** The loop over `required`. */
  method RequireAll(schema: Json, fields: map<string, Json>, path: string, issues: seq<Issue>) returns (out: seq<Issue>)
    ensures issues <= out && (out == issues <==> Required(schema) <= fields.Keys)
    ensures Adds(issues, out, MissingIssues(schema, fields, path, Required(schema)))
  {
    out := issues;
    var rest := Required(schema);
    hide Required, Adds, MissingIssues, When;
    NothingMissing(schema, fields, path);
    AddsNothing(issues);
    assert Required(schema) - rest == {};
    while rest != {}
      invariant rest <= Required(schema) && issues <= out
      invariant Adds(issues, out, MissingIssues(schema, fields, path, Required(schema) - rest))
      invariant out == issues <==> Required(schema) - rest <= fields.Keys
      decreases |rest|
    {
      var name :| name in rest;
      var next := AddIf(name !in fields, "REQUIRED", ChildPath(path, name), out);
      Untouched(issues, out, next);
      assert Required(schema) - (rest - {name}) == Required(schema) - rest + {name};
      MissingStep(schema, fields, path, Required(schema) - rest, name);
      AddsBoth(issues, out, next, MissingIssues(schema, fields, path, Required(schema) - rest), When(name !in fields, "REQUIRED", ChildPath(path, name)));
      out, rest := next, rest - {name};
    }
    assert Required(schema) - rest == Required(schema);
  }

  lemma NothingMissing(schema: Json, fields: map<string, Json>, path: string)
    ensures MissingIssues(schema, fields, path, {}) == iset{}
  {
  }

  lemma MissingStep(schema: Json, fields: map<string, Json>, path: string, names: set<string>, name: string)
    requires name in Required(schema)
    ensures MissingIssues(schema, fields, path, names + {name}) ==
      MissingIssues(schema, fields, path, names) + When(name !in fields, "REQUIRED", ChildPath(path, name))
  {
    hide Required, ChildPath;
  }

  lemma NoFields(h: Host, root: Json, schema: Json, fields: map<string, Json>, path: string, fuel: nat)
    ensures FieldsIssues(h, root, schema, fields, path, fuel, {}) == iset{}
  {
  }

  lemma FieldsStep(h: Host, root: Json, schema: Json, fields: map<string, Json>, path: string, fuel: nat, keys: set<string>, k: string)
    requires k in fields
    ensures FieldsIssues(h, root, schema, fields, path, fuel, keys + {k}) ==
      FieldsIssues(h, root, schema, fields, path, fuel, keys) + FieldIssues(h, root, schema, k, fields[k], path, fuel)
  {
    hide FieldIssues;
  }

  ghost predicate FieldsJudged(h: Host, root: Json, schema: Json, fields: map<string, Json>, fuel: nat, rest: set<string>, clean: bool)
  {
    (forall k :: k in fields && k !in rest ==> FieldVerdict(h, root, schema, k, fields[k], fuel) != Broken) &&
    (clean <==> forall k :: k in fields && k !in rest ==> FieldVerdict(h, root, schema, k, fields[k], fuel) == Accepts)
  }

  /** The loop over the fields of the value. */
  method ValidateFields(h: Host, root: Json, schema: Json, fields: map<string, Json>, path: string, issues: seq<Issue>, fuel: nat)
    returns (thrown: bool, out: seq<Issue>)
    requires schema.JObj? && PropertiesReadable(schema)
    ensures issues <= out && (thrown <==> exists k :: k in fields && FieldVerdict(h, root, schema, k, fields[k], fuel) == Broken)
    ensures !thrown ==> FieldsJudged(h, root, schema, fields, fuel, {}, out == issues)
    ensures !thrown ==> Adds(issues, out, FieldsIssues(h, root, schema, fields, path, fuel, fields.Keys))
    decreases fuel, 7
  {
    hide FieldVerdict, PropertiesReadable, Adds, FieldsIssues, FieldIssues, FieldsJudged;
    thrown, out := false, issues;
    var rest := fields.Keys;
    NothingJudged(h, root, schema, fields, fuel);
    NoFields(h, root, schema, fields, path, fuel);
    AddsNothing(issues);
    assert fields.Keys - rest == {};
    while rest != {}
      invariant rest <= fields.Keys && issues <= out && !thrown
      invariant Adds(issues, out, FieldsIssues(h, root, schema, fields, path, fuel, fields.Keys - rest))
      invariant FieldsJudged(h, root, schema, fields, fuel, rest, out == issues)
      decreases |rest|
    {
      var k :| k in rest;
      var next;
      thrown, next := ValidateField(h, root, schema, k, fields[k], path, out, fuel);
      if thrown { return true, out; }
      Untouched(issues, out, next);
      JudgedNext(h, root, schema, fields, fuel, rest, out == issues, k);
      FieldsStep(h, root, schema, fields, path, fuel, fields.Keys - rest, k);
      AddsBoth(issues, out, next, FieldsIssues(h, root, schema, fields, path, fuel, fields.Keys - rest), FieldIssues(h, root, schema, k, fields[k], path, fuel));
      assert fields.Keys - (rest - {k}) == fields.Keys - rest + {k};
      out, rest := next, rest - {k};
    }
    assert fields.Keys - rest == fields.Keys;
    NoneBroke(h, root, schema, fields, fuel, out == issues);
  }

  lemma NothingJudged(h: Host, root: Json, schema: Json, fields: map<string, Json>, fuel: nat)
    ensures FieldsJudged(h, root, schema, fields, fuel, fields.Keys, true)
  {
  }

  lemma JudgedNext(h: Host, root: Json, schema: Json, fields: map<string, Json>, fuel: nat, rest: set<string>, clean: bool, k: string)
    requires k in rest && k in fields && FieldsJudged(h, root, schema, fields, fuel, rest, clean) && FieldVerdict(h, root, schema, k, fields[k], fuel) != Broken
    ensures FieldsJudged(h, root, schema, fields, fuel, rest - {k}, clean && FieldVerdict(h, root, schema, k, fields[k], fuel) == Accepts)
  {
    hide FieldVerdict;
  }

  lemma NoneBroke(h: Host, root: Json, schema: Json, fields: map<string, Json>, fuel: nat, clean: bool)
    requires FieldsJudged(h, root, schema, fields, fuel, {}, clean)
    ensures !exists k :: k in fields && FieldVerdict(h, root, schema, k, fields[k], fuel) == Broken
  {
    hide FieldVerdict;
  }

  method ValidateObject(h: Host, root: Json, schema: Json, fields: map<string, Json>, path: string, issues: seq<Issue>, fuel: nat)
    returns (thrown: bool, out: seq<Issue>)
    requires schema.JObj?
    ensures Judged(ObjectVerdict(h, root, schema, fields, fuel), thrown, issues, out)
    ensures !thrown ==> Adds(issues, out, MissingIssues(schema, fields, path, Required(schema)) + FieldsIssues(h, root, schema, fields, path, fuel, fields.Keys))
    decreases fuel, 8
  {
    hide FieldVerdict, PropertiesReadable, Required, Adds, MissingIssues, FieldsIssues;
    if !PropertiesReadable(schema) { return true, issues; }
    var needed := RequireAll(schema, fields, path, issues);
    thrown, out := ValidateFields(h, root, schema, fields, path, needed, fuel);
    Untouched(issues, needed, out);
    if !thrown {
      AddsBoth(issues, needed, out, MissingIssues(schema, fields, path, Required(schema)), FieldsIssues(h, root, schema, fields, path, fuel, fields.Keys));
    }
  }
}
