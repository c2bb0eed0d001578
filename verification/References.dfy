/** The schema definitions an OpenAPI document needs: everything reachable from its roots, with
    references rewritten so that they resolve inside the document. */
module References {
  import opened Texts
  import opened Json

  const DEFS := "#/$defs/"
  const COMPONENTS := "#/components/schemas/"

  type Definitions = map<string, Json>

  /** `r` is the text of a `$ref` somewhere in `v`. */
  ghost predicate HasRef(v: Json, r: string)
    decreases v
  {
    match v
    case JArr(items) => exists i :: 0 <= i < |items| && HasRef(items[i], r)
    case JObj(fields) => OwnRef(fields) == Some(r) || exists k :: k in fields && HasRef(fields[k], r)
    case _ => false
  }

  function OwnRef(fields: map<string, Json>): Option<string>
  {
    if "$ref" in fields && fields["$ref"].JStr? then Some(fields["$ref"].t) else None
  }

  /** `referencesIn` */
  method ReferencesIn(v: Json) returns (refs: seq<string>)
    ensures forall r :: r in refs <==> HasRef(v, r)
    decreases v
  {
    refs := [];
    match v
    case JArr(items) =>
      var i := 0;
      while i < |items|
        invariant 0 <= i <= |items|
        invariant forall r :: r in refs <==> exists j :: 0 <= j < i && HasRef(items[j], r)
      {
        var more := ReferencesIn(items[i]);
        refs, i := refs + more, i + 1;
      }
    case JObj(fields) =>
      var own := OwnRef(fields);
      if own.Some? { refs := [own.value]; }
      var rest := fields.Keys;
      while rest != {}
        invariant rest <= fields.Keys
        invariant forall r :: r in refs <==> own == Some(r) || exists k :: k in fields && k !in rest && HasRef(fields[k], r)
        decreases |rest|
      {
        var k :| k in rest;
        ghost var before := refs;
        var more := ReferencesIn(fields[k]);
        refs, rest := refs + more, rest - {k};
        assert forall r :: r in refs <==> r in before || r in more;
      }
    case _ =>
  }

  // ---------------------------------------------------------------- reachable definitions

  /** Definition `a` refers to definition `b`. */
  ghost predicate Refers(defs: Definitions, a: string, b: string)
  {
    a in defs && HasRef(defs[a], DEFS + b)
  }

  ghost predicate Chain(defs: Definitions, roots: seq<string>, chain: seq<string>)
  {
    chain != [] && chain[0] in roots && forall i :: 0 < i < |chain| ==> Refers(defs, chain[i - 1], chain[i])
  }

  ghost predicate ReachedBy(defs: Definitions, roots: seq<string>, name: string, chain: seq<string>)
  {
    Chain(defs, roots, chain) && chain[|chain| - 1] == name
  }

  ghost predicate Reachable(defs: Definitions, roots: seq<string>, name: string)
  {
    exists chain :: ReachedBy(defs, roots, name, chain)
  }

  lemma RootReachable(defs: Definitions, roots: seq<string>, name: string)
    requires name in roots
    ensures Reachable(defs, roots, name)
  {
    assert ReachedBy(defs, roots, name, [name]);
  }

  lemma NextReachable(defs: Definitions, roots: seq<string>, a: string, b: string)
    requires Reachable(defs, roots, a) && Refers(defs, a, b)
    ensures Reachable(defs, roots, b)
  {
    hide Refers;
    var chain :| ReachedBy(defs, roots, a, chain);
    assert ReachedBy(defs, roots, b, chain + [b]);
  }

  /** What collects every root and is closed under references has everything reachable. */
  lemma {:induction false} ClosedHasAll(defs: Definitions, roots: seq<string>, found: set<string>, chain: seq<string>)
    requires (forall r :: r in roots ==> r in found) && (forall a, b :: a in found && Refers(defs, a, b) ==> b in found)
    requires Chain(defs, roots, chain)
    ensures chain[|chain| - 1] in found
    decreases |chain|
  {
    hide Refers;
    if |chain| > 1 {
      var n := |chain| - 1;
      ClosedHasAll(defs, roots, found, chain[..n]);
      assert Refers(defs, chain[n - 1], chain[n]);
    }
  }

  /** Nothing reachable is missing, and every reference of a reachable definition is a local one. */
  ghost predicate DefinitionOk(defs: Definitions, name: string)
  {
    name in defs && forall r :: HasRef(defs[name], r) ==> DEFS <= r
  }

  ghost predicate Collectable(defs: Definitions, roots: seq<string>)
  {
    forall name :: Reachable(defs, roots, name) ==> DefinitionOk(defs, name)
  }

  ghost predicate Exactly(defs: Definitions, roots: seq<string>, result: Definitions)
  {
    forall name :: (name in result <==> Reachable(defs, roots, name)) && (name in result ==> name in defs && result[name] == defs[name])
  }

  // ---------------------------------------------------------------- the worklist

  /** What the loop has found so far. */
  ghost predicate Progress(defs: Definitions, roots: seq<string>, result: Definitions, pending: seq<string>)
  {
    (forall n :: n in result ==> Reachable(defs, roots, n) && DefinitionOk(defs, n) && result[n] == defs[n]) &&
    (forall n :: n in pending ==> Reachable(defs, roots, n)) &&
    (forall n :: n in roots ==> n in result || n in pending) &&
    (forall a, b :: a in result && Refers(defs, a, b) ==> b in result || b in pending)
  }

  lemma Started(defs: Definitions, roots: seq<string>)
    ensures Progress(defs, roots, map[], roots)
  {
    hide Reachable;
    forall n | n in roots
      ensures Reachable(defs, roots, n)
    {
      RootReachable(defs, roots, n);
    }
  }

  /** A name popped that was already there. */
  lemma Dropped(defs: Definitions, roots: seq<string>, result: Definitions, pending: seq<string>)
    requires pending != [] && Progress(defs, roots, result, pending) && pending[|pending| - 1] in result
    ensures Progress(defs, roots, result, pending[..|pending| - 1])
  {
    hide Reachable, DefinitionOk, Refers;
    var rest := pending[..|pending| - 1];
    assert pending == rest + [pending[|pending| - 1]];
    assert forall n :: n in pending ==> n in rest || n in result;
  }

  /** A new name, with the targets of its references pushed. */
  lemma Collected(defs: Definitions, roots: seq<string>, result: Definitions, pending: seq<string>, targets: seq<string>)
    requires pending != [] && Progress(defs, roots, result, pending)
    requires var name := pending[|pending| - 1]; DefinitionOk(defs, name) && name in defs && forall b :: b in targets <==> Refers(defs, name, b)
    ensures var name := pending[|pending| - 1]; Progress(defs, roots, result[name := defs[name]], pending[..|pending| - 1] + targets)
  {
    hide Reachable, DefinitionOk, Refers;
    var name, rest := pending[|pending| - 1], pending[..|pending| - 1];
    assert pending == rest + [name];
    var result', pending' := result[name := defs[name]], rest + targets;
    assert forall n :: n in pending ==> n in rest || n == name;
    forall n | n in pending'
      ensures Reachable(defs, roots, n)
    {
      if n in targets { NextReachable(defs, roots, name, n); } else { assert n in pending; }
    }
    forall a, b | a in result' && Refers(defs, a, b)
      ensures b in result' || b in pending'
    {
      if a != name { assert b in result || b in pending; }
    }
  }

  lemma Complete(defs: Definitions, roots: seq<string>, result: Definitions)
    requires Progress(defs, roots, result, [])
    ensures Collectable(defs, roots) && Exactly(defs, roots, result)
  {
    hide Refers, HasRef, Reachable;
    forall name
      ensures Reachable(defs, roots, name) ==> name in result
    {
      if Reachable(defs, roots, name) {
        var chain := ChainTo(defs, roots, name);
        ClosedHasAll(defs, roots, result.Keys, chain);
      }
    }
  }

  lemma ChainTo(defs: Definitions, roots: seq<string>, name: string) returns (chain: seq<string>)
    requires Reachable(defs, roots, name)
    ensures ReachedBy(defs, roots, name, chain)
  {
    chain :| ReachedBy(defs, roots, name, chain);
  }

  /** The names behind the references, unless one of them is not local. */
  method Targets(refs: seq<string>) returns (targets: Option<seq<string>>)
    ensures targets.Some? <==> forall r :: r in refs ==> DEFS <= r
    ensures targets.Some? ==> forall b :: b in targets.value <==> DEFS + b in refs
  {
    var names: seq<string> := [];
    var i := 0;
    while i < |refs|
      invariant 0 <= i == |names| <= |refs|
      invariant forall j :: 0 <= j < i ==> DEFS <= refs[j] && names[j] == refs[j][|DEFS|..]
    {
      if !(DEFS <= refs[i]) {
        assert refs[i] in refs;
        return None;
      }
      names, i := names + [refs[i][|DEFS|..]], i + 1;
    }
    TargetNames(refs, names);
    targets := Some(names);
  }

  lemma TargetNames(refs: seq<string>, names: seq<string>)
    requires |names| == |refs| && forall j :: 0 <= j < |refs| ==> DEFS <= refs[j] && names[j] == refs[j][|DEFS|..]
    ensures forall b :: b in names <==> DEFS + b in refs
  {
    forall b
      ensures b in names <==> DEFS + b in refs
    {
      if b in names {
        var j :| 0 <= j < |names| && names[j] == b;
        assert refs[j] == DEFS + b;
      }
      if DEFS + b in refs {
        var j :| 0 <= j < |refs| && refs[j] == DEFS + b;
        assert (DEFS + b)[|DEFS|..] == b;
      }
    }
  }

  lemma FewerMissing(defs: Definitions, result: Definitions, name: string)
    requires name in defs && name !in result
    ensures |defs.Keys - result[name := defs[name]].Keys| < |defs.Keys - result.Keys|
  {
    assert defs.Keys - result.Keys == (defs.Keys - result[name := defs[name]].Keys) + {name};
  }

  /** `collectDefinitions`: it ends on cyclic references, and returns exactly what is reachable, or
      fails when something reachable is missing or refers outside. */
  method CollectDefinitions(defs: Definitions, roots: seq<string>) returns (r: Option<Definitions>)
    ensures r.Some? <==> Collectable(defs, roots)
    ensures r.Some? ==> Exactly(defs, roots, r.value)
  {
    hide Reachable, DefinitionOk, Refers, Progress;
    var result: Definitions, pending := map[], roots;
    Started(defs, roots);
    while pending != []
      invariant Progress(defs, roots, result, pending)
      decreases |defs.Keys - result.Keys|, |pending|
    {
      var name := pending[|pending| - 1];
      PendingReachable(defs, roots, result, pending);
      if name in result {
        Dropped(defs, roots, result, pending);
        pending := pending[..|pending| - 1];
        continue;
      }
      var targets := TargetsOf(defs, name);
      if targets.None? { return None; }
      Collected(defs, roots, result, pending, targets.value);
      FewerMissing(defs, result, name);
      result, pending := result[name := defs[name]], pending[..|pending| - 1] + targets.value;
    }
    Complete(defs, roots, result);
    r := Some(result);
  }

  lemma PendingReachable(defs: Definitions, roots: seq<string>, result: Definitions, pending: seq<string>)
    requires pending != [] && Progress(defs, roots, result, pending)
    ensures Reachable(defs, roots, pending[|pending| - 1])
  {
    hide Reachable, DefinitionOk, Refers;
  }

  /** The definitions that `name` refers to; `None` where the loop throws. */
  method TargetsOf(defs: Definitions, name: string) returns (targets: Option<seq<string>>)
    ensures targets.Some? <==> DefinitionOk(defs, name)
    ensures targets.Some? ==> name in defs && forall b :: b in targets.value <==> Refers(defs, name, b)
  {
    hide HasRef;
    if name !in defs { return None; }
    var refs := ReferencesIn(defs[name]);
    targets := Targets(refs);
  }

  // ---------------------------------------------------------------- rewriting

  /** `item.replace(from, to)`: the first occurrence. */
  function ReplaceFirst(s: string, from: string, to: string): string
  {
    if from <= s then to + s[|from|..] else if s == "" then "" else [s[0]] + ReplaceFirst(s[1..], from, to)
  }

  /** `rewriteReferences`, from one prefix to another. */
  function Rewrite(v: Json, from: string, to: string): Json
    decreases v
  {
    match v
    case JArr(items) => JArr(seq(|items|, i requires 0 <= i < |items| => Rewrite(items[i], from, to)))
    case JObj(fields) =>
      JObj(map k | k in fields :: if k == "$ref" && fields[k].JStr? then JStr(ReplaceFirst(fields[k].t, from, to)) else Rewrite(fields[k], from, to))
    case _ => v
  }

  /** `r` is a reference of `v`, rewritten. */
  ghost predicate IsRewritten(v: Json, from: string, to: string, r: string)
  {
    exists q :: HasRef(v, q) && r == ReplaceFirst(q, from, to)
  }

  /** The references of a rewritten value are the rewritten references. */
  lemma {:induction false} RewrittenRefs(v: Json, from: string, to: string, r: string)
    ensures HasRef(Rewrite(v, from, to), r) <==> IsRewritten(v, from, to, r)
    decreases v
  {
    hide ReplaceFirst;
    match v
    case JArr(items) =>
      hide IsRewritten;
      forall i | 0 <= i < |items|
        ensures HasRef(Rewrite(items[i], from, to), r) <==> IsRewritten(items[i], from, to, r)
      {
        RewrittenRefs(items[i], from, to, r);
      }
      RewrittenArray(items, from, to, r);
    case JObj(fields) =>
      hide IsRewritten;
      forall k | k in fields
        ensures HasRef(Rewrite(fields[k], from, to), r) <==> IsRewritten(fields[k], from, to, r)
      {
        RewrittenRefs(fields[k], from, to, r);
      }
      RewrittenObject(fields, from, to, r);
    case _ =>
  }

  lemma RewrittenArray(items: seq<Json>, from: string, to: string, r: string)
    requires forall i :: 0 <= i < |items| ==> (HasRef(Rewrite(items[i], from, to), r) <==> IsRewritten(items[i], from, to, r))
    ensures HasRef(Rewrite(JArr(items), from, to), r) <==> IsRewritten(JArr(items), from, to, r)
  {
    hide ReplaceFirst;
    var w := Rewrite(JArr(items), from, to);
    assert forall i :: 0 <= i < |items| ==> w.items[i] == Rewrite(items[i], from, to);
    if HasRef(w, r) {
      var i :| 0 <= i < |w.items| && HasRef(w.items[i], r);
      var q :| HasRef(items[i], q) && r == ReplaceFirst(q, from, to);
      assert HasRef(JArr(items), q);
    }
    if IsRewritten(JArr(items), from, to, r) {
      var q :| HasRef(JArr(items), q) && r == ReplaceFirst(q, from, to);
      var i :| 0 <= i < |items| && HasRef(items[i], q);
      assert HasRef(w.items[i], r);
    }
  }

  /** The fields of a rewritten object. */
  lemma RewrittenField(fields: map<string, Json>, from: string, to: string, k: string)
    requires k in fields
    ensures var w := Rewrite(JObj(fields), from, to);
      w.JObj? && w.fields.Keys == fields.Keys && OwnRef(w.fields) == (if OwnRef(fields).Some? then Some(ReplaceFirst(OwnRef(fields).value, from, to)) else None) &&
      (if k == "$ref" && fields[k].JStr? then w.fields[k].JStr? else w.fields[k] == Rewrite(fields[k], from, to))
  {
    hide ReplaceFirst;
  }

  lemma RewrittenObject(fields: map<string, Json>, from: string, to: string, r: string)
    requires forall k :: k in fields ==> (HasRef(Rewrite(fields[k], from, to), r) <==> IsRewritten(fields[k], from, to, r))
    ensures HasRef(Rewrite(JObj(fields), from, to), r) <==> IsRewritten(JObj(fields), from, to, r)
  {
    hide ReplaceFirst;
    var w := Rewrite(JObj(fields), from, to);
    if HasRef(w, r) { FromRewritten(fields, from, to, r); }
    if IsRewritten(JObj(fields), from, to, r) { ToRewritten(fields, from, to, r); }
  }

  lemma FromRewritten(fields: map<string, Json>, from: string, to: string, r: string)
    requires forall k :: k in fields ==> (HasRef(Rewrite(fields[k], from, to), r) <==> IsRewritten(fields[k], from, to, r))
    requires HasRef(Rewrite(JObj(fields), from, to), r)
    ensures IsRewritten(JObj(fields), from, to, r)
  {
    hide ReplaceFirst;
    var w := Rewrite(JObj(fields), from, to);
    if OwnRef(w.fields) == Some(r) {
      RewrittenField(fields, from, to, "$ref");
      assert HasRef(JObj(fields), OwnRef(fields).value);
    } else {
      var k :| k in w.fields && HasRef(w.fields[k], r);
      RewrittenField(fields, from, to, k);
      TextHasNoRef(w.fields[k], r);
      var q :| HasRef(fields[k], q) && r == ReplaceFirst(q, from, to);
      assert HasRef(JObj(fields), q);
    }
  }

  lemma ToRewritten(fields: map<string, Json>, from: string, to: string, r: string)
    requires forall k :: k in fields ==> (HasRef(Rewrite(fields[k], from, to), r) <==> IsRewritten(fields[k], from, to, r))
    requires IsRewritten(JObj(fields), from, to, r)
    ensures HasRef(Rewrite(JObj(fields), from, to), r)
  {
    hide ReplaceFirst;
    var w := Rewrite(JObj(fields), from, to);
    var q :| HasRef(JObj(fields), q) && r == ReplaceFirst(q, from, to);
    if OwnRef(fields) == Some(q) {
      RewrittenField(fields, from, to, "$ref");
    } else {
      var k :| k in fields && HasRef(fields[k], q);
      RewrittenField(fields, from, to, k);
      TextHasNoRef(fields[k], q);
      assert IsRewritten(fields[k], from, to, r);
      assert HasRef(w.fields[k], r);
    }
  }

  /** Every reference of `v` starts with `prefix`. */
  ghost predicate RefsStart(v: Json, prefix: string)
  {
    forall r :: HasRef(v, r) ==> prefix <= r
  }

  lemma ReplacePrefix(s: string, from: string, to: string)
    requires from <= s
    ensures ReplaceFirst(s, from, to) == to + s[|from|..] && ReplaceFirst(ReplaceFirst(s, from, to), to, from) == s
  {
    var t := to + s[|from|..];
    assert to <= t && t[|to|..] == s[|from|..];
    assert from + s[|from|..] == s;
  }

  /** Rewriting only renames local references: rewriting back gives the value again. */
  lemma {:induction false} RewriteBack(v: Json, from: string, to: string)
    requires RefsStart(v, from)
    ensures Rewrite(Rewrite(v, from, to), to, from) == v
    decreases v
  {
    hide ReplaceFirst;
    match v
    case JArr(items) =>
      var w := Rewrite(v, from, to);
      forall i | 0 <= i < |items|
        ensures Rewrite(w.items[i], to, from) == items[i]
      {
        assert RefsStart(items[i], from) by { forall r | HasRef(items[i], r) ensures from <= r { assert HasRef(v, r); } }
        RewriteBack(items[i], from, to);
      }
    case JObj(fields) =>
      var w := Rewrite(v, from, to);
      forall k | k in fields
        ensures Rewrite(w, to, from).fields[k] == fields[k]
      {
        FieldBack(v, k, from, to);
        if !(k == "$ref" && fields[k].JStr?) { RewriteBack(fields[k], from, to); }
      }
    case _ =>
  }

  lemma FieldBack(v: Json, k: string, from: string, to: string)
    requires RefsStart(v, from) && v.JObj? && k in v.fields
    ensures RefsStart(v.fields[k], from)
    ensures k == "$ref" && v.fields[k].JStr? ==> from <= v.fields[k].t && ReplaceFirst(ReplaceFirst(v.fields[k].t, from, to), to, from) == v.fields[k].t
  {
    hide ReplaceFirst;
    forall r | HasRef(v.fields[k], r)
      ensures from <= r
    {
      assert HasRef(v, r);
    }
    if k == "$ref" && v.fields[k].JStr? {
      assert HasRef(v, v.fields[k].t);
      ReplacePrefix(v.fields[k].t, from, to);
    }
  }

  // ---------------------------------------------------------------- the document

  /** The error definitions merged into the public ones; `None` where two definitions disagree. */
  method Merge(publics: Definitions, errors: Definitions) returns (merged: Option<Definitions>)
    ensures merged.Some? <==> forall n :: n in publics && n in errors ==> publics[n] == errors[n]
    ensures merged.Some? ==> merged.value == publics + errors
  {
    var result, rest := publics, errors.Keys;
    while rest != {}
      invariant rest <= errors.Keys && result.Keys == publics.Keys + (errors.Keys - rest)
      invariant forall n :: n in result ==> result[n] == if n in errors && n !in rest then errors[n] else publics[n]
      invariant forall n :: n in publics && n in errors && n !in rest ==> publics[n] == errors[n]
      decreases |rest|
    {
      var name :| name in rest;
      if name in result && result[name] != errors[name] { return None; }
      result, rest := result[name := errors[name]], rest - {name};
    }
    merged := Some(result);
  }

  /** The component schemas of `buildRuntimeReadOpenApi`. */
  method BuildSchemas(runtime: Definitions, roots: seq<string>, foundation: Definitions, errorRoots: seq<string>) returns (r: Option<Json>)
    ensures r.Some? ==> r.value.JObj? && Resolves(r.value.fields)
    ensures r.Some? ==> forall n :: n in r.value.fields <==> Reachable(runtime, roots, n) || Reachable(foundation, errorRoots, n)
    ensures r.Some? ==> forall n :: Reachable(runtime, roots, n) && n in runtime && !runtime[n].JStr? ==> n in r.value.fields && r.value.fields[n] == Rewrite(runtime[n], DEFS, COMPONENTS)
    ensures r.Some? ==> forall n :: Reachable(foundation, errorRoots, n) && n in foundation && !foundation[n].JStr? ==> n in r.value.fields && r.value.fields[n] == Rewrite(foundation[n], DEFS, COMPONENTS)
    ensures r.Some? <==> Collectable(runtime, roots) && Collectable(foundation, errorRoots) && Agree(runtime, roots, foundation, errorRoots)
  {
    hide Reachable, Rewrite, DefinitionOk;
    var publics := CollectDefinitions(runtime, roots);
    if publics.None? { return None; }
    var errors := CollectDefinitions(foundation, errorRoots);
    if errors.None? { return None; }
    var merged := Merge(publics.value, errors.value);
    if merged.None? { return None; }
    r := Some(Rewrite(JObj(merged.value), DEFS, COMPONENTS));
    MergedResolves(runtime, roots, publics.value, foundation, errorRoots, errors.value);
    RewriteFields(merged.value);
  }

  /** Where both documents define a name, they define it alike. */
  ghost predicate Agree(a: Definitions, aRoots: seq<string>, b: Definitions, bRoots: seq<string>)
  {
    forall n :: Reachable(a, aRoots, n) && Reachable(b, bRoots, n) && n in a && n in b ==> a[n] == b[n]
  }

  /** Every reference inside `schemas` names one of them. */
  ghost predicate Resolves(schemas: Definitions)
  {
    forall n, r :: n in schemas && HasRef(schemas[n], r) ==> COMPONENTS <= r && r[|COMPONENTS|..] in schemas
  }

  lemma RewriteFields(defs: Definitions)
    ensures var w := Rewrite(JObj(defs), DEFS, COMPONENTS);
      w.JObj? && w.fields.Keys == defs.Keys &&
      forall n :: n in defs ==> if defs[n].JStr? then w.fields[n].JStr? else w.fields[n] == Rewrite(defs[n], DEFS, COMPONENTS)
  {
    hide ReplaceFirst;
  }

  /** A rewritten reference of a collected definition names a definition of the same collection. */
  lemma RefStaysInside(defs: Definitions, roots: seq<string>, result: Definitions, n: string, r: string)
    requires Collectable(defs, roots) && Exactly(defs, roots, result) && n in result && HasRef(Rewrite(defs[n], DEFS, COMPONENTS), r)
    ensures COMPONENTS <= r && r[|COMPONENTS|..] in result
  {
    hide Reachable, Rewrite, ReplaceFirst;
    RewrittenRefs(defs[n], DEFS, COMPONENTS, r);
    var q :| HasRef(defs[n], q) && r == ReplaceFirst(q, DEFS, COMPONENTS);
    assert DefinitionOk(defs, n);
    ReplacePrefix(q, DEFS, COMPONENTS);
    var t := q[|DEFS|..];
    assert q == DEFS + t;
    NextReachable(defs, roots, n, t);
    assert r[|COMPONENTS|..] == t;
    hide HasRef;
  }

  lemma MergedResolves(runtime: Definitions, roots: seq<string>, publics: Definitions, foundation: Definitions, errorRoots: seq<string>, errors: Definitions)
    requires Collectable(runtime, roots) && Exactly(runtime, roots, publics)
    requires Collectable(foundation, errorRoots) && Exactly(foundation, errorRoots, errors)
    ensures Resolves(Rewrite(JObj(publics + errors), DEFS, COMPONENTS).fields)
  {
    hide Reachable, Rewrite, Collectable, HasRef;
    var merged := publics + errors;
    RewriteFields(merged);
    var schemas := Rewrite(JObj(merged), DEFS, COMPONENTS).fields;
    forall n, r | n in schemas && HasRef(schemas[n], r)
      ensures COMPONENTS <= r && r[|COMPONENTS|..] in schemas
    {
      TextHasNoRef(schemas[n], r);
      if n in errors {
        RefStaysInside(foundation, errorRoots, errors, n, r);
      } else {
        RefStaysInside(runtime, roots, publics, n, r);
      }
    }
  }

  lemma TextHasNoRef(v: Json, r: string)
    ensures HasRef(v, r) ==> !v.JStr?
  {
  }

  /** A local reference to a definition becomes the reference to the schema component of that name. */
  lemma LocalReference(name: string)
    ensures Rewrite(JObj(map["$ref" := JStr("#/$defs/" + name)]), DEFS, COMPONENTS) == JObj(map["$ref" := JStr("#/components/schemas/" + name)])
  {
    assert (DEFS + name)[|DEFS|..] == name;
    var fields := map["$ref" := JStr(DEFS + name)];
    hide ReplaceFirst;
    ReplacePrefix(DEFS + name, DEFS, COMPONENTS);
    assert Rewrite(JObj(fields), DEFS, COMPONENTS).fields == map["$ref" := JStr(COMPONENTS + name)];
  }
}
