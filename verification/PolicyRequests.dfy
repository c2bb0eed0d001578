/** Policy requests: what is asked, the uncached answer, and the key a decision is cached under. */
module PolicyRequests {
  import opened Texts
  import opened Encodings

  /** `value.length`: UTF-16 code units. */
  function CodeUnits(s: string): nat
  {
    if s == "" then 0 else (if s[0] as int >= 0x10000 then 2 else 1) + CodeUnits(s[1..])
  }

  /** `assertIdentifier` does not throw. */
  predicate IsIdentifier(s: string)
  {
    s != "" && CodeUnits(s) <= 256 && !IsSpace(s[0]) && !IsSpace(s[|s| - 1]) &&
    forall i :: 0 <= i < |s| ==> s[i] as int > 31 && s[i] as int != 127
  }

  /** `copyIdentifierList` does not throw (no list here has to be non-empty). */
  predicate IsIdentifierList(xs: seq<string>, maximum: nat)
  {
    |xs| <= maximum && (forall i :: 0 <= i < |xs| ==> IsIdentifier(xs[i])) &&
    forall i, j :: 0 <= i < j < |xs| ==> xs[i] != xs[j]
  }

  datatype Request = Request(
    projectId: string, subjectId: string, identityType: string, groups: seq<string>, delegation: seq<string>,
    resourceId: string, permission: string, releaseId: string, policyRevision: string, compilerVersion: string,
    correlationId: string)

  predicate Acceptable(r: Request)
  {
    IsIdentifier(r.projectId) && IsIdentifier(r.subjectId) && (r.identityType == "human" || r.identityType == "service") &&
    IsIdentifierList(r.groups, 128) && r.subjectId !in r.groups && IsIdentifierList(r.delegation, 16) &&
    IsIdentifier(r.resourceId) && IsIdentifier(r.permission) && IsIdentifier(r.releaseId) &&
    IsIdentifier(r.policyRevision) && IsIdentifier(r.compilerVersion) && IsIdentifier(r.correlationId)
  }

  /** `normalizeDecisionRequest`; `None` where it throws. */
  function Normalize(r: Request): Option<Request>
  {
    if Acceptable(r) then Some(r.(groups := Sort(r.groups))) else None
  }

  // ---------------------------------------------------------------- the uncached answer

  datatype Binding = Binding(principalId: string, resourceId: string, permission: string)

  predicate Bound(bindings: set<Binding>, r: Request, principal: string)
  {
    Binding(principal, r.resourceId, r.permission) in bindings
  }

  /** The actor or one of its groups is bound, and so is every delegate. */
  predicate Evaluate(bindings: set<Binding>, r: Request)
  {
    (Bound(bindings, r, r.subjectId) || exists i :: 0 <= i < |r.groups| && Bound(bindings, r, r.groups[i])) &&
    forall i :: 0 <= i < |r.delegation| ==> Bound(bindings, r, r.delegation[i])
  }

  /** `authorizationBindingKey` */
  function BindingKey(b: Binding): string
  {
    EncodeTuple([b.principalId, b.resourceId, b.permission])
  }

  lemma BindingKeyInjective(a: Binding, b: Binding)
    ensures BindingKey(a) == BindingKey(b) <==> a == b
  {
    var x, y := [a.principalId, a.resourceId, a.permission], [b.principalId, b.resourceId, b.permission];
    EncodeTupleInjective(x, y);
    hide EncodeTuple;
    assert x == y ==> x[0] == y[0] && x[1] == y[1] && x[2] == y[2];
  }

  // ---------------------------------------------------------------- cache keys

  /** SHA-256; the keys rely on it having no collision. */
  type Hash = string -> string

  ghost predicate NoCollision(h: Hash)
  {
    forall a, b :: h(a) == h(b) ==> a == b
  }

  function ActorFingerprint(h: Hash, r: Request): string
  {
    h(EncodeTuple(["actor-v1", r.identityType, r.subjectId] + Sort(r.groups)))
  }

  function DelegationFingerprint(h: Hash, r: Request): string
  {
    h(EncodeTuple(["delegation-v1"] + r.delegation))
  }

  function KeyParts(h: Hash, r: Request): seq<string>
  {
    ["policy-decision-base-v1", r.projectId, ActorFingerprint(h, r), DelegationFingerprint(h, r), r.resourceId, r.permission,
     r.releaseId, r.policyRevision, r.compilerVersion]
  }

  /** `createPolicyCacheBaseKey` */
  function BaseKey(h: Hash, r: Request): string
  {
    EncodeTuple(KeyParts(h, r))
  }

  /** Two requests ask the same, whatever the order of their groups and their correlation id. */
  predicate SameQuestion(r: Request, q: Request)
  {
    r.projectId == q.projectId && r.subjectId == q.subjectId && r.identityType == q.identityType &&
    multiset(r.groups) == multiset(q.groups) && r.delegation == q.delegation && r.resourceId == q.resourceId &&
    r.permission == q.permission && r.releaseId == q.releaseId && r.policyRevision == q.policyRevision &&
    r.compilerVersion == q.compilerVersion
  }

  lemma SameActor(h: Hash, r: Request, q: Request)
    requires NoCollision(h)
    ensures ActorFingerprint(h, r) == ActorFingerprint(h, q) <==>
      (r.identityType == q.identityType && r.subjectId == q.subjectId && multiset(r.groups) == multiset(q.groups))
  {
    hide EncodeTuple, Sort;
    var x, y := ["actor-v1", r.identityType, r.subjectId] + Sort(r.groups), ["actor-v1", q.identityType, q.subjectId] + Sort(q.groups);
    EncodeTupleInjective(x, y);
    SortSorts(r.groups);
    SortSorts(q.groups);
    if x == y {
      assert x[1] == r.identityType && y[1] == q.identityType && x[2] == r.subjectId && y[2] == q.subjectId;
      assert x[3..] == Sort(r.groups) && y[3..] == Sort(q.groups);
    } else if multiset(r.groups) == multiset(q.groups) {
      SortedUnique(Sort(r.groups), Sort(q.groups));
    }
  }

  lemma SameDelegation(h: Hash, r: Request, q: Request)
    requires NoCollision(h)
    ensures DelegationFingerprint(h, r) == DelegationFingerprint(h, q) <==> r.delegation == q.delegation
  {
    hide EncodeTuple;
    var x, y := ["delegation-v1"] + r.delegation, ["delegation-v1"] + q.delegation;
    EncodeTupleInjective(x, y);
    assert x[1..] == r.delegation && y[1..] == q.delegation;
  }

  /** One cache slot holds one question: the keys agree exactly when the requests ask the same. */
  lemma KeyIsQuestion(h: Hash, r: Request, q: Request)
    requires NoCollision(h)
    ensures BaseKey(h, r) == BaseKey(h, q) <==> SameQuestion(r, q)
  {
    hide EncodeTuple, ActorFingerprint, DelegationFingerprint, NoCollision;
    SameActor(h, r, q);
    SameDelegation(h, r, q);
    var x, y := KeyParts(h, r), KeyParts(h, q);
    EncodeTupleInjective(x, y);
    if x == y {
      assert x[1] == y[1] && x[2] == y[2] && x[3] == y[3] && x[4] == y[4];
      assert x[5] == y[5] && x[6] == y[6] && x[7] == y[7] && x[8] == y[8];
    }
  }

  /** The same question has the same answer under the same bindings. */
  lemma SameQuestionSameAnswer(bindings: set<Binding>, r: Request, q: Request)
    requires SameQuestion(r, q)
    ensures Evaluate(bindings, r) == Evaluate(bindings, q)
  {
    GroupOfOther(bindings, r, q);
    GroupOfOther(bindings, q, r);
  }

  lemma GroupOfOther(bindings: set<Binding>, r: Request, q: Request)
    requires SameQuestion(r, q)
    ensures (exists i :: 0 <= i < |r.groups| && Bound(bindings, r, r.groups[i])) ==> exists i :: 0 <= i < |q.groups| && Bound(bindings, q, q.groups[i])
  {
    if i :| 0 <= i < |r.groups| && Bound(bindings, r, r.groups[i]) {
      assert r.groups[i] in multiset(r.groups);
      assert r.groups[i] in q.groups;
      var j :| 0 <= j < |q.groups| && q.groups[j] == r.groups[i];
      assert Bound(bindings, q, q.groups[j]);
    }
  }

  lemma NormalizeKeepsQuestion(r: Request)
    ensures Normalize(r).Some? ==> SameQuestion(r, Normalize(r).value)
  {
    SortSorts(r.groups);
  }
}
