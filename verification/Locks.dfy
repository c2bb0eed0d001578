/** The global lock order of the control plane, and what follows from it: transactions that take
    their locks along an accepted plan never wait for each other in a circle. */
module Locks {
  import opened Texts

  datatype LockDomain =
    | ProjectControl | ReleaseChannel | Release | ReleasePins | SnapshotGroup | ObjectTypeCutover | GenerationInventory | ServingHeads

  const LockOrder: seq<LockDomain> :=
    [ProjectControl, ReleaseChannel, Release, ReleasePins, SnapshotGroup, ObjectTypeCutover, GenerationInventory, ServingHeads]

  /** `LOCK_ORDER.indexOf(lock)` */
  function Rank(lock: LockDomain): (r: nat)
    ensures r < |LockOrder| && LockOrder[r] == lock
  {
    match lock
    case ProjectControl => 0
    case ReleaseChannel => 1
    case Release => 2
    case ReleasePins => 3
    case SnapshotGroup => 4
    case ObjectTypeCutover => 5
    case GenerationInventory => 6
    case ServingHeads => 7
  }

  predicate Ascending(plan: seq<LockDomain>)
  {
    forall i, j :: 0 <= i < j < |plan| ==> Rank(plan[i]) < Rank(plan[j])
  }

  /** `assertLockPlan`: accepted exactly when every domain comes once, in the global order. */
  method AssertLockPlan(plan: seq<LockDomain>) returns (accepted: bool)
    ensures accepted <==> Ascending(plan)
  {
    var previous: int := -1;
    var i := 0;
    while i < |plan|
      invariant 0 <= i <= |plan| && Ascending(plan[..i])
      invariant previous == if i == 0 then -1 else Rank(plan[i - 1])
    {
      var rank := Rank(plan[i]);
      if rank <= previous {
        assert Rank(plan[i]) <= Rank(plan[i - 1]);
        return false;
      }
      assert forall j :: 0 <= j < i ==> plan[..i][j] == plan[j];
      assert forall j :: 0 <= j < i ==> Rank(plan[j]) < rank;
      previous := rank;
      i := i + 1;
    }
    assert plan[..i] == plan;
    return true;
  }

  const PublishPlan := [ProjectControl, ReleaseChannel, Release, ReleasePins, ServingHeads]
  const SnapshotCutoverPlan := [ProjectControl, ReleaseChannel, SnapshotGroup, ObjectTypeCutover, GenerationInventory, ServingHeads]
  const RuntimePublishPlan := [ProjectControl, ReleaseChannel, Release, ReleasePins, GenerationInventory, ServingHeads]
  const MaterializationCutoverPlan :=
    [ProjectControl, ReleaseChannel, Release, SnapshotGroup, ObjectTypeCutover, GenerationInventory, ServingHeads]
  const GcCommitPlan := [ProjectControl, GenerationInventory]

  /** Putting an earlier domain in front keeps a plan accepted. */
  lemma PlanGrows(first: LockDomain, plan: seq<LockDomain>)
    requires Ascending(plan) && (plan != [] ==> Rank(first) < Rank(plan[0]))
    ensures Ascending([first] + plan)
  {
    hide Rank;
    var all := [first] + plan;
    forall i, j | 0 <= i < j < |all|
      ensures Rank(all[i]) < Rank(all[j])
    {
      if i == 0 && j > 1 { assert Rank(plan[0]) < Rank(plan[j - 1]); }
    }
  }

  lemma {:induction false} NeighboursAscend(plan: seq<LockDomain>)
    requires forall i :: 1 <= i < |plan| ==> Rank(plan[i - 1]) < Rank(plan[i])
    ensures Ascending(plan)
  {
    hide Rank;
    if plan != [] {
      var rest := plan[1..];
      assert forall i :: 1 <= i < |rest| ==> rest[i - 1] == plan[i] && rest[i] == plan[i + 1];
      forall i | 1 <= i < |rest|
        ensures Rank(rest[i - 1]) < Rank(rest[i])
      {
        assert Rank(plan[i + 1 - 1]) < Rank(plan[i + 1]);
      }
      NeighboursAscend(rest);
      PlanGrows(plan[0], rest);
      assert plan == [plan[0]] + rest;
    }
  }

  /** The five plans of the repository are accepted. */
  lemma PlansAscend()
    ensures Ascending(PublishPlan) && Ascending(SnapshotCutoverPlan) && Ascending(RuntimePublishPlan)
    ensures Ascending(MaterializationCutoverPlan) && Ascending(GcCommitPlan)
  {
    hide Ascending;
    NeighboursAscend(PublishPlan);
    NeighboursAscend(SnapshotCutoverPlan);
    NeighboursAscend(RuntimePublishPlan);
    NeighboursAscend(MaterializationCutoverPlan);
    NeighboursAscend(GcCommitPlan);
  }

  // ---------------------------------------------------------------- cutover keys

  /** `toLowerCase`; letters beyond ASCII never become part of a UUID. */
  function Lower(s: string): (r: string)
    ensures |r| == |s|
  {
    seq(|s|, i requires 0 <= i < |s| => if 'A' <= s[i] <= 'Z' then (s[i] as int + 32) as char else s[i])
  }

  function Trim(s: string): string
  {
    if s == "" then "" else if IsSpace(s[0]) then Trim(s[1..]) else if IsSpace(s[|s| - 1]) then Trim(s[..|s| - 1]) else s
  }

  predicate IsHex(c: char)
  {
    '0' <= c <= '9' || 'a' <= c <= 'f'
  }

  /** `canonicalUuidPattern` */
  predicate IsUuid(s: string)
  {
    |s| == 36 && s[8] == '-' && s[13] == '-' && s[18] == '-' && s[23] == '-' && '1' <= s[14] <= '8' &&
    (s[19] == '8' || s[19] == '9' || s[19] == 'a' || s[19] == 'b') &&
    forall i :: 0 <= i < 36 && i != 8 && i != 13 && i != 18 && i != 23 ==> IsHex(s[i])
  }

  function Normalized(keys: seq<string>): (r: seq<string>)
    ensures |r| == |keys| && forall i :: 0 <= i < |keys| ==> r[i] == Lower(Trim(keys[i]))
  {
    seq(|keys|, i requires 0 <= i < |keys| => Lower(Trim(keys[i])))
  }

  predicate Unique(keys: seq<string>)
  {
    forall i, j :: 0 <= i < j < |keys| ==> keys[i] != keys[j]
  }

  /** `orderedObjectTypeCutoverKeys`; `None` where it throws. On UUIDs byte order is string order. */
  function OrderedCutoverKeys(keys: seq<string>): Option<seq<string>>
  {
    var normalized := Normalized(keys);
    if normalized == [] || (exists i :: 0 <= i < |normalized| && !IsUuid(normalized[i])) || !Unique(normalized) then None
    else Some(Sort(normalized))
  }

  predicate KeysAscend(keys: seq<string>)
  {
    forall i, j :: 0 <= i < j < |keys| ==> Less(keys[i], keys[j])
  }

  /** The result is the normalized keys, each once, strictly ascending. */
  lemma CutoverKeysAscend(keys: seq<string>)
    ensures OrderedCutoverKeys(keys).Some? <==>
      (keys != [] && (forall i :: 0 <= i < |keys| ==> IsUuid(Lower(Trim(keys[i])))) && Unique(Normalized(keys)))
    ensures OrderedCutoverKeys(keys).Some? ==>
      (KeysAscend(OrderedCutoverKeys(keys).value) && multiset(OrderedCutoverKeys(keys).value) == multiset(Normalized(keys)))
  {
    hide IsUuid, Sort;
    var normalized := Normalized(keys);
    SortSorts(normalized);
    if Unique(normalized) {
      SortedUniqueAscends(normalized, Sort(normalized));
    }
  }

  lemma SortedUniqueAscends(xs: seq<string>, ys: seq<string>)
    requires Unique(xs) && Sorted(ys) && multiset(ys) == multiset(xs)
    ensures KeysAscend(ys)
  {
    forall i, j | 0 <= i < j < |ys|
      ensures Less(ys[i], ys[j])
    {
      assert AtMost(ys[i], ys[j]);
      if ys[i] == ys[j] { TwiceThere(ys, i, j); OnceThere(xs, ys[i]); }
    }
  }

  lemma TwiceThere(ys: seq<string>, i: nat, j: nat)
    requires i < j < |ys| && ys[i] == ys[j]
    ensures multiset(ys)[ys[i]] >= 2
  {
    assert ys == ys[..i] + [ys[i]] + ys[i + 1..j] + [ys[j]] + ys[j + 1..];
  }

  lemma {:induction false} OnceThere(xs: seq<string>, x: string)
    requires Unique(xs)
    ensures multiset(xs)[x] <= 1
  {
    if xs != [] {
      assert xs == [xs[0]] + xs[1..];
      OnceThere(xs[1..], x);
      if x == xs[0] { assert x !in xs[1..]; }
    }
  }

  // ---------------------------------------------------------------- the locks of one transaction

  /** One row or advisory lock: its domain and which one of the domain. */
  datatype Lock = Lock(domain: LockDomain, key: string)

  predicate LockBefore(a: Lock, b: Lock)
  {
    Rank(a.domain) < Rank(b.domain) || (a.domain == b.domain && Less(a.key, b.key))
  }

  lemma LockBeforeTransitive(a: Lock, b: Lock, c: Lock)
    requires LockBefore(a, b) && LockBefore(b, c)
    ensures LockBefore(a, c)
  {
    if a.domain == b.domain == c.domain { LessTransitive(a.key, b.key, c.key); }
  }

  lemma LockBeforeIrreflexive(a: Lock)
    ensures !LockBefore(a, a)
  {
    LessTotal(a.key, a.key);
  }

  lemma LockBeforeTotal(a: Lock, b: Lock)
    ensures a == b || LockBefore(a, b) || LockBefore(b, a)
  {
    assert LockOrder[Rank(a.domain)] == a.domain && LockOrder[Rank(b.domain)] == b.domain;
    LessTotal(a.key, b.key);
  }

  predicate LocksAscend(locks: seq<Lock>)
  {
    forall i, j :: 0 <= i < j < |locks| ==> LockBefore(locks[i], locks[j])
  }

  function LocksOf(domain: LockDomain, keys: seq<string>): (locks: seq<Lock>)
    ensures |locks| == |keys| && forall i :: 0 <= i < |keys| ==> locks[i] == Lock(domain, keys[i])
  {
    seq(|keys|, i requires 0 <= i < |keys| => Lock(domain, keys[i]))
  }

  /** Along a plan, the locks of each domain in the order of its keys. */
  function Requests(plan: seq<LockDomain>, keys: LockDomain -> seq<string>): seq<Lock>
  {
    if plan == [] then [] else LocksOf(plan[0], keys(plan[0])) + Requests(plan[1..], keys)
  }

  /** A transaction takes one lock of a domain, or the ordered cutover keys. */
  ghost predicate KeysOk(keys: LockDomain -> seq<string>)
  {
    forall d :: KeysAscend(keys(d))
  }

  lemma {:induction false} RequestDomain(plan: seq<LockDomain>, keys: LockDomain -> seq<string>, lock: Lock)
    requires lock in Requests(plan, keys)
    ensures lock.domain in plan
  {
    if lock in Requests(plan[1..], keys) { RequestDomain(plan[1..], keys, lock); }
  }

  /** An accepted plan with ordered keys asks for its locks in the global order. */
  lemma {:induction false} RequestsAscend(plan: seq<LockDomain>, keys: LockDomain -> seq<string>)
    requires Ascending(plan) && KeysOk(keys)
    ensures LocksAscend(Requests(plan, keys))
  {
    if plan != [] {
      var first, rest := LocksOf(plan[0], keys(plan[0])), Requests(plan[1..], keys);
      RequestsAscend(plan[1..], keys);
      assert KeysAscend(keys(plan[0]));
      forall i, j | 0 <= i < |first| && 0 <= j < |rest|
        ensures LockBefore(first[i], rest[j])
      {
        assert rest[j] in rest;
        RequestDomain(plan[1..], keys, rest[j]);
        var k :| 0 <= k < |plan[1..]| && plan[1..][k] == rest[j].domain;
        assert plan[k + 1] == rest[j].domain;
      }
      hide Ascending, Rank;
      assert LocksAscend(first) && LocksAscend(rest);
      JoinAscends(first, rest);
    }
  }

  lemma JoinAscends(first: seq<Lock>, rest: seq<Lock>)
    requires LocksAscend(first) && LocksAscend(rest)
    requires forall i, j :: 0 <= i < |first| && 0 <= j < |rest| ==> LockBefore(first[i], rest[j])
    ensures LocksAscend(first + rest)
  {
    hide LockBefore;
    var all := first + rest;
    forall i, j | 0 <= i < j < |all|
      ensures LockBefore(all[i], all[j])
    {
      if i < |first| <= j { assert LockBefore(first[i], rest[j - |first|]); }
    }
  }
}
