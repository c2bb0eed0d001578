/** Any number of transactions, each taking its locks in the order of `Locks.Requests` and giving
    them all back at its end. */
module Deadlock {
  import opened Texts
  import opened Locks

  /** `held` locks are taken; the transaction waits for the next one, and ends after the last. */
  datatype Transaction = Transaction(locks: seq<Lock>, held: nat, ended: bool)

  type System = seq<Transaction>

  predicate Holds(t: Transaction, lock: Lock)
  {
    !t.ended && t.held <= |t.locks| && lock in t.locks[..t.held]
  }

  predicate Waits(t: Transaction)
  {
    !t.ended && t.held < |t.locks|
  }

  predicate Free(s: System, lock: Lock)
  {
    forall i :: 0 <= i < |s| ==> !Holds(s[i], lock)
  }

  /** Transaction `i` can take its next lock, or end. */
  predicate CanStep(s: System, i: nat)
  {
    i < |s| && !s[i].ended && (s[i].held >= |s[i].locks| || Free(s, s[i].locks[s[i].held]))
  }

  function Step(s: System, i: nat): (s': System)
    requires CanStep(s, i)
    ensures |s'| == |s|
  {
    s[i := if s[i].held < |s[i].locks| then s[i].(held := s[i].held + 1) else s[i].(ended := true)]
  }

  /** Each transaction asks for locks in the global order, and no lock is held twice. */
  ghost predicate SystemOk(s: System)
  {
    (forall i :: 0 <= i < |s| ==> LocksAscend(s[i].locks) && s[i].held <= |s[i].locks|) &&
    forall i, j, lock :: 0 <= i < j < |s| && Holds(s[i], lock) ==> !Holds(s[j], lock)
  }

  ghost predicate IsSchedule(turns: seq<nat>, states: seq<System>)
  {
    |states| == |turns| + 1 &&
    forall k :: 0 <= k < |turns| ==> CanStep(states[k], turns[k]) && states[k + 1] == Step(states[k], turns[k])
  }

  // ---------------------------------------------------------------- no circle of waiting

  /** `t` waits for a lock that `u` holds. */
  predicate WaitsFor(t: Transaction, u: Transaction)
  {
    Waits(t) && Holds(u, t.locks[t.held])
  }

  function Wanted(t: Transaction): Lock
    requires Waits(t)
  {
    t.locks[t.held]
  }

  /** Whoever holds the lock another one waits for waits, if at all, for a later lock. */
  lemma WaitingRises(t: Transaction, u: Transaction)
    requires LocksAscend(u.locks) && WaitsFor(t, u) && Waits(u)
    ensures LockBefore(Wanted(t), Wanted(u))
  {
    hide LockBefore;
    var lock := t.locks[t.held];
    var k :| 0 <= k < |u.locks[..u.held]| && u.locks[..u.held][k] == lock;
    assert u.locks[k] == lock;
  }

  /** `chain[k]` waits for `chain[k + 1]`. */
  predicate Link(s: System, chain: seq<nat>, k: nat)
  {
    k + 1 < |chain| && chain[k] < |s| && chain[k + 1] < |s| && WaitsFor(s[chain[k]], s[chain[k + 1]])
  }

  ghost predicate WaitChain(s: System, chain: seq<nat>)
  {
    (forall k :: 0 <= k < |chain| ==> chain[k] < |s|) &&
    forall k: nat :: k + 1 < |chain| ==> Link(s, chain, k)
  }

  lemma {:induction false} ChainRises(s: System, chain: seq<nat>)
    requires SystemOk(s) && WaitChain(s, chain) && |chain| >= 2 && Waits(s[chain[|chain| - 1]])
    ensures Waits(s[chain[0]]) && LockBefore(Wanted(s[chain[0]]), Wanted(s[chain[|chain| - 1]]))
  {
    hide LockBefore, Holds;
    var a, b := s[chain[0]], s[chain[1]];
    assert Link(s, chain, 0);
    if |chain| == 2 {
      WaitingRises(a, b);
    } else {
      var rest := chain[1..];
      ChainTail(s, chain);
      ChainRises(s, rest);
      WaitingRises(a, b);
      LockBeforeTransitive(Wanted(a), Wanted(b), Wanted(s[chain[|chain| - 1]]));
    }
  }

  lemma ChainTail(s: System, chain: seq<nat>)
    requires WaitChain(s, chain) && |chain| >= 2
    ensures WaitChain(s, chain[1..])
  {
    hide WaitsFor;
    var rest := chain[1..];
    forall k: nat | k + 1 < |rest|
      ensures Link(s, rest, k)
    {
      assert Link(s, chain, k + 1);
    }
  }

  /** No transaction waits, directly or through others, for itself. */
  lemma NoWaitCycle(s: System, chain: seq<nat>)
    requires SystemOk(s) && |chain| >= 2 && chain[0] == chain[|chain| - 1]
    ensures !WaitChain(s, chain)
  {
    hide LockBefore, Holds, SystemOk;
    if WaitChain(s, chain) {
      assert Link(s, chain, 0);
      ChainRises(s, chain);
      LockBeforeIrreflexive(Wanted(s[chain[0]]));
    }
  }

  // ---------------------------------------------------------------- progress

  /** While a transaction is unfinished, some transaction can step. */
  lemma SomeoneCanStep(s: System)
    requires SystemOk(s) && exists i :: 0 <= i < |s| && !s[i].ended
    ensures exists i: nat :: CanStep(s, i)
  {
    hide SystemOk, CanStep;
    var i :| 0 <= i < |s| && !s[i].ended;
    EndsOrLast(s, i);
    if !CanStep(s, i) {
      var last := LastWaiter(s, |s|);
      HolderSteps(s, last);
    }
  }

  lemma EndsOrLast(s: System, i: nat)
    requires i < |s| && !s[i].ended
    ensures CanStep(s, i) || Waits(s[i])
  {
  }

  /** Among the first `n` transactions that wait, one wants the last lock. */
  lemma {:induction false} LastWaiter(s: System, n: nat) returns (last: nat)
    requires n <= |s| && exists i :: 0 <= i < n && Waits(s[i])
    ensures last < n && Waits(s[last])
    ensures forall j :: 0 <= j < n && Waits(s[j]) ==> Wanted(s[j]) == Wanted(s[last]) || LockBefore(Wanted(s[j]), Wanted(s[last]))
  {
    hide LockBefore, Waits;
    if i :| 0 <= i < n - 1 && Waits(s[i]) {
      last := LastWaiter(s, n - 1);
      if Waits(s[n - 1]) {
        LockBeforeTotal(Wanted(s[n - 1]), Wanted(s[last]));
        if LockBefore(Wanted(s[last]), Wanted(s[n - 1])) {
          forall j | 0 <= j < n && Waits(s[j])
            ensures Wanted(s[j]) == Wanted(s[n - 1]) || LockBefore(Wanted(s[j]), Wanted(s[n - 1]))
          {
            if j < n - 1 && Wanted(s[j]) != Wanted(s[last]) { LockBeforeTransitive(Wanted(s[j]), Wanted(s[last]), Wanted(s[n - 1])); }
          }
          last := n - 1;
        }
      }
    } else {
      last := n - 1;
    }
  }

  /** The lock that comes last of all that are waited for is free, or its holder can end. */
  lemma HolderSteps(s: System, last: nat)
    requires SystemOk(s) && last < |s| && Waits(s[last])
    requires forall j :: 0 <= j < |s| && Waits(s[j]) ==> Wanted(s[j]) == Wanted(s[last]) || LockBefore(Wanted(s[j]), Wanted(s[last]))
    ensures exists i: nat :: CanStep(s, i)
  {
    hide LockBefore, LocksAscend;
    var lock := Wanted(s[last]);
    if Free(s, lock) {
      assert CanStep(s, last);
    } else {
      var h :| 0 <= h < |s| && Holds(s[h], lock);
      if Waits(s[h]) {
        WaitingRises(s[last], s[h]);
        LockBeforeIrreflexive(lock);
        if LockBefore(Wanted(s[h]), lock) { LockBeforeTransitive(lock, Wanted(s[h]), lock); }
      }
      assert CanStep(s, h);
    }
  }

  // ---------------------------------------------------------------- whole schedules

  lemma StepKeeps(s: System, i: nat)
    requires SystemOk(s) && CanStep(s, i)
    ensures SystemOk(Step(s, i))
  {
    hide LocksAscend;
    var s' := Step(s, i);
    forall a, b, lock | 0 <= a < b < |s'| && Holds(s'[a], lock)
      ensures !Holds(s'[b], lock)
    {
      HoldsAfter(s, i, a, lock);
      HoldsAfter(s, i, b, lock);
      hide Holds;
    }
  }

  /** What is held after a step was held before, or is the lock just taken, which was free. */
  lemma HoldsAfter(s: System, i: nat, a: nat, lock: Lock)
    requires CanStep(s, i) && a < |s|
    ensures Holds(Step(s, i)[a], lock) ==> Holds(s[a], lock) || (a == i && Free(s, lock))
  {
    if a == i && s[i].held < |s[i].locks| {
      var t := s[i];
      assert t.locks[..t.held + 1] == t.locks[..t.held] + [t.locks[t.held]];
    }
  }

  /** What is left to do: locks to take, and one end each. */
  function Work(s: System): nat
  {
    if s == [] then 0 else (if s[0].ended then 0 else 1 + (if s[0].held <= |s[0].locks| then |s[0].locks| - s[0].held else 0)) + Work(s[1..])
  }

  lemma {:induction false} StepDoesWork(s: System, i: nat)
    requires CanStep(s, i)
    ensures Work(Step(s, i)) + 1 == Work(s)
  {
    var s' := Step(s, i);
    if i == 0 {
      assert s'[1..] == s[1..];
    } else {
      var t := s'[i];
      assert s'[1..] == s[1..][i - 1 := t];
      TailWork(s[1..], i - 1, t);
    }
  }

  /** Replacing one transaction changes the work by that transaction's work. */
  lemma {:induction false} TailWork(s: System, i: nat, t: Transaction)
    requires i < |s|
    ensures Work(s[i := t]) - Work([t]) == Work(s) - Work([s[i]])
  {
    assert [t][1..] == [] && [s[i]][1..] == [];
    if i == 0 {
      assert s[i := t][1..] == s[1..];
    } else {
      assert s[i := t][1..] == s[1..][i - 1 := t];
      TailWork(s[1..], i - 1, t);
    }
  }

  /** Every schedule does at most the work there is; one that can go no further has ended every
      transaction. */
  lemma {:induction false} SchedulesFinish(turns: seq<nat>, states: seq<System>)
    requires IsSchedule(turns, states) && SystemOk(states[0])
    ensures SystemOk(states[|turns|]) && |turns| + Work(states[|turns|]) == Work(states[0])
    ensures (forall i: nat :: !CanStep(states[|turns|], i)) ==> forall i :: 0 <= i < |states[|turns|]| ==> states[|turns|][i].ended
    decreases |turns|
  {
    hide SystemOk, CanStep, Work;
    var n := |turns|;
    if n > 0 {
      assert CanStep(states[n - 1], turns[n - 1]) && states[n] == Step(states[n - 1], turns[n - 1]);
      assert IsSchedule(turns[..n - 1], states[..n]);
      SchedulesFinish(turns[..n - 1], states[..n]);
      StepKeeps(states[n - 1], turns[n - 1]);
      StepDoesWork(states[n - 1], turns[n - 1]);
    }
    if exists i :: 0 <= i < |states[n]| && !states[n][i].ended {
      SomeoneCanStep(states[n]);
    }
  }

  /** Transactions about to start, each along an accepted plan with ordered keys. */
  ghost predicate Planned(s: System)
  {
    forall i :: 0 <= i < |s| ==> s[i].held == 0 && !s[i].ended && FollowsPlan(s[i].locks)
  }

  ghost predicate FollowsPlan(locks: seq<Lock>)
  {
    exists plan, keys :: Ascending(plan) && KeysOk(keys) && locks == Requests(plan, keys)
  }

  /** One lock in every domain, and the cutover keys in their order. */
  function CutoverKeys(single: LockDomain -> string, ordered: seq<string>): LockDomain -> seq<string>
  {
    (d: LockDomain) => if d == ObjectTypeCutover then ordered else [single(d)]
  }

  /** A transaction along an accepted plan that takes the keys `orderedObjectTypeCutoverKeys` returns
      follows its plan. */
  lemma CutoverFollowsPlan(plan: seq<LockDomain>, keys: seq<string>, single: LockDomain -> string)
    requires Ascending(plan) && OrderedCutoverKeys(keys).Some?
    ensures FollowsPlan(Requests(plan, CutoverKeys(single, OrderedCutoverKeys(keys).value)))
  {
    hide Ascending, OrderedCutoverKeys;
    CutoverKeysAscend(keys);
    var chosen := CutoverKeys(single, OrderedCutoverKeys(keys).value);
    forall d
      ensures KeysAscend(chosen(d))
    {
    }
    assert KeysOk(chosen);
  }

  /** Any number of transactions along the repository's plans, with any cutover keys, never deadlock. */
  lemma RepositoryNeverDeadlocks(turns: seq<nat>, states: seq<System>, chain: seq<nat>)
    requires IsSchedule(turns, states)
    requires forall i :: 0 <= i < |states[0]| ==> states[0][i].held == 0 && !states[0][i].ended && IsTransaction(states[0][i].locks)
    ensures |chain| >= 2 && chain[0] == chain[|chain| - 1] ==> !WaitChain(states[|turns|], chain)
    ensures (exists i :: 0 <= i < |states[|turns|]| && !states[|turns|][i].ended) ==> exists i: nat :: CanStep(states[|turns|], i)
  {
    hide FollowsPlan, IsTransaction, CanStep, WaitChain, Step;
    forall i | 0 <= i < |states[0]|
      ensures FollowsPlan(states[0][i].locks)
    {
      TransactionIsPlanned(states[0][i].locks);
    }
    PlansNeverDeadlock(turns, states, chain);
  }

  /** The locks of a transaction of the repository: one of its plans, with ordered cutover keys. */
  ghost predicate IsTransaction(locks: seq<Lock>)
  {
    exists plan, keys, single :: TakesLocks(plan, keys, single, locks)
  }

  ghost predicate TakesLocks(plan: seq<LockDomain>, keys: seq<string>, single: LockDomain -> string, locks: seq<Lock>)
  {
    plan in [PublishPlan, SnapshotCutoverPlan, RuntimePublishPlan, MaterializationCutoverPlan, GcCommitPlan] &&
    OrderedCutoverKeys(keys).Some? && locks == Requests(plan, CutoverKeys(single, OrderedCutoverKeys(keys).value))
  }

  lemma TransactionIsPlanned(locks: seq<Lock>)
    requires IsTransaction(locks)
    ensures FollowsPlan(locks)
  {
    hide Ascending, OrderedCutoverKeys, FollowsPlan, Requests;
    var plan, keys, single :| TakesLocks(plan, keys, single, locks);
    PlansAscend();
    CutoverFollowsPlan(plan, keys, single);
  }

  lemma PlannedIsOk(s: System)
    requires Planned(s)
    ensures SystemOk(s)
  {
    hide LocksAscend, Ascending;
    forall i | 0 <= i < |s|
      ensures LocksAscend(s[i].locks)
    {
      var plan, keys :| Ascending(plan) && KeysOk(keys) && s[i].locks == Requests(plan, keys);
      RequestsAscend(plan, keys);
    }
  }

  /** From the start, whatever the schedule: nobody ever waits in a circle, and as long as one
      transaction is unfinished, one can step. */
  lemma PlansNeverDeadlock(turns: seq<nat>, states: seq<System>, chain: seq<nat>)
    requires IsSchedule(turns, states) && Planned(states[0])
    ensures |chain| >= 2 && chain[0] == chain[|chain| - 1] ==> !WaitChain(states[|turns|], chain)
    ensures (exists i :: 0 <= i < |states[|turns|]| && !states[|turns|][i].ended) ==> exists i: nat :: CanStep(states[|turns|], i)
  {
    hide SystemOk, CanStep, WaitChain, Planned, Work;
    PlannedIsOk(states[0]);
    SchedulesFinish(turns, states);
    var s := states[|turns|];
    if |chain| >= 2 && chain[0] == chain[|chain| - 1] { NoWaitCycle(s, chain); }
    if exists i :: 0 <= i < |s| && !s[i].ended { SomeoneCanStep(s); }
  }
}
