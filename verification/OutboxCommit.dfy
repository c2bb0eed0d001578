/** Committing a business transaction: the batch goes in whole, behind everything its streams
    already hold, and a repeat is recognised by the multiset of its event definitions. */
module OutboxCommit {
  import opened Texts
  import opened DurableWork
  import opened Outbox
  import opened OutboxInvariants
  import opened OutboxSteps
  import Encodings

  /** Event `x` is pending and the log only says it was committed. */
  ghost predicate Untouched(s: State, x: string)
  {
    x in s.events && s.events[x].state == Pending &&
    forall i :: 0 <= i < |s.audit| && s.audit[i].workId == x ==> s.audit[i].kind == Committed
  }

  ghost predicate MayStore(s: State, e: Event)
  {
    e.def.id !in s.events && PositionOf(e) !in s.positions &&
    forall x :: x in s.events && StreamOf(s.events[x]) == StreamOf(e) ==> Before(s.events[x].def, e.def) || Untouched(s, x)
  }

  predicate IsNew(e: Event)
  {
    e.state == Pending && e.lease.None? && e.nextFencingToken == 1 && e.replayCycle == 0 && e.replayCount == 0 &&
    e.attemptsInCycle == 0 && e.totalAttempts == 0
  }

  lemma StoreOrder(s: State, e: Event, x: string)
    requires MayStore(s, e) && IdsOk(s.events) && x in s.events && !Untouched(s, x)
    requires PredecessorsDelivered(s.events, s.events[x])
    ensures PredecessorsDelivered(s.events[e.def.id := e], s.events[x])
  {
    if StreamOf(s.events[x]) == StreamOf(e) {
      BeforeTotal(s.events[x].def, e.def);
    }
  }

  lemma StoreAudit(p: RetryPolicy, s: State, e: Event)
    requires Inv(p, s) && MayStore(s, e) && IsNew(e)
    ensures AuditOk(Store(s, e).events, Store(s, e).audit)
  {
    var s' := Store(s, e);
    hide EventsOk, AttemptsOk, CountsOk, OrderOk, PositionsOk, TransactionsOk;
    IdsAreKeys(p, s);
    forall i | 0 <= i < |s'.audit|
      ensures RecordOk(s'.events, i, s'.audit[i])
    {
      if i < |s.audit| {
        var r := s.audit[i];
        assert s'.audit[i] == r && RecordOk(s.events, i, r);
        if r.kind == DeliveryStarted || r.kind == DeliveryAcknowledged {
          assert !Untouched(s, r.workId);
          StoreOrder(s, e, r.workId);
        }
      }
    }
    forall i, j | 0 <= i < j < |s'.audit|
      ensures InOrder(s'.events, s'.audit[i], s'.audit[j])
    {
      assert RecordOk(s.events, i, s.audit[i]);
      if j < |s.audit| {
        assert InOrder(s.events, s.audit[i], s.audit[j]) && RecordOk(s.events, j, s.audit[j]);
      }
    }
    forall x | x in s'.events && s'.events[x].state == Delivered
      ensures AckedIn(s'.audit, x)
    {
      var i :| 0 <= i < |s.audit| && s.audit[i].kind == DeliveryAcknowledged && s.audit[i].workId == x;
      assert s'.audit[i] == s.audit[i];
    }
  }

  lemma StoreOrders(p: RetryPolicy, s: State, e: Event)
    requires Inv(p, s) && MayStore(s, e) && IsNew(e)
    ensures OrderOk(Store(s, e).events)
  {
    hide AttemptsOk, CountsOk, PositionsOk, TransactionsOk, AuditOk;
    var s' := Store(s, e);
    IdsAreKeys(p, s);
    forall x | x in s'.events && Advanced(s'.events[x])
      ensures PredecessorsDelivered(s'.events, s'.events[x])
    {
      StoreOrder(s, e, x);
    }
  }

  lemma StorePositions(s: State, e: Event)
    requires PositionsOk(s.events, s.positions) && MayStore(s, e)
    ensures PositionsOk(Store(s, e).events, Store(s, e).positions)
  {
  }

  lemma StoreIndexes(p: RetryPolicy, s: State, e: Event)
    requires Inv(p, s) && MayStore(s, e) && IsNew(e)
    ensures PositionsOk(Store(s, e).events, Store(s, e).positions) && TransactionsOk(Store(s, e).events, s.transactions)
  {
    hide EventsOk, AttemptsOk, CountsOk, OrderOk, AuditOk;
    assert PositionsOk(Store(s, e).events, Store(s, e).positions) by { StorePositions(s, e); }
    hide PositionsOk, MayStore;
    forall t | t in s.transactions
      ensures ListedUnder(Store(s, e).events, t, s.transactions[t].eventIds)
    {
      assert ListedUnder(s.events, t, s.transactions[t].eventIds);
    }
  }

  lemma StoreAttempts(p: RetryPolicy, s: State, e: Event)
    requires Inv(p, s) && MayStore(s, e) && IsNew(e) && p.Valid()
    ensures EventsOk(p, Store(s, e).events)
    ensures AttemptsOk(Store(s, e).events, s.attempts) && CountsOk(Store(s, e).events, s.attempts)
  {
    hide OrderOk, PositionsOk, TransactionsOk, AuditOk, CycleBudget;
    NoBudget(p.maximumAttemptsPerCycle);
    var events' := Store(s, e).events;
    assert EventsOk(p, events') && events' == s.events[e.def.id := e];
    hide EventsOk, EventOk, IsNew, Store;
    NewHasNoAttempts(s.events, s.attempts, e);
  }

  lemma NewHasNoAttempts(events: Events, attempts: Attempts, e: Event)
    requires AttemptsOk(events, attempts) && CountsOk(events, attempts) && e.def.id !in events && e.totalAttempts == 0 && e.lease.None?
    ensures AttemptsOk(events[e.def.id := e], attempts) && CountsOk(events[e.def.id := e], attempts)
  {
    hide AttemptOk;
    assert AttemptsOf(attempts, e.def.id) == {};
  }

  lemma StoreKeeps(p: RetryPolicy, s: State, e: Event)
    requires Inv(p, s) && MayStore(s, e) && IsNew(e) && p.Valid()
    ensures Inv(p, Store(s, e))
  {
    StoreAttempts(p, s, e);
    StoreOrders(p, s, e);
    StoreIndexes(p, s, e);
    StoreAudit(p, s, e);
  }

  // ---------------------------------------------------------------- the batch

  lemma {:induction false} EachIsClean(s: State, input: CommitInput, k: nat, j: nat)
    requires k <= j < |input.events| && BatchError(s, input, k).None?
    ensures EventError(s, input, input.events[..j], input.events[j]).None?
    decreases j - k
  {
    if k < j { EachIsClean(s, input, k + 1, j); }
  }

  /** What an error-free check says about event `j` of the batch. */
  lemma CleanFacts(s: State, input: CommitInput, j: nat)
    requires j < |input.events| && BatchError(s, input, 0).None?
    ensures
      var e := input.events[j];
      var record := NewRecord(input, e);
      ValidNewEvent(e) && e.id !in s.events && PositionOf(record) !in s.positions &&
      (forall i :: 0 <= i < j ==> input.events[i].id != e.id && PositionOf(NewRecord(input, input.events[i])) != PositionOf(record)) &&
      forall x :: x in s.events && StreamOf(s.events[x]) == StreamOf(record) ==> s.events[x].def.changeSetSequence < e.changeSetSequence
  {
    EachIsClean(s, input, 0, j);
    forall i | 0 <= i < j
      ensures input.events[i] in input.events[..j]
    {
      assert input.events[..j][i] == input.events[i];
    }
  }

  /** After `k` stores the state is the old one plus exactly the first `k` events. */
  ghost predicate HoldsFirst(s: State, t: State, input: CommitInput, k: nat)
    requires k <= |input.events|
  {
    t.attempts == s.attempts && t.transactions == s.transactions && s.audit <= t.audit &&
    (forall x :: x in s.events ==> x in t.events && t.events[x] == s.events[x]) &&
    StoredFirst(t, input, k) && OnlyFirst(s, t, input, k)
  }

  ghost predicate StoredFirst(t: State, input: CommitInput, k: nat)
    requires k <= |input.events|
  {
    forall i :: 0 <= i < k ==> IsStored(t, NewRecord(input, input.events[i]))
  }

  ghost predicate IsStored(t: State, e: Event)
  {
    e.def.id in t.events && t.events[e.def.id] == e && Untouched(t, e.def.id)
  }

  ghost predicate OnlyFirst(s: State, t: State, input: CommitInput, k: nat)
    requires k <= |input.events|
  {
    (forall x :: x in t.events && x !in s.events ==> IdAmong(input, k, x)) &&
    (forall q :: q in t.positions && q !in s.positions ==> PositionAmong(input, k, q))
  }

  ghost predicate IdAmong(input: CommitInput, k: nat, x: string)
    requires k <= |input.events|
  {
    exists i :: 0 <= i < k && input.events[i].id == x
  }

  ghost predicate PositionAmong(input: CommitInput, k: nat, q: Position)
    requires k <= |input.events|
  {
    exists i :: 0 <= i < k && PositionOf(NewRecord(input, input.events[i])) == q
  }

  lemma NextMayStore(p: RetryPolicy, s: State, t: State, input: CommitInput, k: nat)
    requires Inv(p, t) && k < |input.events| && BatchError(s, input, 0).None? && HoldsFirst(s, t, input, k)
    ensures MayStore(t, NewRecord(input, input.events[k]))
  {
    hide Inv;
    CleanFacts(s, input, k);
    var e := NewRecord(input, input.events[k]);
    forall x | x in t.events && StreamOf(t.events[x]) == StreamOf(e)
      ensures Before(t.events[x].def, e.def) || Untouched(t, x)
    {
      if x in s.events {
        assert t.events[x] == s.events[x];
      } else {
        var i :| 0 <= i < k && input.events[i].id == x;
        assert IsStored(t, NewRecord(input, input.events[i]));
      }
    }
  }

  lemma StoreHolds(p: RetryPolicy, s: State, t: State, input: CommitInput, k: nat)
    requires k < |input.events| && HoldsFirst(s, t, input, k) && MayStore(t, NewRecord(input, input.events[k]))
    requires Inv(p, t)
    ensures HoldsFirst(s, Store(t, NewRecord(input, input.events[k])), input, k + 1)
  {
    hide Inv, Untouched, OnlyFirst;
    var e := NewRecord(input, input.events[k]);
    forall i | 0 <= i < k + 1
      ensures IsStored(Store(t, e), NewRecord(input, input.events[i]))
    {
      assert i < k ==> IsStored(t, NewRecord(input, input.events[i]));
      StaysUntouched(p, t, e, input.events[i].id);
    }
    StoreOnly(s, t, input, k);
  }

  lemma StoreOnly(s: State, t: State, input: CommitInput, k: nat)
    requires k < |input.events| && OnlyFirst(s, t, input, k)
    ensures OnlyFirst(s, Store(t, NewRecord(input, input.events[k])), input, k + 1)
  {
  }

  lemma StaysUntouched(p: RetryPolicy, t: State, e: Event, x: string)
    requires Inv(p, t) && MayStore(t, e) && e.state == Pending && (x == e.def.id || Untouched(t, x))
    ensures Untouched(Store(t, e), x)
  {
    hide EventsOk, AttemptsOk, CountsOk, OrderOk, PositionsOk, TransactionsOk;
    var u := Store(t, e);
    forall j | 0 <= j < |u.audit| && u.audit[j].workId == x
      ensures u.audit[j].kind == Committed
    {
      if j < |t.audit| {
        assert RecordOk(t.events, j, t.audit[j]);
        assert u.audit[j] == t.audit[j] && x != e.def.id;
      }
    }
  }

  lemma NothingStored(s: State, input: CommitInput)
    ensures HoldsFirst(s, s, input, 0)
  {
  }

  lemma {:induction false} BatchKeeps(p: RetryPolicy, s: State, input: CommitInput, k: nat)
    requires p.Valid() && Inv(p, s) && k <= |input.events| && BatchError(s, input, 0).None?
    ensures Inv(p, StoreFirst(s, input, k)) && HoldsFirst(s, StoreFirst(s, input, k), input, k)
  {
    hide Inv, HoldsFirst, MayStore, BatchError;
    NothingStored(s, input);
    if k > 0 {
      var t, e := StoreFirst(s, input, k - 1), NewRecord(input, input.events[k - 1]);
      BatchKeeps(p, s, input, k - 1);
      NextMayStore(p, s, t, input, k - 1);
      StoreKeeps(p, t, e);
      StoreHolds(p, s, t, input, k - 1);
    }
  }

  lemma BatchGrew(s: State, t: State, input: CommitInput)
    requires HoldsFirst(s, t, input, |input.events|) && BatchError(s, input, 0).None?
    ensures EventsGrew(s.events, t.events) && t.attempts == s.attempts && t.transactions == s.transactions && s.audit <= t.audit
    ensures ListedUnder(t.events, input.transactionId, Ids(input.events))
  {
    forall id, x | id in s.events && x in t.events && x !in s.events && StreamOf(t.events[x]) == StreamOf(s.events[id])
      ensures Before(s.events[id].def, t.events[x].def)
    {
      var i :| 0 <= i < |input.events| && input.events[i].id == x;
      assert IsStored(t, NewRecord(input, input.events[i]));
      CleanFacts(s, input, i);
    }
    forall i | 0 <= i < |input.events|
      ensures input.events[i].id in t.events && t.events[input.events[i].id].transactionId == input.transactionId
    {
      assert IsStored(t, NewRecord(input, input.events[i]));
    }
  }

  lemma Record(events: Events, transactions: map<string, Transaction>, id: string, t: Transaction)
    requires TransactionsOk(events, transactions) && ListedUnder(events, id, t.eventIds)
    ensures TransactionsOk(events, transactions[id := t])
  {
  }

  lemma CommitKeeps(p: RetryPolicy, s: State, input: CommitInput)
    requires p.Valid() && Inv(p, s)
    ensures Keeps(p, s, Commit(s, input).0)
  {
    hide EventsOk, AttemptsOk, CountsOk, OrderOk, PositionsOk, AuditOk, TransactionsOk, EventsGrew, BatchError, HoldsFirst, ListedUnder, Signature, Ids, NewRecords, StoreFirst, Fetch;
    KeepsSelf(p, s);
    if ValidInput(input) && input.transactionId !in s.transactions && BatchError(s, input, 0).None? {
      var n := |input.events|;
      var t := StoreFirst(s, input, n);
      BatchKeeps(p, s, input, n);
      BatchGrew(s, t, input);
      Record(t.events, t.transactions, input.transactionId,
             Transaction(input.digest, Signature(input.events), Ids(input.events), input.now));
    }
  }

  // ---------------------------------------------------------------- idempotency

  lemma EncodeInjective(a: NewEvent, b: NewEvent)
    ensures Encode(a) == Encode(b) <==> a == b
  {
    var l := [a.id, a.actionExecutionId, a.changeSetId, Encodings.IntText(a.changeSetSequence),
              Encodings.IntText(a.eventOrdinal), a.objectRid, a.destinationId, a.eventType,
              a.payloadSchemaVersion, a.payloadDigest, a.actorId];
    var r := [b.id, b.actionExecutionId, b.changeSetId, Encodings.IntText(b.changeSetSequence),
              Encodings.IntText(b.eventOrdinal), b.objectRid, b.destinationId, b.eventType,
              b.payloadSchemaVersion, b.payloadDigest, b.actorId];
    Encodings.JsonStringsInjective(l, r);
    Encodings.IntTextInjective(a.changeSetSequence, b.changeSetSequence);
    Encodings.IntTextInjective(a.eventOrdinal, b.eventOrdinal);
    assert l == r ==> forall i :: 0 <= i < 11 ==> l[i] == r[i];
    if l == r {
      assert l[0] == r[0] && l[1] == r[1] && l[2] == r[2] && l[3] == r[3] && l[4] == r[4] && l[5] == r[5];
      assert l[6] == r[6] && l[7] == r[7] && l[8] == r[8] && l[9] == r[9] && l[10] == r[10];
    }
  }

  /** Multiplicities survive an injective encoding. */
  lemma {:induction false} EncodeCount(events: seq<NewEvent>, e: NewEvent)
    ensures multiset(EncodeEach(events))[Encode(e)] == multiset(events)[e]
  {
    if events != [] {
      EncodeCount(events[1..], e);
      EncodeInjective(events[0], e);
      assert events == [events[0]] + events[1..];
    }
  }

  lemma {:induction false} EncodedFrom(events: seq<NewEvent>, t: string)
    requires t in multiset(EncodeEach(events))
    ensures exists e :: e in events && Encode(e) == t
  {
    if t == Encode(events[0]) {
      assert events[0] in events;
    } else {
      EncodedFrom(events[1..], t);
      var e :| e in events[1..] && Encode(e) == t;
      assert e in events;
    }
  }

  lemma SameTexts(a: seq<NewEvent>, b: seq<NewEvent>)
    requires multiset(a) == multiset(b)
    ensures multiset(EncodeEach(a)) == multiset(EncodeEach(b))
  {
    forall t: string
      ensures multiset(EncodeEach(a))[t] == multiset(EncodeEach(b))[t]
    {
      if t in multiset(EncodeEach(a)) {
        EncodedFrom(a, t);
        var e :| e in a && Encode(e) == t;
        EncodeCount(a, e);
        EncodeCount(b, e);
      } else if t in multiset(EncodeEach(b)) {
        EncodedFrom(b, t);
        var e :| e in b && Encode(e) == t;
        EncodeCount(a, e);
        EncodeCount(b, e);
      }
    }
  }

  /** The signature of a transaction is the multiset of its event definitions: reordering the
      events keeps it, and any other change alters it. */
  lemma SignatureIsMultiset(a: seq<NewEvent>, b: seq<NewEvent>)
    ensures Signature(a) == Signature(b) <==> multiset(a) == multiset(b)
  {
    var x, y := EncodeEach(a), EncodeEach(b);
    SortSorts(x);
    SortSorts(y);
    Encodings.JsonStringsInjective(Sort(x), Sort(y));
    if multiset(a) == multiset(b) {
      SameTexts(a, b);
      SortedUnique(Sort(x), Sort(y));
    }
    if Sort(x) == Sort(y) {
      forall e: NewEvent
        ensures multiset(a)[e] == multiset(b)[e]
      {
        EncodeCount(a, e);
        EncodeCount(b, e);
      }
    }
  }

  /** The text of `streamPositionKey`. */
  function PositionText(q: Position): string
  {
    "[" + Encodings.StringsThenInt(
      [q.stream.projectId, q.stream.destinationId, q.stream.objectRid, Encodings.IntText(q.changeSetSequence)], q.eventOrdinal)
  }

  /** Two positions share a key text exactly when they are the same position. */
  lemma PositionKeyInjective(q: Position, r: Position)
    ensures PositionText(q) == PositionText(r) <==> q == r
  {
    hide Encodings.StringsThenInt, Encodings.IntText;
    var a := [q.stream.projectId, q.stream.destinationId, q.stream.objectRid, Encodings.IntText(q.changeSetSequence)];
    var b := [r.stream.projectId, r.stream.destinationId, r.stream.objectRid, Encodings.IntText(r.changeSetSequence)];
    assert PositionText(q)[1..] == Encodings.StringsThenInt(a, q.eventOrdinal) && PositionText(r)[1..] == Encodings.StringsThenInt(b, r.eventOrdinal);
    Encodings.StringsThenIntInjective(a, q.eventOrdinal, b, r.eventOrdinal);
    Encodings.IntTextInjective(q.changeSetSequence, r.changeSetSequence);
    if a == b { assert a[0] == b[0] && a[1] == b[1] && a[2] == b[2] && a[3] == b[3]; }
  }
}
