/** What a commit and a run of the lease reaper come to, event by event: which batch is refused and why,
    what each stored event looks like, and which events the reaper changes into what. */
module OutboxBatchMeaning {
  import opened Texts
  import opened DurableWork
  import opened DurableMeaning
  import opened Outbox
  import opened OutboxInvariants
  import opened OutboxSteps
  import opened OutboxCommit
  import opened OutboxTime
  import opened OutboxMeaning

  // ---------------------------------------------------------------- commit

  /** All texts are given and the numbers are in their ranges. */
  predicate Given(e: NewEvent)
  {
    !Blank(e.id) && !Blank(e.actionExecutionId) && !Blank(e.changeSetId) && !Blank(e.objectRid) && !Blank(e.destinationId) &&
    !Blank(e.eventType) && !Blank(e.payloadSchemaVersion) && !Blank(e.payloadDigest) && !Blank(e.actorId) &&
    0 <= e.changeSetSequence <= 9223372036854775807 && Safe(e.eventOrdinal)
  }

  predicate SamePlace(a: NewEvent, b: NewEvent)
  {
    a.destinationId == b.destinationId && a.objectRid == b.objectRid && a.changeSetSequence == b.changeSetSequence && a.eventOrdinal == b.eventOrdinal
  }

  /** The stream of `e` already holds an event of its change set or a later one. */
  predicate ComesLate(s: State, input: CommitInput, e: NewEvent)
  {
    exists x :: x in s.events && s.events[x].projectId == input.projectId && s.events[x].def.destinationId == e.destinationId &&
                s.events[x].def.objectRid == e.objectRid && e.changeSetSequence <= s.events[x].def.changeSetSequence
  }

  /** What is wrong with event `k` of the batch, if anything. */
  function Trouble(s: State, input: CommitInput, k: nat): Option<ErrorCode>
    requires k < |input.events|
  {
    var e := input.events[k];
    if !Given(e) then Some(InvalidArgument)
    else if e.id in s.events || exists i :: 0 <= i < k && input.events[i].id == e.id then Some(AlreadyExists)
    else if ComesLate(s, input, e) || exists i :: 0 <= i < k && SamePlace(input.events[i], e) then Some(SequenceConflict)
    else None
  }

  lemma EarlierMeans(input: CommitInput, k: nat, e: NewEvent)
    requires k < |input.events|
    ensures (exists b :: b in input.events[..k] && b.id == e.id) <==> exists i :: 0 <= i < k && input.events[i].id == e.id
    ensures (exists b :: b in input.events[..k] && PositionOf(NewRecord(input, b)) == PositionOf(NewRecord(input, e))) <==>
            exists i :: 0 <= i < k && SamePlace(input.events[i], e)
  {
    var before := input.events[..k];
    if i :| 0 <= i < k && input.events[i].id == e.id { assert before[i] in before; }
    if i :| 0 <= i < k && SamePlace(input.events[i], e) { assert before[i] in before; }
    if b :| b in before && PositionOf(NewRecord(input, b)) == PositionOf(NewRecord(input, e)) {
      var i :| 0 <= i < k && before[i] == b;
      assert SamePlace(input.events[i], e);
    }
  }

  /** A taken position is one the stream has passed. */
  lemma TakenIsLate(p: RetryPolicy, s: State, input: CommitInput, e: NewEvent)
    requires Inv(p, s)
    ensures PositionOf(NewRecord(input, e)) in s.positions ==> ComesLate(s, input, e)
    ensures ComesLate(s, input, e) <==>
      exists x :: x in s.events && StreamOf(s.events[x]) == StreamOf(NewRecord(input, e)) && s.events[x].def.changeSetSequence >= e.changeSetSequence
  {
    hide EventsOk, AttemptsOk, CountsOk, OrderOk, TransactionsOk, AuditOk;
    var q := PositionOf(NewRecord(input, e));
    if q in s.positions { assert PositionOf(s.events[s.positions[q]]) == q; }
    if x :| x in s.events && s.events[x].projectId == input.projectId && s.events[x].def.destinationId == e.destinationId &&
            s.events[x].def.objectRid == e.objectRid && e.changeSetSequence <= s.events[x].def.changeSetSequence {
      assert StreamOf(s.events[x]) == StreamOf(NewRecord(input, e));
    }
  }

  lemma TroubleMeans(p: RetryPolicy, s: State, input: CommitInput, k: nat)
    requires Inv(p, s) && k < |input.events|
    ensures EventError(s, input, input.events[..k], input.events[k]) == Trouble(s, input, k)
  {
    hide Inv, Blank, SamePlace, ComesLate;
    EarlierMeans(input, k, input.events[k]);
    TakenIsLate(p, s, input, input.events[k]);
    hide PositionOf, StreamOf, NewRecord;
  }

  /** Event `k` is the first of the batch with something wrong. */
  predicate FirstTrouble(s: State, input: CommitInput, k: nat)
  {
    k < |input.events| && Trouble(s, input, k).Some? && forall i: nat :: i < k ==> Trouble(s, input, i).None?
  }

  lemma {:induction false} BatchMeans(p: RetryPolicy, s: State, input: CommitInput, k: nat)
    requires Inv(p, s) && k <= |input.events| && forall i: nat :: i < k ==> Trouble(s, input, i).None?
    ensures BatchError(s, input, k).None? <==> forall i: nat :: i < |input.events| ==> Trouble(s, input, i).None?
    ensures BatchError(s, input, k).Some? ==> exists j: nat :: FirstTrouble(s, input, j) && BatchError(s, input, k) == Trouble(s, input, j)
    decreases |input.events| - k
  {
    hide Inv, Trouble, EventError;
    if k < |input.events| {
      TroubleMeans(p, s, input, k);
      if Trouble(s, input, k).None? { BatchMeans(p, s, input, k + 1); } else { assert FirstTrouble(s, input, k); }
    }
  }

  /** A stored event: pending from the time of its commit on, never tried. */
  predicate IsFresh(e: Event, input: CommitInput, def: NewEvent)
  {
    e == Event(def, input.projectId, input.transactionId, input.correlationId, Pending, input.now, input.now, input.now, input.now,
               None, 1, 0, 0, 0, 0, None, None, None, None)
  }

  /** The first `n` events are stored, each under its id and its position and with a record of the log. */
  ghost predicate Stored(s: State, t: State, input: CommitInput, n: nat)
    requires n <= |input.events|
  {
    Added(s, t, input, n) && Placed(s, t, input, n) && Logged(s, t, input, n) && t.attempts == s.attempts && t.transactions == s.transactions
  }

  ghost predicate Added(s: State, t: State, input: CommitInput, n: nat)
    requires n <= |input.events|
  {
    (forall x :: x in t.events <==> x in s.events || exists i :: 0 <= i < n && input.events[i].id == x) &&
    (forall x :: x in s.events ==> t.events[x] == s.events[x]) &&
    forall i :: 0 <= i < n ==> input.events[i].id in t.events && IsFresh(t.events[input.events[i].id], input, input.events[i])
  }

  ghost predicate Logged(s: State, t: State, input: CommitInput, n: nat)
    requires n <= |input.events|
  {
    |t.audit| == |s.audit| + n && s.audit <= t.audit &&
    forall i :: 0 <= i < n ==>
      t.audit[|s.audit| + i] == AuditRecord(|s.audit| + i + 1, Committed, input.events[i].id, None, System, "business-transaction", input.now)
  }

  function PlaceOf(input: CommitInput, e: NewEvent): Position
  {
    Position(Stream(input.projectId, e.destinationId, e.objectRid), e.changeSetSequence, e.eventOrdinal)
  }

  ghost predicate Placed(s: State, t: State, input: CommitInput, n: nat)
    requires n <= |input.events|
  {
    (forall q :: q in t.positions <==> q in s.positions || exists i :: 0 <= i < n && PlaceOf(input, input.events[i]) == q) &&
    (forall q :: q in s.positions ==> t.positions[q] == s.positions[q]) &&
    forall i :: 0 <= i < n ==> PlaceOf(input, input.events[i]) in t.positions && t.positions[PlaceOf(input, input.events[i])] == input.events[i].id
  }

  predicate Apart(s: State, input: CommitInput)
  {
    (forall i :: 0 <= i < |input.events| ==> input.events[i].id !in s.events && PlaceOf(input, input.events[i]) !in s.positions) &&
    forall i, j :: 0 <= i < j < |input.events| ==>
      input.events[i].id != input.events[j].id && PlaceOf(input, input.events[i]) != PlaceOf(input, input.events[j])
  }

  lemma CleanIsApart(s: State, input: CommitInput)
    requires BatchError(s, input, 0).None?
    ensures Apart(s, input)
  {
    hide BatchError;
    forall j | 0 <= j < |input.events|
      ensures input.events[j].id !in s.events && PlaceOf(input, input.events[j]) !in s.positions
      ensures forall i :: 0 <= i < j ==> input.events[i].id != input.events[j].id && PlaceOf(input, input.events[i]) != PlaceOf(input, input.events[j])
    {
      CleanFacts(s, input, j);
    }
  }

  lemma PlacedNext(s: State, t: State, input: CommitInput, n: nat)
    requires n < |input.events| && Apart(s, input) && Placed(s, t, input, n)
    ensures Placed(s, Store(t, NewRecord(input, input.events[n])), input, n + 1)
  {
    var u := Store(t, NewRecord(input, input.events[n]));
    assert u.positions == t.positions[PlaceOf(input, input.events[n]) := input.events[n].id];
    hide Store, NewRecord;
    hide PlaceOf;
  }

  lemma StoredNext(s: State, t: State, input: CommitInput, n: nat)
    requires n < |input.events| && Apart(s, input) && Stored(s, t, input, n)
    ensures Stored(s, Store(t, NewRecord(input, input.events[n])), input, n + 1)
  {
    AddedNext(s, t, input, n);
    PlacedNext(s, t, input, n);
    LoggedNext(s, t, input, n);
    hide Added, Placed, Logged;
  }

  lemma AddedNext(s: State, t: State, input: CommitInput, n: nat)
    requires n < |input.events| && Apart(s, input) && Added(s, t, input, n)
    ensures Added(s, Store(t, NewRecord(input, input.events[n])), input, n + 1)
  {
    var u := Store(t, NewRecord(input, input.events[n]));
    assert u.events == t.events[input.events[n].id := NewRecord(input, input.events[n])];
    assert IsFresh(NewRecord(input, input.events[n]), input, input.events[n]);
    hide Store, NewRecord, IsFresh, PlaceOf;
  }

  lemma LoggedNext(s: State, t: State, input: CommitInput, n: nat)
    requires n < |input.events| && Logged(s, t, input, n)
    ensures Logged(s, Store(t, NewRecord(input, input.events[n])), input, n + 1)
  {
  }

  lemma {:induction false} StoredMeans(s: State, input: CommitInput, n: nat)
    requires n <= |input.events| && Apart(s, input)
    ensures Stored(s, StoreFirst(s, input, n), input, n)
  {
    hide Apart, Stored;
    if n == 0 {
      NothingPut(s, input);
    } else {
      StoredMeans(s, input, n - 1);
      StoredNext(s, StoreFirst(s, input, n - 1), input, n - 1);
    }
  }

  lemma NothingPut(s: State, input: CommitInput)
    ensures Stored(s, s, input, 0)
  {
  }

  /** A new transaction is refused for the first event with something wrong, and otherwise stores all its
      events, which the reply lists in their order. */
  lemma CommitMeans(p: RetryPolicy, s: State, input: CommitInput)
    requires Inv(p, s) && input.transactionId !in s.transactions
    ensures var (t, r) := Commit(s, input);
      if Blank(input.transactionId) || Blank(input.digest) || Blank(input.projectId) || Blank(input.correlationId) || !Safe(input.now) then
        t == s && r == Rejected(InvalidArgument)
      else if exists k: nat :: k < |input.events| && Trouble(s, input, k).Some? then
        t == s && exists k: nat :: FirstTrouble(s, input, k) && r == Rejected(Trouble(s, input, k).value)
      else
        Stored(s, t.(transactions := s.transactions), input, |input.events|) && Transacted(s, t, input, r)
  {
    hide Inv, Trouble, Blank, BatchError, StoreFirst, Stored, Signature;
    BatchMeans(p, s, input, 0);
    if BatchError(s, input, 0).None? {
      CleanIsApart(s, input);
      var n := |input.events|;
      StoredMeans(s, input, n);
      StoredKeepsTransactions(s, StoreFirst(s, input, n), input, n);
      hide Apart, NewRecord, Fetch;
      if ValidInput(input) { TransactedMeans(s, input, StoreFirst(s, input, n)); }
    } else {
      var j: nat :| FirstTrouble(s, input, j) && BatchError(s, input, 0) == Trouble(s, input, j);
    }
  }

  lemma StoredKeepsTransactions(s: State, t: State, input: CommitInput, n: nat)
    requires n <= |input.events| && Stored(s, t, input, n)
    ensures t.transactions == s.transactions
  {
  }

  /** The transaction is on record, with the ids in order, and the reply holds the new events. */
  ghost predicate Transacted(s: State, t: State, input: CommitInput, r: Reply)
  {
    input.transactionId in t.transactions &&
    (forall k :: k != input.transactionId ==> (k in t.transactions <==> k in s.transactions) && (k in s.transactions ==> t.transactions[k] == s.transactions[k])) &&
    var x := t.transactions[input.transactionId];
    x.digest == input.digest && x.committedAt == input.now && x.signature == Signature(input.events) && |x.eventIds| == |input.events| &&
    (forall i :: 0 <= i < |input.events| ==> x.eventIds[i] == input.events[i].id) &&
    r.Events? && |r.events| == |input.events| && forall i :: 0 <= i < |input.events| ==> IsFresh(r.events[i], input, input.events[i])
  }

  lemma TransactedMeans(s: State, input: CommitInput, stored: State)
    requires stored.transactions == s.transactions && input.transactionId !in s.transactions
    ensures var x := Transaction(input.digest, Signature(input.events), Ids(input.events), input.now);
      Transacted(s, stored.(transactions := stored.transactions[input.transactionId := x]), input, Events(NewRecords(input)))
  {
    hide Signature;
    assert forall i :: 0 <= i < |input.events| ==> IsFresh(NewRecord(input, input.events[i]), input, input.events[i]);
  }

  // ---------------------------------------------------------------- the reaper

  predicate IsExpired(s: State, id: string, now: int)
  {
    id in s.events && (s.events[id].state == Leased || s.events[id].state == Delivering) && s.events[id].lease.Some? &&
    s.events[id].lease.value.expiresAt <= now
  }

  /** The cause on record for a lost lease tells whether the delivery may have happened. */
  function LostLease(sent: bool): FailureCause
  {
    FailureCause("LEASE_EXPIRED", Lease, true, if sent then "outbox-lease-expired-after-send" else "outbox-lease-expired-before-send")
  }

  /** The attempt under the event's lease had started its delivery. */
  predicate Sent(s: State, id: string)
  {
    HasAttempt(s, id) && s.attempts[s.events[id].lease.value.handle.attemptId].deliveryStartedAt.Some?
  }

  lemma TurnMeans(p: RetryPolicy, s: State, id: string, now: int)
    requires p.Valid() && Inv(p, s) && Safe(now)
    ensures var (t, r) := ReclaimOne(p, s, id, now);
      if !IsExpired(s, id, now) then t == s && r == Events([])
      else
        HasAttempt(s, id) && 1 <= s.events[id].attemptsInCycle &&
        var aid := s.events[id].lease.value.handle.attemptId;
        FailsTo(p, s.(audit := s.audit + Line(s, LeaseLost, id, Some(aid), System, "lease-reaper", now)), id, LostLease(Sent(s, id)), now,
                System, "lease-reaper", Expired, t, r)
  {
    hide Inv, FinishFailure, FailsTo;
    if IsExpired(s, id, now) {
      Facts(p, s, id);
      var aid := s.events[id].lease.value.handle.attemptId;
      var logged := s.(audit := s.audit + Line(s, LeaseLost, id, Some(aid), System, "lease-reaper", now));
      FinishMeans(p, logged, id, LostLease(Sent(s, id)), now, System, "lease-reaper", Expired);
    }
  }

  /** The event is not tried again, or the time of its next attempt is a safe integer. */
  predicate CanGo(p: RetryPolicy, e: Event, now: int)
  {
    e.attemptsInCycle == p.maximumAttemptsPerCycle || (1 <= e.attemptsInCycle && Safe(now + Wait(p, e.attemptsInCycle)))
  }

  /** What becomes of an event whose lease was lost. */
  function Recovered(p: RetryPolicy, e: Event, sent: bool, now: int): Event
  {
    var m := Marked(e, LostLease(sent), now);
    if e.attemptsInCycle == p.maximumAttemptsPerCycle || e.attemptsInCycle < 1 then m.(state := DeadLetter)
    else m.(state := RetryWait, availableAt := now + Wait(p, e.attemptsInCycle))
  }

  function RecoveredAttempt(p: RetryPolicy, e: Event, a: Attempt, now: int): Attempt
  {
    Ended(a, LostLease(a.deliveryStartedAt.Some?), if e.attemptsInCycle == p.maximumAttemptsPerCycle then DeadLettered else Expired, now)
  }

  function TurnLog(p: RetryPolicy, e: Event, id: string, n: nat, now: int): seq<AuditRecord>
    requires e.lease.Some?
  {
    var aid := e.lease.value.handle.attemptId;
    [AuditRecord(n + 1, LeaseLost, id, Some(aid), System, "lease-reaper", now),
     AuditRecord(n + 2, if e.attemptsInCycle == p.maximumAttemptsPerCycle then DeadLetters else RetryPlanned, id, Some(aid), System, "lease-reaper", now)]
  }

  /** Two records for each expired lease of `order`, after `n` earlier ones. */
  function ReapLog(p: RetryPolicy, s: State, order: seq<string>, n: nat, now: int): seq<AuditRecord>
    decreases |order|
  {
    if order == [] then []
    else if !IsExpired(s, order[0], now) then ReapLog(p, s, order[1..], n, now)
    else TurnLog(p, s.events[order[0]], order[0], n, now) + ReapLog(p, s, order[1..], n + 2, now)
  }

  /** The expired events of `order`, as they then are. */
  function ReapedIn(s: State, t: State, order: seq<string>, now: int): seq<Event>
    requires t.events.Keys == s.events.Keys
    decreases |order|
  {
    if order == [] then []
    else (if IsExpired(s, order[0], now) then [t.events[order[0]]] else []) + ReapedIn(s, t, order[1..], now)
  }

  ghost predicate EventsReaped(p: RetryPolicy, s: State, order: seq<string>, now: int, t: State)
  {
    t.events.Keys == s.events.Keys &&
    forall id :: id in s.events ==>
      t.events[id] ==
      if id in order && IsExpired(s, id, now) then Recovered(p, s.events[id], Sent(s, id), now) else s.events[id]
  }

  predicate HoldsExpired(s: State, order: seq<string>, now: int, a: string)
    requires a in s.attempts
  {
    var id := s.attempts[a].workId;
    id in order && IsExpired(s, id, now) && s.events[id].lease.value.handle.attemptId == a
  }

  ghost predicate AttemptsReaped(p: RetryPolicy, s: State, order: seq<string>, now: int, t: State)
  {
    t.attempts.Keys == s.attempts.Keys &&
    forall a :: a in s.attempts ==>
      t.attempts[a] ==
      if HoldsExpired(s, order, now, a) then RecoveredAttempt(p, s.events[s.attempts[a].workId], s.attempts[a], now) else s.attempts[a]
  }

  /** Every expired lease of `order` is gone, its event and its attempt on record as lost, and nothing else has changed. */
  ghost predicate ReapsTo(p: RetryPolicy, s: State, order: seq<string>, now: int, t: State, r: Reply)
  {
    EventsReaped(p, s, order, now, t) && AttemptsReaped(p, s, order, now, t) && t.transactions == s.transactions && t.positions == s.positions &&
    t.audit == s.audit + ReapLog(p, s, order, |s.audit|, now) && r == Events(ReapedIn(s, t, order, now))
  }

  ghost predicate NoneStuck(p: RetryPolicy, s: State, order: seq<string>, now: int)
  {
    forall id :: id in order && IsExpired(s, id, now) ==> CanGo(p, s.events[id], now)
  }

  /** The log after the lost lease and what followed. */
  lemma TwoLines(s: State, id: string, aid: string, k: AuditKind, now: int)
    ensures var lost := Line(s, LeaseLost, id, Some(aid), System, "lease-reaper", now);
      (s.audit + lost) + Line(s.(audit := s.audit + lost), k, id, Some(aid), System, "lease-reaper", now) ==
      s.audit + [AuditRecord(|s.audit| + 1, LeaseLost, id, Some(aid), System, "lease-reaper", now),
                 AuditRecord(|s.audit| + 2, k, id, Some(aid), System, "lease-reaper", now)]
  {
  }

  /** A lost lease that can go, as one change. */
  ghost predicate TurnsTo(p: RetryPolicy, s: State, id: string, now: int, t: State, r: Reply)
    requires HasAttempt(s, id)
  {
    var e, aid := s.events[id], s.events[id].lease.value.handle.attemptId;
    Becomes(s, t, id, Recovered(p, e, Sent(s, id), now), aid, RecoveredAttempt(p, e, s.attempts[aid], now), TurnLog(p, e, id, |s.audit|, now)) &&
    r == Events([t.events[id]])
  }

  lemma LostTurns(p: RetryPolicy, s: State, id: string, now: int, t: State, r: Reply)
    requires HasAttempt(s, id) && 1 <= s.events[id].attemptsInCycle
    requires var aid := s.events[id].lease.value.handle.attemptId;
      FailsTo(p, s.(audit := s.audit + Line(s, LeaseLost, id, Some(aid), System, "lease-reaper", now)), id, LostLease(Sent(s, id)), now,
              System, "lease-reaper", Expired, t, r)
    ensures r.Events? <==> CanGo(p, s.events[id], now)
    ensures r.Events? ==> TurnsTo(p, s, id, now, t, r)
  {
    var e, aid := s.events[id], s.events[id].lease.value.handle.attemptId;
    TwoLines(s, id, aid, if e.attemptsInCycle == p.maximumAttemptsPerCycle then DeadLetters else RetryPlanned, now);
    hide Wait, Marked, Ended, Line;
  }

  /** One turn on an expired lease. */
  lemma OneTurn(p: RetryPolicy, s: State, id: string, now: int)
    requires p.Valid() && Inv(p, s) && Safe(now) && IsExpired(s, id, now)
    ensures var (t, r) := ReclaimOne(p, s, id, now);
      HasAttempt(s, id) && s.attempts[s.events[id].lease.value.handle.attemptId].workId == id && 1 <= s.events[id].attemptsInCycle &&
      (r.Events? <==> CanGo(p, s.events[id], now)) && (r.Events? ==> TurnsTo(p, s, id, now, t, r))
  {
    TurnMeans(p, s, id, now);
    Facts(p, s, id);
    hide Inv, ReclaimOne, FailsTo, TurnsTo, CanGo;
    var (t, r) := ReclaimOne(p, s, id, now);
    LostTurns(p, s, id, now, t, r);
  }

  // ---------------------------------------------------------------- the reaper's loop

  /** The state after one turn, as far as the events still to come see it. */
  ghost predicate TurnLeaves(s: State, t: State, id: string, now: int)
  {
    t.events.Keys == s.events.Keys && !IsExpired(t, id, now) &&
    (forall x :: x in s.events && x != id ==> t.events[x] == s.events[x] && Sent(t, x) == Sent(s, x)) &&
    t.attempts.Keys == s.attempts.Keys && forall a :: a in s.attempts ==> t.attempts[a].workId == s.attempts[a].workId
  }

  lemma TurnIsLocal(p: RetryPolicy, s: State, id: string, now: int, t: State, r: Reply)
    requires Inv(p, s) && HasAttempt(s, id) && s.attempts[s.events[id].lease.value.handle.attemptId].workId == id && TurnsTo(p, s, id, now, t, r)
    ensures TurnLeaves(s, t, id, now)
  {
    hide Inv, TurnLog, TurnsTo;
    var e, aid := s.events[id], s.events[id].lease.value.handle.attemptId;
    TurnFields(p, s, id, now, t, r);
    hide Recovered, RecoveredAttempt;
    forall x | x in s.events && x != id
      ensures Sent(t, x) == Sent(s, x)
    {
      if s.events[x].lease.Some? { LeaseIsOwn(p, s, x); }
    }
  }

  lemma TurnFields(p: RetryPolicy, s: State, id: string, now: int, t: State, r: Reply)
    requires HasAttempt(s, id) && TurnsTo(p, s, id, now, t, r)
    ensures var aid := s.events[id].lease.value.handle.attemptId;
      t.events == s.events[id := Recovered(p, s.events[id], Sent(s, id), now)] && t.events[id].lease.None? &&
      t.attempts == s.attempts[aid := RecoveredAttempt(p, s.events[id], s.attempts[aid], now)] && t.attempts[aid].workId == s.attempts[aid].workId &&
      t.transactions == s.transactions && t.positions == s.positions && t.audit == s.audit + TurnLog(p, s.events[id], id, |s.audit|, now) &&
      r == Events([t.events[id]])
  {
    hide Wait, TurnLog;
  }

  lemma LeaseIsOwn(p: RetryPolicy, s: State, x: string)
    requires Inv(p, s) && x in s.events && s.events[x].lease.Some?
    ensures var aid := s.events[x].lease.value.handle.attemptId; aid in s.attempts && s.attempts[aid].workId == x
  {
    Facts(p, s, x);
    hide Inv, EventOk, AttemptOk;
  }

  lemma EventsReapedNext(p: RetryPolicy, s: State, t: State, order: seq<string>, now: int, u: State)
    requires order != [] && order[0] !in order[1..] && IsExpired(s, order[0], now) && TurnLeaves(s, t, order[0], now)
    requires t.events[order[0]] == Recovered(p, s.events[order[0]], Sent(s, order[0]), now) && EventsReaped(p, t, order[1..], now, u)
    ensures EventsReaped(p, s, order, now, u)
  {
    hide Recovered, Sent;
    assert order == [order[0]] + order[1..];
    forall x | x in s.events && x != order[0]
      ensures t.events[x] == s.events[x] && (IsExpired(t, x, now) <==> IsExpired(s, x, now)) && (x in order <==> x in order[1..])
    {
    }
    hide IsExpired;
  }

  lemma AttemptsReapedNext(p: RetryPolicy, s: State, t: State, order: seq<string>, now: int, u: State)
    requires order != [] && order[0] !in order[1..] && IsExpired(s, order[0], now) && TurnLeaves(s, t, order[0], now)
    requires var aid := s.events[order[0]].lease.value.handle.attemptId;
      aid in s.attempts && s.attempts[aid].workId == order[0] &&
      t.attempts == s.attempts[aid := RecoveredAttempt(p, s.events[order[0]], s.attempts[aid], now)]
    requires AttemptsReaped(p, t, order[1..], now, u)
    ensures AttemptsReaped(p, s, order, now, u)
  {
    hide RecoveredAttempt, Sent;
    assert order == [order[0]] + order[1..];
    forall a | a in s.attempts
      ensures u.attempts[a] ==
        if HoldsExpired(s, order, now, a) then RecoveredAttempt(p, s.events[s.attempts[a].workId], s.attempts[a], now) else s.attempts[a]
    {
      var id := s.attempts[a].workId;
      if id == order[0] {
        assert !HoldsExpired(t, order[1..], now, a);
      } else {
        assert t.attempts[a] == s.attempts[a] && (HoldsExpired(t, order[1..], now, a) <==> HoldsExpired(s, order, now, a));
      }
    }
  }

  /** Two states that agree on what is left of the order. */
  ghost predicate AgreeOn(s: State, t: State, order: seq<string>, now: int)
  {
    forall x :: x in order ==> (IsExpired(s, x, now) <==> IsExpired(t, x, now)) && (IsExpired(s, x, now) ==> t.events[x] == s.events[x])
  }

  lemma {:induction false} SameLog(p: RetryPolicy, s: State, t: State, order: seq<string>, n: nat, now: int)
    requires AgreeOn(s, t, order, now)
    ensures ReapLog(p, s, order, n, now) == ReapLog(p, t, order, n, now)
    decreases |order|
  {
    hide IsExpired, TurnLog;
    if order != [] {
      assert order[0] in order && forall x :: x in order[1..] ==> x in order;
      SameLog(p, s, t, order[1..], n, now);
      SameLog(p, s, t, order[1..], n + 2, now);
    }
  }

  lemma {:induction false} SameReaped(s: State, t: State, u: State, order: seq<string>, now: int)
    requires AgreeOn(s, t, order, now) && u.events.Keys == s.events.Keys == t.events.Keys
    ensures ReapedIn(s, u, order, now) == ReapedIn(t, u, order, now)
    decreases |order|
  {
    hide IsExpired;
    if order != [] {
      assert order[0] in order && forall x :: x in order[1..] ==> x in order;
      ExpiredIsThere(s, order[0], now);
      ExpiredIsThere(t, order[0], now);
      SameReaped(s, t, u, order[1..], now);
    }
  }

  lemma ExpiredIsThere(s: State, id: string, now: int)
    ensures IsExpired(s, id, now) ==> id in s.events && s.events[id].lease.Some?
  {
  }

  lemma RestAgrees(s: State, t: State, order: seq<string>, now: int)
    requires order != [] && order[0] !in order[1..] && TurnLeaves(s, t, order[0], now)
    ensures AgreeOn(s, t, order[1..], now)
  {
    hide Sent;
  }

  lemma NothingReaped(p: RetryPolicy, s: State, now: int)
    ensures ReapsTo(p, s, [], now, s, Events([]))
  {
  }

  /** The head of the order holds no expired lease. */
  lemma SkipsHead(p: RetryPolicy, s: State, order: seq<string>, now: int, u: State, r: Reply)
    requires order != [] && !IsExpired(s, order[0], now) && ReapsTo(p, s, order[1..], now, u, r)
    ensures ReapsTo(p, s, order, now, u, r)
  {
    hide IsExpired, Recovered, RecoveredAttempt, TurnLog, Sent;
    assert order == [order[0]] + order[1..];
    assert forall a :: a in s.attempts ==> (HoldsExpired(s, order, now, a) <==> HoldsExpired(s, order[1..], now, a));
    hide HoldsExpired;
    assert [] + ReapedIn(s, u, order[1..], now) == ReapedIn(s, u, order[1..], now);
  }

  lemma ReapsHead(p: RetryPolicy, s: State, order: seq<string>, now: int, t: State, one: Reply, u: State, r: Reply)
    requires order != [] && order[0] !in order[1..] && IsExpired(s, order[0], now) && HasAttempt(s, order[0])
    requires s.attempts[s.events[order[0]].lease.value.handle.attemptId].workId == order[0]
    requires TurnsTo(p, s, order[0], now, t, one) && TurnLeaves(s, t, order[0], now) && ReapsTo(p, t, order[1..], now, u, r)
    ensures one.Events? && r.Events? && ReapsTo(p, s, order, now, u, Events(one.events + r.events))
  {
    hide TurnsTo, IsExpired, TurnLog, Recovered, RecoveredAttempt, EventsReaped, AttemptsReaped;
    TurnFields(p, s, order[0], now, t, one);
    EventsReapedNext(p, s, t, order, now, u);
    AttemptsReapedNext(p, s, t, order, now, u);
    RestAgrees(s, t, order, now);
    HeadStays(p, t, order, now, u);
    KeysOf(p, s, t, u, order, now);
    SameLog(p, s, t, order[1..], |s.audit| + 2, now);
    SameReaped(s, t, u, order[1..], now);
    TurnLogLength(p, s.events[order[0]], order[0], |s.audit|, now);
    LogAdds(s.audit, TurnLog(p, s.events[order[0]], order[0], |s.audit|, now), ReapLog(p, s, order[1..], |s.audit| + 2, now));
  }

  lemma TurnLogLength(p: RetryPolicy, e: Event, id: string, n: nat, now: int)
    requires e.lease.Some?
    ensures |TurnLog(p, e, id, n, now)| == 2
  {
  }

  lemma LogAdds(a: seq<AuditRecord>, b: seq<AuditRecord>, c: seq<AuditRecord>)
    ensures (a + b) + c == a + (b + c)
  {
  }

  lemma KeysOf(p: RetryPolicy, s: State, t: State, u: State, order: seq<string>, now: int)
    requires order != [] && TurnLeaves(s, t, order[0], now) && EventsReaped(p, t, order[1..], now, u)
    ensures u.events.Keys == t.events.Keys == s.events.Keys
  {
  }

  /** The rest of the order does not come back to its head. */
  lemma HeadStays(p: RetryPolicy, t: State, order: seq<string>, now: int, u: State)
    requires order != [] && order[0] !in order[1..] && EventsReaped(p, t, order[1..], now, u) && order[0] in t.events
    ensures order[0] in u.events && u.events[order[0]] == t.events[order[0]]
  {
    hide IsExpired, Recovered;
  }

  lemma StuckNext(p: RetryPolicy, s: State, t: State, order: seq<string>, now: int)
    requires order != [] && order[0] !in order[1..] && (t == s || TurnLeaves(s, t, order[0], now))
    ensures NoneStuck(p, s, order, now) <==> (IsExpired(s, order[0], now) ==> CanGo(p, s.events[order[0]], now)) && NoneStuck(p, t, order[1..], now)
  {
    hide CanGo, Sent;
    assert order == [order[0]] + order[1..];
    if t != s { RestAgrees(s, t, order, now); }
  }

  /** The reaper gets through its order exactly when every expired lease can go, and then leaves each as it should. */
  lemma {:induction false} LoopMeans(p: RetryPolicy, s: State, order: seq<string>, now: int)
    requires p.Valid() && Inv(p, s) && NoRepeats(order) && Safe(now)
    ensures var (t, r) := ReclaimEach(p, s, order, now);
      (r.Events? <==> NoneStuck(p, s, order, now)) && (r.Events? ==> ReapsTo(p, s, order, now, t, r))
    decreases |order|
  {
    hide Inv, Grew, ReclaimOne, ReapsTo, IsExpired, CanGo, TurnsTo, NoneStuck, TurnLeaves;
    if order == [] {
      NothingReaped(p, s, now);
      NoneLeft(p, s, now);
    } else {
      assert order[0] !in order[1..] && NoRepeats(order[1..]);
      ReclaimUnfold(p, s, order, now);
      hide ReclaimEach;
      var (t, one) := ReclaimOne(p, s, order[0], now);
      TurnMeans(p, s, order[0], now);
      ReclaimOneKeeps(p, s, order[0], now);
      if !IsExpired(s, order[0], now) {
        LoopMeans(p, s, order[1..], now);
        StuckNext(p, s, s, order, now);
        var rest := ReclaimEach(p, s, order[1..], now);
        if rest.1.Events? {
          SkipsHead(p, s, order, now, rest.0, rest.1);
          assert [] + rest.1.events == rest.1.events;
        }
      } else {
        LoopTurn(p, s, order, now);
      }
    }
  }

  lemma NoneLeft(p: RetryPolicy, s: State, now: int)
    ensures NoneStuck(p, s, [], now)
  {
  }

  lemma LoopTurn(p: RetryPolicy, s: State, order: seq<string>, now: int)
    requires p.Valid() && Inv(p, s) && NoRepeats(order) && Safe(now) && order != [] && order[0] !in order[1..] && NoRepeats(order[1..])
    requires IsExpired(s, order[0], now)
    ensures var (t, r) := ReclaimEach(p, s, order, now);
      (r.Events? <==> NoneStuck(p, s, order, now)) && (r.Events? ==> ReapsTo(p, s, order, now, t, r))
    decreases |order|, 0
  {
    hide Inv, Grew, ReclaimOne, ReapsTo, IsExpired, CanGo, TurnsTo, NoneStuck, TurnLeaves;
    ReclaimUnfold(p, s, order, now);
    hide ReclaimEach;
    var (t, one) := ReclaimOne(p, s, order[0], now);
    OneTurn(p, s, order[0], now);
    ReclaimOneKeeps(p, s, order[0], now);
    if one.Events? {
      TurnIsLocal(p, s, order[0], now, t, one);
      LoopMeans(p, t, order[1..], now);
      StuckNext(p, s, t, order, now);
      var rest := ReclaimEach(p, t, order[1..], now);
      if rest.1.Events? { ReapsHead(p, s, order, now, t, one, rest.0, rest.1); }
    } else {
      StuckHead(p, s, order, now);
    }
  }

  lemma StuckHead(p: RetryPolicy, s: State, order: seq<string>, now: int)
    requires order != [] && IsExpired(s, order[0], now) && !CanGo(p, s.events[order[0]], now)
    ensures !NoneStuck(p, s, order, now)
  {
    hide IsExpired, CanGo;
    assert order[0] in order;
  }

  /** The reaper at `now` ends every lease that has expired by then and no other: the event is dead-lettered
      after the last attempt of its cycle and waits out the backoff otherwise, and the attempt is on record
      as expired. It is refused exactly when the next attempt of such an event has no safe time. */
  lemma ReclaimMeans(p: RetryPolicy, s: State, order: seq<string>, now: int)
    requires p.Valid() && Inv(p, s) && IsReapOrder(s, order)
    ensures var (t, r) := Reclaim(p, s, order, now);
      if !Safe(now) then t == s && r == Rejected(InvalidArgument)
      else if exists id :: IsExpired(s, id, now) && !CanGo(p, s.events[id], now) then r == Rejected(InvalidArgument)
      else ReapsTo(p, s, order, now, t, r)
  {
    ReapOrderFacts(s, order);
    hide Inv, ReclaimEach, ReapsTo, CanGo;
    if Safe(now) {
      LoopMeans(p, s, order, now);
      ReapedClean(p, s, order, now);
    }
  }
}
