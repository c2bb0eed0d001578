/** The Outbox as the program runs it: an object whose methods update its maps step by step.
    Each method is proved to do exactly what its transition function says, and to keep the
    invariant that the runs are proved about. */
module OutboxModel {
  import opened Texts
  import opened DurableWork
  import opened Outbox
  import opened OutboxInvariants
  import opened OutboxSteps
  import opened OutboxCommit
  import opened OutboxTime
  import opened OutboxRuns

  lemma ClaimedFirstTransitive(a: Event, b: Event, c: Event)
    requires ClaimedFirst(a, b) && ClaimedFirst(b, c)
    ensures ClaimedFirst(a, c)
  {
    var x, y, z := StreamKey(StreamOf(a)), StreamKey(StreamOf(b)), StreamKey(StreamOf(c));
    hide StreamKey;
    if Less(x, y) && Less(y, z) { LessTransitive(x, y, z); }
    if Before(a.def, b.def) && Before(b.def, c.def) { BeforeTransitive(a.def, b.def, c.def); }
    hide Before, Less;
  }

  /** The id that `sort(compareEvents)` puts first among `ids`. */
  ghost predicate IsFirst(events: Events, ids: set<string>, m: string)
  {
    m in ids && forall j :: j in ids && j in events && m in events && j != m ==> ClaimedFirst(events[m], events[j])
  }

  /** `[...ids].sort(compareEvents)[0]` */
  method First(events: Events, ids: set<string>) returns (m: string)
    requires ids != {} && ids <= events.Keys && IdsOk(events)
    ensures IsFirst(events, ids, m)
  {
    m :| m in ids;
    var rest := ids - {m};
    while rest != {}
      invariant rest <= ids && m in ids - rest
      invariant IsFirst(events, ids - rest, m)
      decreases |rest|
    {
      var id :| id in rest;
      ClaimedFirstOrder(events[id], events[m]);
      if ClaimedFirst(events[id], events[m]) {
        forall j | j in ids - rest && j != m
          ensures ClaimedFirst(events[id], events[j])
        {
          ClaimedFirstTransitive(events[id], events[m], events[j]);
        }
        m := id;
      }
      rest := rest - {id};
    }
    assert ids - rest == ids;
  }

  /** `[...ids].sort(compareEvents)` */
  method SortByClaim(events: Events) returns (order: seq<string>)
    requires IdsOk(events)
    ensures forall id :: id in order <==> id in events
    ensures forall i, j :: 0 <= i < j < |order| ==>
      order[i] in events && order[j] in events && ClaimedFirst(events[order[i]], events[order[j]])
  {
    order := [];
    var rest := events.Keys;
    while rest != {}
      invariant rest <= events.Keys
      invariant forall id :: id in order <==> id in events && id !in rest
      invariant forall i, j :: 0 <= i < |order| && j in rest ==> ClaimedFirst(events[order[i]], events[j])
      invariant forall i, j :: 0 <= i < j < |order| ==> ClaimedFirst(events[order[i]], events[order[j]])
      decreases |rest|
    {
      var m := First(events, rest);
      ghost var before, left := order, rest;
      order, rest := order + [m], rest - {m};
      forall i, j | 0 <= i < |order| && j in rest
        ensures ClaimedFirst(events[order[i]], events[j])
      {
        if i < |before| { assert order[i] == before[i]; }
      }
      forall i, j | 0 <= i < j < |order|
        ensures ClaimedFirst(events[order[i]], events[order[j]])
      {
        assert order[i] == before[i];
      }
    }
  }

  lemma PickNone(s: State, now: int, destination: Option<string>, claimable: set<string>)
    requires claimable == {} && forall id :: id in s.events && Claimable(s, id, now, destination) ==> id in claimable
    ensures IsPick(s, now, destination, None)
  {
    hide PredecessorsDelivered;
  }

  lemma PickFirst(s: State, now: int, destination: Option<string>, claimable: set<string>, m: string)
    requires forall id :: id in claimable <==> id in s.events && Claimable(s, id, now, destination)
    requires IsFirst(s.events, claimable, m)
    ensures IsPick(s, now, destination, Some(m))
  {
    hide PredecessorsDelivered, ClaimedFirst;
  }

  class OutboxStateModel {
    const policy: RetryPolicy
    var events: map<string, Event>
    var attempts: map<string, Attempt>
    var transactions: map<string, Transaction>
    var positions: map<Position, string>
    var audit: seq<AuditRecord>

    function Snapshot(): State
      reads this
    {
      State(events, attempts, transactions, positions, audit)
    }

    ghost predicate Valid()
      reads this
    {
      policy.Valid() && Inv(policy, Snapshot())
    }

    constructor (policy: RetryPolicy)
      requires policy.Valid()
      ensures Valid() && Snapshot() == Empty && this.policy == policy
    {
      this.policy := policy;
      events, attempts, transactions, positions, audit := map[], map[], map[], map[], [];
    }

    method AppendAudit(kind: AuditKind, workId: string, attemptId: Option<string>, actor: Actor, actorId: string, now: int)
      modifies this`audit
      ensures audit == Log(old(audit), kind, workId, attemptId, actor, actorId, now)
    {
      audit := audit + [AuditRecord(|audit| + 1, kind, workId, attemptId, actor, actorId, now)];
    }

    /** The loop that checks a batch before anything is stored. */
    method CheckBatch(input: CommitInput) returns (error: Option<ErrorCode>)
      ensures error == BatchError(Snapshot(), input, 0)
    {
      hide ValidNewEvent, PositionOf, StreamOf, NewRecord;
      var ids: set<string>, taken: set<Position> := {}, {};
      var k := 0;
      while k < |input.events|
        invariant 0 <= k <= |input.events|
        invariant forall x :: x in ids <==> exists b :: b in input.events[..k] && b.id == x
        invariant forall q :: q in taken <==> exists b :: b in input.events[..k] && PositionOf(NewRecord(input, b)) == q
        invariant BatchError(Snapshot(), input, 0) == BatchError(Snapshot(), input, k)
      {
        var e := input.events[k];
        var record := NewRecord(input, e);
        var q := PositionOf(record);
        if !ValidNewEvent(e) { return Some(InvalidArgument); }
        if e.id in ids || e.id in events { return Some(AlreadyExists); }
        if q in taken || q in positions { return Some(SequenceConflict); }
        if exists x :: x in events && StreamOf(events[x]) == StreamOf(record) &&
                       events[x].def.changeSetSequence >= e.changeSetSequence {
          return Some(SequenceConflict);
        }
        assert input.events[..k + 1] == input.events[..k] + [e];
        ids, taken, k := ids + {e.id}, taken + {q}, k + 1;
      }
      return None;
    }

    method CommitBusinessTransaction(input: CommitInput) returns (r: Reply)
      requires Valid()
      modifies this`events, this`positions, this`audit, this`transactions
      ensures (Snapshot(), r) == Commit(old(Snapshot()), input) && Valid()
    {
      ghost var s := Snapshot();
      hide Inv, Grew, BatchError, Signature, ValidInput, Fetch, PositionOf;
      CommitKeeps(policy, s, input);
      if !ValidInput(input) { return Rejected(InvalidArgument); }
      var signature := Signature(input.events);
      if input.transactionId in transactions {
        var t := transactions[input.transactionId];
        if t.digest != input.digest || t.signature != signature { return Rejected(IdempotencyConflict); }
        return Fetch(events, t.eventIds);
      }
      var error := CheckBatch(input);
      if error.Some? { return Rejected(error.value); }
      var k := 0;
      while k < |input.events|
        invariant 0 <= k <= |input.events|
        invariant Snapshot() == StoreFirst(s, input, k) && transactions == s.transactions
      {
        var e := NewRecord(input, input.events[k]);
        events := events[e.def.id := e];
        positions := positions[PositionOf(e) := e.def.id];
        AppendAudit(Committed, e.def.id, None, System, "business-transaction", input.now);
        k := k + 1;
      }
      transactions := transactions[input.transactionId := Transaction(input.digest, signature, Ids(input.events), input.now)];
      r := Events(NewRecords(input));
    }

    /** `[...this.#events.values()].filter(claimable).sort(compareEvents)[0]` */
    method FindCandidate(now: int, destination: Option<string>) returns (pick: Option<string>)
      requires Valid()
      ensures IsPick(Snapshot(), now, destination, pick)
    {
      hide Inv, ClaimedFirst, PredecessorsDelivered, Claimable, IsPick;
      ghost var s := Snapshot();
      IdsAreKeys(policy, s);
      var claimable := set id | id in events && Claimable(Snapshot(), id, now, destination);
      if claimable == {} {
        PickNone(s, now, destination, claimable);
        pick := None;
      } else {
        var m := First(events, claimable);
        PickFirst(s, now, destination, claimable, m);
        pick := Some(m);
      }
    }

    method ClaimNext(workerId: string, attemptId: string, now: int, destination: Option<string>)
      returns (r: Reply, ghost pick: Option<string>)
      requires Valid()
      modifies this`events, this`attempts, this`audit
      ensures IsPick(old(Snapshot()), now, destination, pick)
      ensures (Snapshot(), r) == Claim(policy, old(Snapshot()), workerId, attemptId, now, destination, pick) && Valid()
    {
      hide Inv, Grew, IsPick, AddDuration, Log;
      var candidate := FindCandidate(now, destination);
      pick := candidate;
      ClaimKeeps(policy, Snapshot(), workerId, attemptId, now, destination, pick);
      if Blank(workerId) || Blank(attemptId) || !IsTime(now) || (destination.Some? && Blank(destination.value)) {
        return Rejected(InvalidArgument), pick;
      }
      if attemptId in attempts { return Rejected(AlreadyExists), pick; }
      if candidate.None? || candidate.value !in events { return NothingToClaim, pick; }
      var id := candidate.value;
      var e := events[id];
      if now < e.lastObservedAt { return Rejected(DatabaseTimeRegression), pick; }
      var expiry := AddDuration(now, policy.leaseDurationMs);
      if expiry.Err? { return Rejected(expiry.code), pick; }
      var lease := ActiveLease(LeaseHandle(OutboxWork, id, attemptId, workerId, e.nextFencingToken), now, now, expiry.value);
      var attempt := Attempt(id, workerId, lease.handle.fencingToken, e.replayCycle, e.attemptsInCycle + 1,
                             e.totalAttempts + 1, now, now, None, Active, None, None, None, None, None, None, NotSent);
      e := e.(state := Leased, stateChangedAt := now, lastObservedAt := now, lease := Some(lease));
      e := e.(nextFencingToken := e.nextFencingToken + 1);
      e := e.(attemptsInCycle := e.attemptsInCycle + 1, totalAttempts := e.totalAttempts + 1);
      events := events[id := e];
      attempts := attempts[attemptId := attempt];
      AppendAudit(Claimed, id, Some(attemptId), Worker, workerId, now);
      r := Granted(e, lease.handle);
    }

    method SendHeartbeat(h: LeaseHandle, now: int) returns (r: Reply)
      requires Valid()
      modifies this`events, this`attempts, this`audit
      ensures (Snapshot(), r) == Heartbeat(policy, old(Snapshot()), h, now) && Valid()
    {
      hide Inv, Grew, CheckLease, AddDuration, Log;
      HeartbeatKeeps(policy, Snapshot(), h, now);
      var admitted := Admit(Snapshot(), h, now, {Leased, Delivering});
      if admitted.Err? { return Rejected(admitted.code); }
      var e, lease := events[h.workId], admitted.value;
      lease := lease.(heartbeatAt := now);
      events := events[h.workId := e.(lease := Some(lease))];
      var expiry := AddDuration(now, policy.leaseDurationMs);
      if expiry.Err? { return Rejected(expiry.code); }
      lease := lease.(expiresAt := expiry.value);
      events := events[h.workId := e.(lease := Some(lease), lastObservedAt := now)];
      assert events == old(events)[h.workId := e.(lease := Some(lease), lastObservedAt := now)];
      var aid := lease.handle.attemptId;
      attempts := attempts[aid := attempts[aid].(lastHeartbeatAt := now)];
      AppendAudit(Heartbeats, h.workId, Some(aid), Worker, lease.handle.workerId, now);
      r := Renewed(lease.handle);
    }

    method BeginDelivery(h: LeaseHandle, now: int) returns (r: Reply)
      requires Valid()
      modifies this`events, this`attempts, this`audit
      ensures (Snapshot(), r) == StartDelivery(old(Snapshot()), h, now) && Valid()
    {
      hide Inv, Grew;
      StartKeeps(policy, Snapshot(), h, now);
      var admitted := Admit(Snapshot(), h, now, {Leased});
      if admitted.Err? { return Rejected(admitted.code); }
      var aid := admitted.value.handle.attemptId;
      var e := events[h.workId].(state := Delivering, stateChangedAt := now, lastObservedAt := now);
      events := events[h.workId := e];
      attempts := attempts[aid := attempts[aid].(deliveryStartedAt := Some(now), observation := SentNoAck)];
      AppendAudit(DeliveryStarted, h.workId, Some(aid), Worker, admitted.value.handle.workerId, now);
      r := Events([e]);
    }

    method AcknowledgeDelivery(h: LeaseHandle, ack: Acknowledgement, now: int) returns (r: Reply)
      requires Valid()
      modifies this`events, this`attempts, this`audit
      ensures (Snapshot(), r) == Acknowledge(old(Snapshot()), h, ack, now) && Valid()
    {
      hide Inv, Grew;
      AcknowledgeKeeps(policy, Snapshot(), h, ack, now);
      if Blank(ack.eventId) || Blank(ack.consumerId) { return Rejected(InvalidArgument); }
      var admitted := Admit(Snapshot(), h, now, {Delivering});
      if admitted.Err? { return Rejected(admitted.code); }
      var e, aid := events[h.workId], admitted.value.handle.attemptId;
      if ack.eventId != e.def.id { return Rejected(IdempotencyConflict); }
      if ack.consumerId != e.def.destinationId { return Rejected(LeaseMismatch); }
      var a := attempts[aid].(finishedAt := Some(now), outcome := Succeeded);
      a := a.(acknowledgedAt := Some(now), acknowledgedEventId := Some(ack.eventId), consumerId := Some(ack.consumerId),
              disposition := Some(ack.disposition), observation := Acknowledged);
      attempts := attempts[aid := a];
      e := e.(state := Delivered, stateChangedAt := now, lastObservedAt := now, lease := None);
      e := e.(deliveredAt := Some(now), disposition := Some(ack.disposition));
      events := events[h.workId := e];
      AppendAudit(DeliveryAcknowledged, h.workId, Some(aid), Worker, admitted.value.handle.workerId, now);
      r := Events([e]);
    }

    /** `#finishFailure` */
    method Finish(id: string, failure: FailureCause, now: int, actor: Actor, actorId: string, retried: AttemptOutcome)
      returns (r: Reply)
      requires HasAttempt(Snapshot(), id)
      modifies this`events, this`attempts, this`audit
      ensures (Snapshot(), r) == FinishFailure(policy, old(Snapshot()), id, failure, now, actor, actorId, retried)
    {
      hide RetryAt, CanRetry, Log;
      var e := events[id];
      var aid := e.lease.value.handle.attemptId;
      var retry := CanRetry(policy, e, failure);
      attempts := attempts[aid := attempts[aid].(finishedAt := Some(now), failure := Some(failure),
                                                 outcome := if retry then retried else DeadLettered)];
      var first := if e.firstFailure.None? then Some(failure) else e.firstFailure;
      e := e.(firstFailure := first, lastFailure := Some(failure), lease := None, stateChangedAt := now, lastObservedAt := now);
      if retry {
        r := ScheduleRetry(id, e, aid, now, actor, actorId);
      } else {
        e := e.(state := DeadLetter);
        events := events[id := e];
        AppendAudit(DeadLetters, id, Some(aid), actor, actorId, now);
        r := Events([e]);
      }
    }

    /** The retry branch of `#finishFailure`: the state is stored before the time is known. */
    method ScheduleRetry(id: string, was: Event, aid: string, now: int, actor: Actor, actorId: string) returns (r: Reply)
      modifies this`events, this`audit
      ensures var due := RetryAt(now, was.attemptsInCycle, policy);
        var e := was.(state := RetryWait, availableAt := if due.Ok? then due.value else was.availableAt);
        events == old(events)[id := e] && r == (if due.Ok? then Events([e]) else Rejected(due.code)) &&
        audit == if due.Ok? then Log(old(audit), RetryPlanned, id, Some(aid), actor, actorId, now) else old(audit)
    {
      hide RetryAt, Log;
      var e := was.(state := RetryWait);
      events := events[id := e];
      var due := RetryAt(now, e.attemptsInCycle, policy);
      if due.Err? { return Rejected(due.code); }
      e := e.(availableAt := due.value);
      events := events[id := e];
      assert events == old(events)[id := e];
      AppendAudit(RetryPlanned, id, Some(aid), actor, actorId, now);
      r := Events([e]);
    }

    method Fail(h: LeaseHandle, failure: FailureCause, now: int) returns (r: Reply)
      requires Valid()
      modifies this`events, this`attempts, this`audit
      ensures (Snapshot(), r) == FailDelivery(policy, old(Snapshot()), h, failure, now) && Valid()
    {
      hide Inv, Grew;
      FailKeeps(policy, Snapshot(), h, failure, now);
      Admitted(policy, Snapshot(), h, now, {Leased, Delivering});
      if !ValidFailure(failure) { return Rejected(InvalidArgument); }
      var admitted := Admit(Snapshot(), h, now, {Leased, Delivering});
      if admitted.Err? { return Rejected(admitted.code); }
      r := Finish(h.workId, failure, now, Worker, admitted.value.handle.workerId, RetryScheduled);
    }

    /** One turn of the reaper's loop. */
    method ReclaimOneLease(id: string, now: int) returns (r: Reply)
      requires Valid()
      modifies this`events, this`attempts, this`audit
      ensures (Snapshot(), r) == ReclaimOne(policy, old(Snapshot()), id, now) && Valid()
    {
      hide Inv, Grew, FinishFailure;
      ReclaimOneKeeps(policy, Snapshot(), id, now);
      if !LeaseIsOver(Snapshot(), id, now) { return Events([]); }
      Facts(policy, Snapshot(), id);
      if now < events[id].lastObservedAt { return Rejected(DatabaseTimeRegression); }
      var aid := events[id].lease.value.handle.attemptId;
      var sent := attempts[aid].deliveryStartedAt.Some?;
      AppendAudit(LeaseLost, id, Some(aid), System, "lease-reaper", now);
      r := Finish(id, ExpiryCause(sent), now, System, "lease-reaper", Expired);
    }

    /** The reaper's loop over the sorted events. */
    method ReapEach(list: seq<string>, now: int) returns (r: Reply)
      requires Valid()
      modifies this`events, this`attempts, this`audit
      ensures (Snapshot(), r) == ReclaimEach(policy, old(Snapshot()), list, now) && Valid()
    {
      ghost var s := Snapshot();
      hide Inv, ReclaimOne, ReclaimEach, Prefixed;
      var reclaimed: seq<Event> := [];
      var k := 0;
      assert list[0..] == list;
      PrefixedNothing(ReclaimEach(policy, s, list, now));
      while k < |list|
        invariant 0 <= k <= |list| && Valid()
        invariant ReclaimEach(policy, s, list, now) ==
          Prefixed(reclaimed, ReclaimEach(policy, Snapshot(), list[k..], now))
      {
        assert list[k..][0] == list[k] && list[k..][1..] == list[k + 1..];
        ReclaimUnfold(policy, Snapshot(), list[k..], now);
        var one := ReclaimOneLease(list[k], now);
        if !one.Events? {
          PrefixedRejected(reclaimed, (Snapshot(), one));
          return one;
        }
        PrefixedStep(reclaimed, one.events, ReclaimEach(policy, Snapshot(), list[k + 1..], now));
        reclaimed := reclaimed + one.events;
        k := k + 1;
      }
      assert list[k..] == [];
      ReclaimNothing(policy, Snapshot(), now);
      PrefixedDone(reclaimed, Snapshot());
      r := Events(reclaimed);
    }

    method ReclaimExpiredLeases(now: int) returns (r: Reply, ghost order: seq<string>)
      requires Valid()
      modifies this`events, this`attempts, this`audit
      ensures IsReapOrder(old(Snapshot()), order)
      ensures (Snapshot(), r) == Reclaim(policy, old(Snapshot()), order, now) && Valid()
    {
      IdsAreKeys(policy, Snapshot());
      hide Inv, ReclaimEach, ClaimedFirst;
      var list := SortByClaim(events);
      order := list;
      assert IsReapOrder(Snapshot(), order);
      hide IsReapOrder;
      if !IsTime(now) { return Rejected(InvalidArgument), order; }
      r := ReapEach(list, now);
    }

    method ReplayDeadLetter(id: string, operatorId: string, reasonCode: string, now: int) returns (r: Reply)
      requires Valid()
      modifies this`events, this`audit
      ensures (Snapshot(), r) == Replay(old(Snapshot()), id, operatorId, reasonCode, now) && Valid()
    {
      hide Inv, Grew;
      ReplayKeeps(policy, Snapshot(), id, operatorId, reasonCode, now);
      if Blank(operatorId) || !IsAuditCode(reasonCode) { return Rejected(InvalidArgument); }
      if id !in events { return Rejected(NotFound); }
      var e := events[id];
      if !IsTime(now) { return Rejected(InvalidArgument); }
      if now < e.lastObservedAt { return Rejected(DatabaseTimeRegression); }
      if e.state != DeadLetter { return Rejected(InvalidState); }
      e := e.(state := Pending, availableAt := now, stateChangedAt := now, lastObservedAt := now, lease := None);
      e := e.(replayCycle := e.replayCycle + 1, replayCount := e.replayCount + 1, attemptsInCycle := 0);
      events := events[id := e];
      AppendAudit(Replayed, id, None, Operator, operatorId, now);
      r := Events([e]);
    }
  }

  /** The events reclaimed so far, in front of what the rest of the loop answers. */
  function Prefixed(done: seq<Event>, next: (State, Reply)): (State, Reply)
  {
    (next.0, if next.1.Events? then Events(done + next.1.events) else next.1)
  }

  lemma PrefixedNothing(next: (State, Reply))
    ensures Prefixed([], next) == next
  {
    if next.1.Events? { assert [] + next.1.events == next.1.events; }
  }

  lemma PrefixedRejected(done: seq<Event>, next: (State, Reply))
    ensures !next.1.Events? ==> Prefixed(done, next) == next
  {
  }

  lemma PrefixedDone(done: seq<Event>, s: State)
    ensures Prefixed(done, (s, Events([]))) == (s, Events(done))
  {
    assert done + [] == done;
  }

  lemma PrefixedStep(done: seq<Event>, more: seq<Event>, next: (State, Reply))
    ensures Prefixed(done, Prefixed(more, next)) == Prefixed(done + more, next)
    ensures Prefixed(more, next) == (next.0, if next.1.Events? then Events(more + next.1.events) else next.1)
  {
    if next.1.Events? { assert done + (more + next.1.events) == (done + more) + next.1.events; }
  }

  lemma ReclaimNothing(p: RetryPolicy, s: State, now: int)
    ensures ReclaimEach(p, s, [], now) == (s, Events([]))
  {
  }
}
