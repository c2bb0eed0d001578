/** What each call of the Outbox comes to, on the fields a caller sees: with which code it is refused,
    what an accepted call changes, and that it changes nothing else. Times, waits and orders are written
    out here, apart from the transitions. */
module OutboxMeaning {
  import opened Texts
  import opened DurableWork
  import opened DurableMeaning
  import opened Outbox
  import opened OutboxInvariants
  import opened OutboxSteps
  import Encodings

  /** Event `id` is now `e'`, attempt `aid` is now `a'`, the log is longer by `records`, and all else is as it was. */
  predicate Becomes(s: State, t: State, id: string, e': Event, aid: string, a': Attempt, records: seq<AuditRecord>)
  {
    t == State(s.events[id := e'], s.attempts[aid := a'], s.transactions, s.positions, s.audit + records)
  }

  function Line(s: State, kind: AuditKind, id: string, aid: Option<string>, actor: Actor, actorId: string, now: int): seq<AuditRecord>
  {
    [AuditRecord(|s.audit| + 1, kind, id, aid, actor, actorId, now)]
  }

  // ---------------------------------------------------------------- lease holders

  /** `h` is the event's own lease, in one of `phases`, and it has not run out at `now`. */
  predicate IsCurrent(s: State, h: LeaseHandle, now: int, phases: set<EventState>)
  {
    h.workId in s.events &&
    var e := s.events[h.workId];
    e.state in phases && Safe(now) && e.lastObservedAt <= now && e.lease.Some? && e.lease.value.handle == h && now < e.lease.value.expiresAt
  }

  /** The code a call that is not from the holder is refused with. */
  function Complaint(s: State, h: LeaseHandle, now: int, phases: set<EventState>): ErrorCode
  {
    if h.workId !in s.events then NotFound
    else
      var e := s.events[h.workId];
      if e.state !in phases then InvalidState
      else if !Safe(now) then InvalidArgument
      else if now < e.lastObservedAt then DatabaseTimeRegression
      else if e.lease.None? || e.lease.value.handle != h then LeaseMismatch
      else LeaseExpired
  }

  lemma HolderMeans(p: RetryPolicy, s: State, h: LeaseHandle, now: int, phases: set<EventState>)
    requires Inv(p, s) && phases <= {Leased, Delivering}
    ensures Admit(s, h, now, phases) ==
      if IsCurrent(s, h, now, phases) then Ok(s.events[h.workId].lease.value) else Err(Complaint(s, h, now, phases))
    ensures IsCurrent(s, h, now, phases) ==> h.attemptId in s.attempts
  {
    hide Inv, CheckLease;
    if h.workId in s.events {
      OwnLease(p, s, h.workId);
      CheckMeans(s.events[h.workId].def.id, s.events[h.workId].lastObservedAt, s.events[h.workId].lease, h, now, OutboxWork);
    }
  }

  /** A lease names its own event and an attempt on record, and only an event in flight has one. */
  lemma OwnLease(p: RetryPolicy, s: State, id: string)
    requires Inv(p, s) && id in s.events
    ensures s.events[id].def.id == id && (s.events[id].state in {Leased, Delivering} <==> s.events[id].lease.Some?)
    ensures s.events[id].lease.Some? ==>
      var h := s.events[id].lease.value.handle; h.workKind == OutboxWork && h.workId == id && h.attemptId in s.attempts
  {
    Facts(p, s, id);
    hide Inv, CycleBudget, AttemptOk;
  }

  /** A heartbeat moves the end of the lease to now plus the lease duration. */
  lemma HeartbeatMeans(p: RetryPolicy, s: State, h: LeaseHandle, now: int)
    requires p.Valid() && Inv(p, s)
    ensures var (t, r) := Heartbeat(p, s, h, now);
      if !IsCurrent(s, h, now, {Leased, Delivering}) then t == s && r == Rejected(Complaint(s, h, now, {Leased, Delivering}))
      else
        h.attemptId in s.attempts && RenewedTo(p, s, h, now, t, r)
  {
    HolderMeans(p, s, h, now, {Leased, Delivering});
    hide Inv, Admit, Complaint, RenewedTo;
    if IsCurrent(s, h, now, {Leased, Delivering}) {
      HeartbeatRenews(p, s, h, now);
    } else {
      hide IsCurrent;
    }
    hide Heartbeat;
  }

  lemma HeartbeatRenews(p: RetryPolicy, s: State, h: LeaseHandle, now: int)
    requires p.Valid() && h.workId in s.events && h.attemptId in s.attempts && s.events[h.workId].lease.Some?
    requires s.events[h.workId].lease.value.handle == h && Admit(s, h, now, {Leased, Delivering}) == Ok(s.events[h.workId].lease.value) && Safe(now)
    ensures RenewedTo(p, s, h, now, Heartbeat(p, s, h, now).0, Heartbeat(p, s, h, now).1)
  {
    hide Admit;
    assert s.attempts == s.attempts[h.attemptId := s.attempts[h.attemptId]] && s.audit + [] == s.audit;
  }

  /** If the new end is no safe integer, only the time of the heartbeat is noted on the lease. */
  predicate RenewedTo(p: RetryPolicy, s: State, h: LeaseHandle, now: int, t: State, r: Reply)
    requires h.workId in s.events && s.events[h.workId].lease.Some? && h.attemptId in s.attempts
  {
    var e, lease, a := s.events[h.workId], s.events[h.workId].lease.value, s.attempts[h.attemptId];
    if Safe(now + p.leaseDurationMs) then
      Becomes(s, t, h.workId, e.(lease := Some(ActiveLease(h, lease.acquiredAt, now, now + p.leaseDurationMs)), lastObservedAt := now),
              h.attemptId, a.(lastHeartbeatAt := now), Line(s, Heartbeats, h.workId, Some(h.attemptId), Worker, h.workerId, now)) &&
      r == Renewed(h)
    else
      Becomes(s, t, h.workId, e.(lease := Some(ActiveLease(h, lease.acquiredAt, now, lease.expiresAt))), h.attemptId, a, []) &&
      r == Rejected(InvalidArgument)
  }

  lemma StartMeans(p: RetryPolicy, s: State, h: LeaseHandle, now: int)
    requires Inv(p, s)
    ensures var (t, r) := StartDelivery(s, h, now);
      if !IsCurrent(s, h, now, {Leased}) then t == s && r == Rejected(Complaint(s, h, now, {Leased}))
      else
        h.attemptId in s.attempts && StartedTo(s, h, now, t, r)
  {
    HolderMeans(p, s, h, now, {Leased});
    hide Inv, Admit, Complaint, StartedTo;
    if IsCurrent(s, h, now, {Leased}) {
      StartStarts(s, h, now);
    } else {
      hide IsCurrent;
    }
    hide StartDelivery;
  }

  predicate StartedTo(s: State, h: LeaseHandle, now: int, t: State, r: Reply)
    requires h.workId in s.events && h.attemptId in s.attempts
  {
    Becomes(s, t, h.workId, s.events[h.workId].(state := Delivering, stateChangedAt := now, lastObservedAt := now),
            h.attemptId, s.attempts[h.attemptId].(deliveryStartedAt := Some(now), observation := SentNoAck),
            Line(s, DeliveryStarted, h.workId, Some(h.attemptId), Worker, h.workerId, now)) &&
    r == Events([t.events[h.workId]])
  }

  lemma StartStarts(s: State, h: LeaseHandle, now: int)
    requires h.workId in s.events && h.attemptId in s.attempts && s.events[h.workId].lease.Some? && s.events[h.workId].lease.value.handle == h
    requires Admit(s, h, now, {Leased}) == Ok(s.events[h.workId].lease.value)
    ensures StartedTo(s, h, now, StartDelivery(s, h, now).0, StartDelivery(s, h, now).1)
  {
    hide Admit;
  }

  /** Only the destination can acknowledge, and only the event it was sent. */
  lemma AcknowledgeMeans(p: RetryPolicy, s: State, h: LeaseHandle, ack: Acknowledgement, now: int)
    requires Inv(p, s)
    ensures var (t, r) := Acknowledge(s, h, ack, now);
      if Blank(ack.eventId) || Blank(ack.consumerId) then t == s && r == Rejected(InvalidArgument)
      else if !IsCurrent(s, h, now, {Delivering}) then t == s && r == Rejected(Complaint(s, h, now, {Delivering}))
      else if ack.eventId != h.workId then t == s && r == Rejected(IdempotencyConflict)
      else if ack.consumerId != s.events[h.workId].def.destinationId then t == s && r == Rejected(LeaseMismatch)
      else
        h.attemptId in s.attempts && AcknowledgedTo(s, h, ack, now, t, r)
  {
    HolderMeans(p, s, h, now, {Delivering});
    IdsAreKeys(p, s);
    hide Inv, Admit, Complaint, AcknowledgedTo;
    if IsCurrent(s, h, now, {Delivering}) {
      AcknowledgeDecides(s, h, ack, now);
    } else {
      hide IsCurrent;
    }
    hide Acknowledge;
  }

  predicate AcknowledgedTo(s: State, h: LeaseHandle, ack: Acknowledgement, now: int, t: State, r: Reply)
    requires h.workId in s.events && h.attemptId in s.attempts
  {
    Becomes(s, t, h.workId,
            s.events[h.workId].(state := Delivered, stateChangedAt := now, lastObservedAt := now, lease := None,
                                deliveredAt := Some(now), disposition := Some(ack.disposition)),
            h.attemptId,
            s.attempts[h.attemptId].(finishedAt := Some(now), outcome := Succeeded, acknowledgedAt := Some(now),
                                     acknowledgedEventId := Some(h.workId), consumerId := Some(ack.consumerId),
                                     disposition := Some(ack.disposition), observation := Acknowledged),
            Line(s, DeliveryAcknowledged, h.workId, Some(h.attemptId), Worker, h.workerId, now)) &&
    r == Events([t.events[h.workId]])
  }

  lemma AcknowledgeDecides(s: State, h: LeaseHandle, ack: Acknowledgement, now: int)
    requires h.workId in s.events && h.attemptId in s.attempts && s.events[h.workId].lease.Some? && s.events[h.workId].lease.value.handle == h
    requires s.events[h.workId].def.id == h.workId && Admit(s, h, now, {Delivering}) == Ok(s.events[h.workId].lease.value)
    ensures var (t, r) := Acknowledge(s, h, ack, now);
      if Blank(ack.eventId) || Blank(ack.consumerId) then t == s && r == Rejected(InvalidArgument)
      else if ack.eventId != h.workId then t == s && r == Rejected(IdempotencyConflict)
      else if ack.consumerId != s.events[h.workId].def.destinationId then t == s && r == Rejected(LeaseMismatch)
      else AcknowledgedTo(s, h, ack, now, t, r)
  {
    hide Admit, Blank;
  }

  // ---------------------------------------------------------------- failure

  /** The event is not tried again in this cycle. */
  predicate GivesUp(p: RetryPolicy, e: Event, failure: FailureCause)
  {
    !failure.retryable || e.attemptsInCycle == p.maximumAttemptsPerCycle
  }

  /** What every failure leaves on the event. */
  function Marked(e: Event, failure: FailureCause, now: int): Event
  {
    e.(firstFailure := if e.firstFailure.Some? then e.firstFailure else Some(failure), lastFailure := Some(failure),
       lease := None, stateChangedAt := now, lastObservedAt := now)
  }

  function Ended(a: Attempt, failure: FailureCause, outcome: AttemptOutcome, now: int): Attempt
  {
    a.(finishedAt := Some(now), failure := Some(failure), outcome := outcome)
  }

  /** The lease holder of `id` failed: dead-lettered, or waiting for its next attempt, or, if the time of
      that attempt is no safe integer, left half way. */
  predicate FailsTo(p: RetryPolicy, s: State, id: string, failure: FailureCause, now: int,
                    actor: Actor, actorId: string, retried: AttemptOutcome, t: State, r: Reply)
    requires HasAttempt(s, id) && 1 <= s.events[id].attemptsInCycle
  {
    var e, aid := s.events[id], s.events[id].lease.value.handle.attemptId;
    var due := now + Wait(p, e.attemptsInCycle);
    if GivesUp(p, e, failure) then
      Becomes(s, t, id, Marked(e, failure, now).(state := DeadLetter), aid, Ended(s.attempts[aid], failure, DeadLettered, now),
              Line(s, DeadLetters, id, Some(aid), actor, actorId, now)) &&
      r == Events([t.events[id]])
    else if Safe(due) then
      Becomes(s, t, id, Marked(e, failure, now).(state := RetryWait, availableAt := due), aid, Ended(s.attempts[aid], failure, retried, now),
              Line(s, RetryPlanned, id, Some(aid), actor, actorId, now)) &&
      r == Events([t.events[id]])
    else
      Becomes(s, t, id, Marked(e, failure, now).(state := RetryWait), aid, Ended(s.attempts[aid], failure, retried, now), []) &&
      r == Rejected(InvalidArgument)
  }

  lemma FinishMeans(p: RetryPolicy, s: State, id: string, failure: FailureCause, now: int, actor: Actor, actorId: string, retried: AttemptOutcome)
    requires p.Valid() && Safe(now) && HasAttempt(s, id) && 1 <= s.events[id].attemptsInCycle <= p.maximumAttemptsPerCycle
    ensures var (t, r) := FinishFailure(p, s, id, failure, now, actor, actorId, retried);
      FailsTo(p, s, id, failure, now, actor, actorId, retried, t, r)
  {
    DueMeans(p, now, s.events[id].attemptsInCycle);
    hide RetryAt, Wait, RetryPolicy.Valid;
    assert s.audit + [] == s.audit;
  }

  lemma AttemptsCounted(p: RetryPolicy, s: State, id: string)
    requires Inv(p, s) && id in s.events && s.events[id].lease.Some?
    ensures HasAttempt(s, id) && 1 <= s.events[id].attemptsInCycle <= p.maximumAttemptsPerCycle
  {
    Facts(p, s, id);
    hide Inv, CycleBudget, AttemptOk;
  }

  /** A failure that may not be retried, or that ends the last attempt of a cycle, dead-letters the event;
      any other schedules the next attempt after the backoff. */
  lemma FailMeans(p: RetryPolicy, s: State, h: LeaseHandle, failure: FailureCause, now: int)
    requires p.Valid() && Inv(p, s)
    ensures var (t, r) := FailDelivery(p, s, h, failure, now);
      if Blank(failure.code) || Blank(failure.fingerprint) then t == s && r == Rejected(InvalidArgument)
      else if !IsCurrent(s, h, now, {Leased, Delivering}) then t == s && r == Rejected(Complaint(s, h, now, {Leased, Delivering}))
      else
        HasAttempt(s, h.workId) && 1 <= s.events[h.workId].attemptsInCycle &&
        FailsTo(p, s, h.workId, failure, now, Worker, h.workerId, RetryScheduled, t, r)
  {
    HolderMeans(p, s, h, now, {Leased, Delivering});
    hide Inv, Admit, FinishFailure, FailsTo, Complaint, Blank;
    if IsCurrent(s, h, now, {Leased, Delivering}) {
      AttemptsCounted(p, s, h.workId);
      FinishMeans(p, s, h.workId, failure, now, Worker, h.workerId, RetryScheduled);
    } else {
      hide IsCurrent;
    }
  }

  /** An operator's replay puts a dead-lettered event back at the start of a new cycle. */
  lemma ReplayMeans(p: RetryPolicy, s: State, id: string, operatorId: string, reasonCode: string, now: int)
    requires Inv(p, s)
    ensures var (t, r) := Replay(s, id, operatorId, reasonCode, now);
      if Blank(operatorId) || !IsAuditCode(reasonCode) then t == s && r == Rejected(InvalidArgument)
      else if id !in s.events then t == s && r == Rejected(NotFound)
      else if !Safe(now) then t == s && r == Rejected(InvalidArgument)
      else if now < s.events[id].lastObservedAt then t == s && r == Rejected(DatabaseTimeRegression)
      else if s.events[id].state != DeadLetter then t == s && r == Rejected(InvalidState)
      else ReplayedTo(s, id, operatorId, now, t, r)
  {
    if id in s.events { OwnLease(p, s, id); }
    hide Inv, IsAuditCode, Blank;
    if id in s.events && s.events[id].state == DeadLetter { assert s.events[id].(lease := None) == s.events[id]; }
  }

  predicate ReplayedTo(s: State, id: string, operatorId: string, now: int, t: State, r: Reply)
    requires id in s.events
  {
    t == State(s.events[id := s.events[id].(state := Pending, availableAt := now, stateChangedAt := now, lastObservedAt := now,
                                            replayCycle := s.events[id].replayCycle + 1,
                                            replayCount := s.events[id].replayCount + 1, attemptsInCycle := 0)],
               s.attempts, s.transactions, s.positions, s.audit + Line(s, Replayed, id, None, Operator, operatorId, now)) &&
    r == Events([t.events[id]])
  }

  // ---------------------------------------------------------------- claim

  /** `x` stands before `e` in the same stream. */
  predicate StandsBefore(x: Event, e: Event)
  {
    x.projectId == e.projectId && x.def.destinationId == e.def.destinationId && x.def.objectRid == e.def.objectRid &&
    (x.def.changeSetSequence < e.def.changeSetSequence ||
     (x.def.changeSetSequence == e.def.changeSetSequence && x.def.eventOrdinal < e.def.eventOrdinal))
  }

  /** The event waits, its time has come, the destination asked for is its own, and everything that stands
      before it in its stream is delivered. */
  predicate Ready(s: State, id: string, now: int, destination: Option<string>)
  {
    id in s.events &&
    (s.events[id].state == Pending || s.events[id].state == RetryWait) && s.events[id].availableAt <= now &&
    (destination.Some? ==> s.events[id].def.destinationId == destination.value) &&
    forall x :: x in s.events && StandsBefore(s.events[x], s.events[id]) ==> s.events[x].state == Delivered
  }

  lemma PositionsDiffer(p: RetryPolicy, s: State, x: string, y: string)
    requires Inv(p, s) && x in s.events && y in s.events && x != y && StreamOf(s.events[x]) == StreamOf(s.events[y])
    ensures s.events[x].def.changeSetSequence != s.events[y].def.changeSetSequence || s.events[x].def.eventOrdinal != s.events[y].def.eventOrdinal
  {
    hide EventsOk, AttemptsOk, CountsOk, OrderOk, TransactionsOk, AuditOk;
  }

  lemma PrecedesMeans(p: RetryPolicy, s: State, x: string, y: string)
    requires Inv(p, s) && x in s.events && y in s.events
    ensures Precedes(s.events[x], s.events[y]) <==> StandsBefore(s.events[x], s.events[y])
  {
    if x == y {
      LessTotal(s.events[x].def.id, s.events[x].def.id);
    } else if StreamOf(s.events[x]) == StreamOf(s.events[y]) {
      PositionsDiffer(p, s, x, y);
    }
    hide Inv;
  }

  lemma ReadyMeans(p: RetryPolicy, s: State, id: string, now: int, destination: Option<string>)
    requires Inv(p, s)
    ensures Claimable(s, id, now, destination) <==> Ready(s, id, now, destination)
  {
    hide Inv, Precedes, StandsBefore;
    forall x | x in s.events && id in s.events
      ensures Precedes(s.events[x], s.events[id]) <==> StandsBefore(s.events[x], s.events[id])
    {
      PrecedesMeans(p, s, x, id);
    }
  }

  /** Of two events in one stream at most one is ready. */
  lemma OneReady(p: RetryPolicy, s: State, x: string, y: string, now: int, destination: Option<string>)
    requires Inv(p, s) && Ready(s, x, now, destination) && Ready(s, y, now, destination) && x != y
    ensures StreamOf(s.events[x]) != StreamOf(s.events[y])
  {
    if StreamOf(s.events[x]) == StreamOf(s.events[y]) { PositionsDiffer(p, s, x, y); }
    hide Inv;
    assert s.events[x].state != Delivered && s.events[y].state != Delivered;
  }

  function StreamText(e: Event): string
  {
    Encodings.JsonStrings([e.projectId, e.def.destinationId, e.def.objectRid])
  }

  /** `e` has waited longer than `f`: by the time it is available, then by its commit, then by the text of its stream. */
  predicate Sooner(e: Event, f: Event)
  {
    e.availableAt < f.availableAt ||
    (e.availableAt == f.availableAt &&
     (e.committedAt < f.committedAt || (e.committedAt == f.committedAt && Less(StreamText(e), StreamText(f)))))
  }

  /** The order of claims and of the reaper: `Sooner`, and within a stream by position. */
  lemma OrderMeans(e: Event, f: Event)
    ensures ClaimedFirst(e, f) <==>
      Sooner(e, f) ||
      (e.availableAt == f.availableAt && e.committedAt == f.committedAt && StreamText(e) == StreamText(f) &&
       (e.def.changeSetSequence < f.def.changeSetSequence ||
        (e.def.changeSetSequence == f.def.changeSetSequence &&
         (e.def.eventOrdinal < f.def.eventOrdinal || (e.def.eventOrdinal == f.def.eventOrdinal && Less(e.def.id, f.def.id))))))
  {
    assert StreamKey(StreamOf(e)) == StreamText(e) && StreamKey(StreamOf(f)) == StreamText(f);
    hide StreamKey, StreamText;
  }

  lemma SoonerMeans(p: RetryPolicy, s: State, x: string, y: string, now: int, destination: Option<string>)
    requires Inv(p, s) && Ready(s, x, now, destination) && Ready(s, y, now, destination) && x != y
    ensures ClaimedFirst(s.events[x], s.events[y]) <==> Sooner(s.events[x], s.events[y])
  {
    var e, f := s.events[x], s.events[y];
    OneReady(p, s, x, y, now, destination);
    hide Inv, Ready;
    var a, b := [e.projectId, e.def.destinationId, e.def.objectRid], [f.projectId, f.def.destinationId, f.def.objectRid];
    assert a != b by { assert a[0] == e.projectId && a[1] == e.def.destinationId && a[2] == e.def.objectRid; }
    Encodings.JsonStringsInjective(a, b);
    assert StreamText(e) != StreamText(f);
    hide Encodings.JsonStrings, Before;
  }

  /** A claim grants the ready event that has waited longest, for exactly the lease duration. */
  lemma ClaimMeans(p: RetryPolicy, s: State, workerId: string, attemptId: string, now: int, destination: Option<string>, pick: Option<string>)
    requires p.Valid() && Inv(p, s) && IsPick(s, now, destination, pick)
    ensures var (t, r) := Claim(p, s, workerId, attemptId, now, destination, pick);
      if Blank(workerId) || Blank(attemptId) || !Safe(now) || (destination.Some? && Blank(destination.value)) then
        t == s && r == Rejected(InvalidArgument)
      else if attemptId in s.attempts then t == s && r == Rejected(AlreadyExists)
      else if pick.None? then t == s && r == NothingToClaim && forall id :: !Ready(s, id, now, destination)
      else
        var id := pick.value;
        Ready(s, id, now, destination) && (forall k :: k != id && Ready(s, k, now, destination) ==> Sooner(s.events[id], s.events[k])) &&
        if now < s.events[id].lastObservedAt then t == s && r == Rejected(DatabaseTimeRegression)
        else if !Safe(now + p.leaseDurationMs) then t == s && r == Rejected(InvalidArgument)
        else GrantedTo(p, s, workerId, attemptId, now, id, t, r)
  {
    hide Inv, Claimable, ClaimedFirst, Ready, Sooner;
    forall k
      ensures Claimable(s, k, now, destination) <==> Ready(s, k, now, destination)
    {
      ReadyMeans(p, s, k, now, destination);
    }
    forall k | Ready(s, k, now, destination)
      ensures k in s.events
    {
      ReadyIsThere(s, k, now, destination);
    }
    if pick.Some? {
      forall k | k != pick.value && Ready(s, k, now, destination)
        ensures Sooner(s.events[pick.value], s.events[k])
      {
        SoonerMeans(p, s, pick.value, k, now, destination);
      }
    }
  }

  lemma ReadyIsThere(s: State, id: string, now: int, destination: Option<string>)
    requires Ready(s, id, now, destination)
    ensures id in s.events
  {
  }

  predicate GrantedTo(p: RetryPolicy, s: State, workerId: string, attemptId: string, now: int, id: string, t: State, r: Reply)
    requires id in s.events
  {
    var e := s.events[id];
    var h := LeaseHandle(OutboxWork, id, attemptId, workerId, e.nextFencingToken);
    Becomes(s, t, id,
            e.(state := Leased, stateChangedAt := now, lastObservedAt := now, lease := Some(ActiveLease(h, now, now, now + p.leaseDurationMs)),
               nextFencingToken := e.nextFencingToken + 1, attemptsInCycle := e.attemptsInCycle + 1, totalAttempts := e.totalAttempts + 1),
            attemptId,
            Attempt(id, workerId, h.fencingToken, e.replayCycle, e.attemptsInCycle + 1, e.totalAttempts + 1, now, now, None, Active, None,
                    None, None, None, None, None, NotSent),
            Line(s, Claimed, id, Some(attemptId), Worker, workerId, now)) &&
    r == Granted(t.events[id], h)
  }
}
