/** The Outbox transitions as functions of the whole state, one per public operation.
    An operation that throws half way keeps the changes it has already made. */
module Outbox {
  import opened Texts
  import opened DurableWork
  import Encodings

  const MAX_POSTGRES_BIGINT := 9223372036854775807

  datatype EventState = Pending | Leased | Delivering | RetryWait | Delivered | DeadLetter
  datatype Disposition = Applied | AlreadyApplied

  datatype NewEvent = NewEvent(
    id: string, actionExecutionId: string, changeSetId: string, changeSetSequence: int, eventOrdinal: int,
    objectRid: string, destinationId: string, eventType: string, payloadSchemaVersion: string,
    payloadDigest: string, actorId: string)

  datatype Event = Event(
    def: NewEvent, projectId: string, transactionId: string, correlationId: string,
    state: EventState, committedAt: int, availableAt: int, stateChangedAt: int, lastObservedAt: int,
    lease: Option<ActiveLease>, nextFencingToken: int, replayCycle: int, replayCount: int,
    attemptsInCycle: int, totalAttempts: int,
    firstFailure: Option<FailureCause>, lastFailure: Option<FailureCause>,
    deliveredAt: Option<int>, disposition: Option<Disposition>)

  datatype Observation = NotSent | SentNoAck | Acknowledged
  datatype Attempt = Attempt(
    workId: string, workerId: string, fencingToken: int, replayCycle: int, attemptInCycle: int,
    totalAttempt: int, startedAt: int, lastHeartbeatAt: int, finishedAt: Option<int>,
    outcome: AttemptOutcome, failure: Option<FailureCause>,
    deliveryStartedAt: Option<int>, acknowledgedAt: Option<int>, acknowledgedEventId: Option<string>,
    consumerId: Option<string>, disposition: Option<Disposition>, observation: Observation)

  datatype Transaction = Transaction(digest: string, signature: string, eventIds: seq<string>, committedAt: int)

  datatype AuditKind =
    | Committed | Claimed | Heartbeats | DeliveryStarted | DeliveryAcknowledged
    | RetryPlanned | DeadLetters | LeaseLost | Replayed
  datatype AuditRecord = AuditRecord(
    sequence: int, kind: AuditKind, workId: string, attemptId: Option<string>,
    actor: Actor, actorId: string, databaseAt: int)

  /** `streamPositionKey`: its JSON text is compared as this tuple
      (`OutboxCommit.PositionKeyInjective`). */
  datatype Position = Position(stream: Stream, changeSetSequence: int, eventOrdinal: int)
  datatype Stream = Stream(projectId: string, destinationId: string, objectRid: string)

  datatype State = State(
    events: map<string, Event>, attempts: map<string, Attempt>,
    transactions: map<string, Transaction>, positions: map<Position, string>, audit: seq<AuditRecord>)

  datatype CommitInput = CommitInput(
    transactionId: string, digest: string, projectId: string, correlationId: string, now: int,
    events: seq<NewEvent>)
  datatype Acknowledgement = Acknowledgement(eventId: string, consumerId: string, disposition: Disposition)

  datatype Reply =
    | Rejected(code: ErrorCode)
    | Events(events: seq<Event>)
    | Granted(event: Event, handle: LeaseHandle)
    | NothingToClaim
    | Renewed(handle: LeaseHandle)

  const Empty := State(map[], map[], map[], map[], [])

  // ---------------------------------------------------------------- keys and order

  function StreamOf(e: Event): Stream
  {
    Stream(e.projectId, e.def.destinationId, e.def.objectRid)
  }

  function PositionOf(e: Event): Position
  {
    Position(StreamOf(e), e.def.changeSetSequence, e.def.eventOrdinal)
  }

  /** `streamKey`, the text the claim order compares. */
  function StreamKey(s: Stream): string
  {
    Encodings.JsonStrings([s.projectId, s.destinationId, s.objectRid])
  }

  /** `compareStreamPosition(left, right) < 0` */
  predicate Before(left: NewEvent, right: NewEvent)
  {
    left.changeSetSequence < right.changeSetSequence ||
    (left.changeSetSequence == right.changeSetSequence &&
     (left.eventOrdinal < right.eventOrdinal ||
      (left.eventOrdinal == right.eventOrdinal && Less(left.id, right.id))))
  }

  /** `compareEvents(left, right) < 0` */
  predicate ClaimedFirst(left: Event, right: Event)
  {
    left.availableAt < right.availableAt ||
    (left.availableAt == right.availableAt &&
     (left.committedAt < right.committedAt ||
      (left.committedAt == right.committedAt &&
       (Less(StreamKey(StreamOf(left)), StreamKey(StreamOf(right))) ||
        (StreamKey(StreamOf(left)) == StreamKey(StreamOf(right)) && Before(left.def, right.def))))))
  }

  predicate InFlight(e: Event)
  {
    e.state == Leased || e.state == Delivering
  }

  /** `p` is one of `#predecessors(e)`. */
  predicate Precedes(p: Event, e: Event)
  {
    StreamOf(p) == StreamOf(e) && Before(p.def, e.def)
  }

  predicate PredecessorsDelivered(events: map<string, Event>, e: Event)
  {
    forall p :: p in events && Precedes(events[p], e) ==> events[p].state == Delivered
  }

  // ---------------------------------------------------------------- commit

  function Encode(e: NewEvent): string
  {
    Encodings.JsonStrings([e.id, e.actionExecutionId, e.changeSetId, Encodings.IntText(e.changeSetSequence),
                           Encodings.IntText(e.eventOrdinal), e.objectRid, e.destinationId, e.eventType,
                           e.payloadSchemaVersion, e.payloadDigest, e.actorId])
  }

  function EncodeEach(events: seq<NewEvent>): seq<string>
  {
    if events == [] then [] else [Encode(events[0])] + EncodeEach(events[1..])
  }

  /** `eventDefinitionSignature` */
  function Signature(events: seq<NewEvent>): string
  {
    Encodings.JsonStrings(Sort(EncodeEach(events)))
  }

  predicate ValidInput(input: CommitInput)
  {
    !Blank(input.transactionId) && !Blank(input.digest) && !Blank(input.projectId) &&
    !Blank(input.correlationId) && IsTime(input.now)
  }

  predicate ValidNewEvent(e: NewEvent)
  {
    !Blank(e.id) && !Blank(e.actionExecutionId) && !Blank(e.changeSetId) && !Blank(e.objectRid) &&
    !Blank(e.destinationId) && !Blank(e.eventType) && !Blank(e.payloadSchemaVersion) &&
    !Blank(e.payloadDigest) && !Blank(e.actorId) &&
    0 <= e.changeSetSequence <= MAX_POSTGRES_BIGINT && 0 <= e.eventOrdinal <= MAX_SAFE_INTEGER
  }

  function NewRecord(input: CommitInput, e: NewEvent): Event
  {
    Event(e, input.projectId, input.transactionId, input.correlationId,
          Pending, input.now, input.now, input.now, input.now,
          None, 1, 0, 0, 0, 0, None, None, None, None)
  }

  /** The check of one incoming event against the state and the events before it in its batch. */
  function EventError(s: State, input: CommitInput, earlier: seq<NewEvent>, e: NewEvent): Option<ErrorCode>
  {
    var record := NewRecord(input, e);
    if !ValidNewEvent(e) then Some(InvalidArgument)
    else if e.id in s.events || exists b :: b in earlier && b.id == e.id then Some(AlreadyExists)
    else if PositionOf(record) in s.positions ||
            exists b :: b in earlier && PositionOf(NewRecord(input, b)) == PositionOf(record) then Some(SequenceConflict)
    else if exists x :: x in s.events && StreamOf(s.events[x]) == StreamOf(record) &&
                        s.events[x].def.changeSetSequence >= e.changeSetSequence then Some(SequenceConflict)
    else None
  }

  /** The first error of the batch from index `k` on. */
  function BatchError(s: State, input: CommitInput, k: nat): Option<ErrorCode>
    requires k <= |input.events|
    decreases |input.events| - k
  {
    if k == |input.events| then None
    else
      var error := EventError(s, input, input.events[..k], input.events[k]);
      if error.Some? then error else BatchError(s, input, k + 1)
  }

  function Log(
    audit: seq<AuditRecord>, kind: AuditKind, workId: string, attemptId: Option<string>,
    actor: Actor, actorId: string, now: int): seq<AuditRecord>
  {
    audit + [AuditRecord(|audit| + 1, kind, workId, attemptId, actor, actorId, now)]
  }

  function Store(s: State, e: Event): State
  {
    s.(events := s.events[e.def.id := e],
       positions := s.positions[PositionOf(e) := e.def.id],
       audit := Log(s.audit, Committed, e.def.id, None, System, "business-transaction", e.committedAt))
  }

  /** The state after the first `k` events of an accepted batch are stored. */
  function StoreFirst(s: State, input: CommitInput, k: nat): State
    requires k <= |input.events|
  {
    if k == 0 then s else Store(StoreFirst(s, input, k - 1), NewRecord(input, input.events[k - 1]))
  }

  function Ids(events: seq<NewEvent>): (ids: seq<string>)
    ensures |ids| == |events| && forall i :: 0 <= i < |ids| ==> ids[i] == events[i].id
  {
    seq(|events|, i requires 0 <= i < |events| => events[i].id)
  }

  function NewRecords(input: CommitInput): seq<Event>
  {
    seq(|input.events|, i requires 0 <= i < |input.events| => NewRecord(input, input.events[i]))
  }

  /** `#requiredEvent` over a list of ids. */
  function Fetch(events: map<string, Event>, ids: seq<string>): Reply
  {
    if exists i :: 0 <= i < |ids| && ids[i] !in events then Rejected(NotFound)
    else Events(seq(|ids|, i requires 0 <= i < |ids| => events[ids[i]]))
  }

  function Commit(s: State, input: CommitInput): (State, Reply)
  {
    if !ValidInput(input) then (s, Rejected(InvalidArgument))
    else if input.transactionId in s.transactions then
      var t := s.transactions[input.transactionId];
      if t.digest != input.digest || t.signature != Signature(input.events) then (s, Rejected(IdempotencyConflict))
      else (s, Fetch(s.events, t.eventIds))
    else
      var error := BatchError(s, input, 0);
      if error.Some? then (s, Rejected(error.value))
      else
        var t := Transaction(input.digest, Signature(input.events), Ids(input.events), input.now);
        var stored := StoreFirst(s, input, |input.events|);
        (stored.(transactions := stored.transactions[input.transactionId := t]), Events(NewRecords(input)))
  }

  // ---------------------------------------------------------------- claim

  predicate Claimable(s: State, id: string, now: int, destination: Option<string>)
  {
    id in s.events &&
    var e := s.events[id];
    (e.state == Pending || e.state == RetryWait) && e.availableAt <= now &&
    (destination.None? || e.def.destinationId == destination.value) &&
    PredecessorsDelivered(s.events, e)
  }

  /** `pick` is what filtering and sorting the events puts first. */
  ghost predicate IsPick(s: State, now: int, destination: Option<string>, pick: Option<string>)
  {
    match pick
    case None => forall id :: !Claimable(s, id, now, destination)
    case Some(id) =>
      Claimable(s, id, now, destination) &&
      forall j :: j != id && Claimable(s, j, now, destination) ==> ClaimedFirst(s.events[id], s.events[j])
  }

  function Claim(p: RetryPolicy, s: State, workerId: string, attemptId: string, now: int,
                 destination: Option<string>, pick: Option<string>): (State, Reply)
  {
    if Blank(workerId) || Blank(attemptId) || !IsTime(now) || (destination.Some? && Blank(destination.value)) then
      (s, Rejected(InvalidArgument))
    else if attemptId in s.attempts then (s, Rejected(AlreadyExists))
    else if pick.None? || pick.value !in s.events then (s, NothingToClaim)
    else
      var e := s.events[pick.value];
      var expiry := AddDuration(now, p.leaseDurationMs);
      if now < e.lastObservedAt then (s, Rejected(DatabaseTimeRegression))
      else if expiry.Err? then (s, Rejected(expiry.code))
      else
        var handle := LeaseHandle(OutboxWork, pick.value, attemptId, workerId, e.nextFencingToken);
        var e' := e.(state := Leased, stateChangedAt := now, lastObservedAt := now,
                     lease := Some(ActiveLease(handle, now, now, expiry.value)),
                     nextFencingToken := e.nextFencingToken + 1,
                     attemptsInCycle := e.attemptsInCycle + 1, totalAttempts := e.totalAttempts + 1);
        var attempt := Attempt(pick.value, workerId, e.nextFencingToken, e.replayCycle, e.attemptsInCycle + 1,
                               e.totalAttempts + 1, now, now, None, Active, None,
                               None, None, None, None, None, NotSent);
        (s.(events := s.events[pick.value := e'], attempts := s.attempts[attemptId := attempt],
            audit := Log(s.audit, Claimed, pick.value, Some(attemptId), Worker, workerId, now)),
         Granted(e', handle))
  }

  // ---------------------------------------------------------------- lease holders

  /** The checks every call of a lease holder makes first. */
  function Admit(s: State, h: LeaseHandle, now: int, phases: set<EventState>): Result<ActiveLease>
  {
    if h.workId !in s.events then Err(NotFound)
    else
      var e := s.events[h.workId];
      if e.state !in phases then Err(InvalidState)
      else
        var lease := CheckLease(e.def.id, e.lastObservedAt, e.lease, h, now, OutboxWork);
        if lease.Ok? && lease.value.handle.attemptId !in s.attempts then Err(NotFound) else lease
  }

  function Heartbeat(p: RetryPolicy, s: State, h: LeaseHandle, now: int): (State, Reply)
  {
    var admitted := Admit(s, h, now, {Leased, Delivering});
    if admitted.Err? then (s, Rejected(admitted.code))
    else
      var e, lease := s.events[h.workId], admitted.value;
      var expiry := AddDuration(now, p.leaseDurationMs);
      if expiry.Err? then
        // heartbeatAt is written before the sum is checked
        (s.(events := s.events[h.workId := e.(lease := Some(lease.(heartbeatAt := now)))]), Rejected(expiry.code))
      else
        var aid := lease.handle.attemptId;
        (s.(events := s.events[h.workId := e.(lease := Some(lease.(heartbeatAt := now, expiresAt := expiry.value)),
                                              lastObservedAt := now)],
            attempts := s.attempts[aid := s.attempts[aid].(lastHeartbeatAt := now)],
            audit := Log(s.audit, Heartbeats, h.workId, Some(aid), Worker, lease.handle.workerId, now)),
         Renewed(lease.handle))
  }

  function StartDelivery(s: State, h: LeaseHandle, now: int): (State, Reply)
  {
    var admitted := Admit(s, h, now, {Leased});
    if admitted.Err? then (s, Rejected(admitted.code))
    else
      var e, aid := s.events[h.workId], admitted.value.handle.attemptId;
      var e' := e.(state := Delivering, stateChangedAt := now, lastObservedAt := now);
      (s.(events := s.events[h.workId := e'],
          attempts := s.attempts[aid := s.attempts[aid].(deliveryStartedAt := Some(now), observation := SentNoAck)],
          audit := Log(s.audit, DeliveryStarted, h.workId, Some(aid), Worker, admitted.value.handle.workerId, now)),
       Events([e']))
  }

  function Acknowledge(s: State, h: LeaseHandle, ack: Acknowledgement, now: int): (State, Reply)
  {
    var admitted := Admit(s, h, now, {Delivering});
    if Blank(ack.eventId) || Blank(ack.consumerId) then (s, Rejected(InvalidArgument))
    else if admitted.Err? then (s, Rejected(admitted.code))
    else
      var e, aid := s.events[h.workId], admitted.value.handle.attemptId;
      if ack.eventId != e.def.id then (s, Rejected(IdempotencyConflict))
      else if ack.consumerId != e.def.destinationId then (s, Rejected(LeaseMismatch))
      else
        var e' := e.(state := Delivered, stateChangedAt := now, lastObservedAt := now, lease := None,
                     deliveredAt := Some(now), disposition := Some(ack.disposition));
        var a' := s.attempts[aid].(finishedAt := Some(now), outcome := Succeeded, acknowledgedAt := Some(now),
                                   acknowledgedEventId := Some(ack.eventId), consumerId := Some(ack.consumerId),
                                   disposition := Some(ack.disposition), observation := Acknowledged);
        (s.(events := s.events[h.workId := e'], attempts := s.attempts[aid := a'],
            audit := Log(s.audit, DeliveryAcknowledged, h.workId, Some(aid), Worker,
                         admitted.value.handle.workerId, now)),
         Events([e']))
  }

  // ---------------------------------------------------------------- failure and recovery

  predicate HasAttempt(s: State, id: string)
  {
    id in s.events && s.events[id].lease.Some? && s.events[id].lease.value.handle.attemptId in s.attempts
  }

  predicate CanRetry(p: RetryPolicy, e: Event, failure: FailureCause)
  {
    failure.retryable && e.attemptsInCycle < p.maximumAttemptsPerCycle
  }

  /** `#finishFailure`. When the retry time leaves the safe range the event is already in
      RETRY_WAIT without its lease, but `availableAt` and the audit record are missing. */
  function FinishFailure(p: RetryPolicy, s: State, id: string, failure: FailureCause, now: int,
                         actor: Actor, actorId: string, retried: AttemptOutcome): (State, Reply)
    requires HasAttempt(s, id)
  {
    var e := s.events[id];
    var aid := e.lease.value.handle.attemptId;
    var retry := CanRetry(p, e, failure);
    var due := RetryAt(now, e.attemptsInCycle, p);
    var e' := e.(firstFailure := if e.firstFailure.None? then Some(failure) else e.firstFailure,
                 lastFailure := Some(failure), lease := None, stateChangedAt := now, lastObservedAt := now,
                 state := if retry then RetryWait else DeadLetter,
                 availableAt := if retry && due.Ok? then due.value else e.availableAt);
    var s' := s.(events := s.events[id := e'],
                 attempts := s.attempts[aid := s.attempts[aid].(finishedAt := Some(now), failure := Some(failure),
                                                                outcome := if retry then retried else DeadLettered)]);
    if retry && due.Err? then (s', Rejected(due.code))
    else
      (s'.(audit := Log(s.audit, if retry then RetryPlanned else DeadLetters, id, Some(aid), actor, actorId, now)),
       Events([e']))
  }

  function FailDelivery(p: RetryPolicy, s: State, h: LeaseHandle, failure: FailureCause, now: int): (State, Reply)
  {
    var admitted := Admit(s, h, now, {Leased, Delivering});
    if !ValidFailure(failure) then (s, Rejected(InvalidArgument))
    else if admitted.Err? then (s, Rejected(admitted.code))
    else FinishFailure(p, s, h.workId, failure, now, Worker, admitted.value.handle.workerId, RetryScheduled)
  }

  predicate LeaseIsOver(s: State, id: string, now: int)
  {
    id in s.events && InFlight(s.events[id]) && s.events[id].lease.Some? && s.events[id].lease.value.expiresAt <= now
  }

  function ExpiryCause(sent: bool): FailureCause
  {
    FailureCause("LEASE_EXPIRED", Lease, true,
                 if sent then "outbox-lease-expired-after-send" else "outbox-lease-expired-before-send")
  }

  /** One turn of the reaper's loop. */
  function ReclaimOne(p: RetryPolicy, s: State, id: string, now: int): (State, Reply)
  {
    if !LeaseIsOver(s, id, now) then (s, Events([]))
    else if now < s.events[id].lastObservedAt then (s, Rejected(DatabaseTimeRegression))
    else if !HasAttempt(s, id) then (s, Rejected(NotFound))
    else
      var aid := s.events[id].lease.value.handle.attemptId;
      var logged := s.(audit := Log(s.audit, LeaseLost, id, Some(aid), System, "lease-reaper", now));
      FinishFailure(p, logged, id, ExpiryCause(s.attempts[aid].deliveryStartedAt.Some?), now,
                    System, "lease-reaper", Expired)
  }

  function ReclaimEach(p: RetryPolicy, s: State, order: seq<string>, now: int): (State, Reply)
    decreases |order|
  {
    if order == [] then (s, Events([]))
    else
      var one := ReclaimOne(p, s, order[0], now);
      if !one.1.Events? then one
      else
        var rest := ReclaimEach(p, one.0, order[1..], now);
        (rest.0, if rest.1.Events? then Events(one.1.events + rest.1.events) else rest.1)
  }

  /** `order` lists every event once, in claim order. */
  ghost predicate IsReapOrder(s: State, order: seq<string>)
  {
    (forall id :: id in order <==> id in s.events) &&
    forall i, j :: 0 <= i < j < |order| ==>
      order[i] in s.events && order[j] in s.events && ClaimedFirst(s.events[order[i]], s.events[order[j]])
  }

  function Reclaim(p: RetryPolicy, s: State, order: seq<string>, now: int): (State, Reply)
  {
    if !IsTime(now) then (s, Rejected(InvalidArgument)) else ReclaimEach(p, s, order, now)
  }

  function Replay(s: State, id: string, operatorId: string, reasonCode: string, now: int): (State, Reply)
  {
    if Blank(operatorId) || !IsAuditCode(reasonCode) then (s, Rejected(InvalidArgument))
    else if id !in s.events then (s, Rejected(NotFound))
    else
      var e := s.events[id];
      if !IsTime(now) then (s, Rejected(InvalidArgument))
      else if now < e.lastObservedAt then (s, Rejected(DatabaseTimeRegression))
      else if e.state != DeadLetter then (s, Rejected(InvalidState))
      else
        var e' := e.(state := Pending, availableAt := now, stateChangedAt := now, lastObservedAt := now,
                     lease := None, replayCycle := e.replayCycle + 1, replayCount := e.replayCount + 1,
                     attemptsInCycle := 0);
        (s.(events := s.events[id := e'],
            audit := Log(s.audit, Replayed, id, None, Operator, operatorId, now)),
         Events([e']))
  }

  // ---------------------------------------------------------------- runs

  /** A call of the interface. `pick` and `order` name what the source's sort produces. */
  datatype Command =
    | DoCommit(input: CommitInput)
    | DoClaim(workerId: string, attemptId: string, now: int, destination: Option<string>, pick: Option<string>)
    | DoHeartbeat(handle: LeaseHandle, now: int)
    | DoStart(handle: LeaseHandle, now: int)
    | DoAcknowledge(handle: LeaseHandle, ack: Acknowledgement, now: int)
    | DoFail(handle: LeaseHandle, failure: FailureCause, now: int)
    | DoReclaim(order: seq<string>, now: int)
    | DoReplay(id: string, operatorId: string, reasonCode: string, now: int)

  ghost predicate Enabled(s: State, c: Command)
  {
    match c
    case DoClaim(_, _, now, destination, pick) => IsPick(s, now, destination, pick)
    case DoReclaim(order, _) => IsReapOrder(s, order)
    case _ => true
  }

  function Step(p: RetryPolicy, s: State, c: Command): (State, Reply)
  {
    match c
    case DoCommit(input) => Commit(s, input)
    case DoClaim(workerId, attemptId, now, destination, pick) => Claim(p, s, workerId, attemptId, now, destination, pick)
    case DoHeartbeat(h, now) => Heartbeat(p, s, h, now)
    case DoStart(h, now) => StartDelivery(s, h, now)
    case DoAcknowledge(h, ack, now) => Acknowledge(s, h, ack, now)
    case DoFail(h, failure, now) => FailDelivery(p, s, h, failure, now)
    case DoReclaim(order, now) => Reclaim(p, s, order, now)
    case DoReplay(id, operatorId, reasonCode, now) => Replay(s, id, operatorId, reasonCode, now)
  }

  /** A run from the empty Outbox: `states[i + 1]` is `states[i]` after `commands[i]`. */
  ghost predicate IsRun(p: RetryPolicy, commands: seq<Command>, states: seq<State>)
  {
    |states| == |commands| + 1 && states[0] == Empty &&
    forall i :: 0 <= i < |commands| ==>
      Enabled(states[i], commands[i]) && states[i + 1] == Step(p, states[i], commands[i]).0
  }
}
