/** Durable Jobs: the transitions as functions of the whole state, one per public operation. An
    operation that throws half way keeps the changes it has already made. */
module Jobs {
  import opened Texts
  import opened DurableWork
  import Encodings

  datatype JobState = Queued | Running | RetryWait | JobSucceeded | DeadLetter | JobCancelled

  datatype Job = Job(
    id: string, projectId: string, jobType: string, idempotencyKey: string, inputDigest: string, correlationId: string,
    priority: int, state: JobState, createdAt: int, availableAt: int, stateChangedAt: int, lastObservedAt: int,
    lease: Option<ActiveLease>, nextFencingToken: int, replayCycle: int, replayCount: int, attemptsInCycle: int, totalAttempts: int,
    firstFailure: Option<FailureCause>, lastFailure: Option<FailureCause>, resultRef: Option<string>, cancellationReason: Option<string>)

  datatype Attempt = Attempt(
    workId: string, workerId: string, fencingToken: int, replayCycle: int, attemptInCycle: int, totalAttempt: int,
    startedAt: int, lastHeartbeatAt: int, finishedAt: Option<int>, outcome: AttemptOutcome, failure: Option<FailureCause>)

  datatype Checkpoint = Checkpoint(sequence: int, name: string, outputRef: string, outputDigest: string, attemptId: string, completedAt: int)

  datatype AuditKind =
    | Enqueued | Claimed | Heartbeats | CheckpointCompleted | Succeeds | RetryPlanned | DeadLetters | LeaseLost | Replayed | Cancels
  datatype AuditRecord = AuditRecord(
    sequence: int, kind: AuditKind, workId: string, attemptId: Option<string>, actor: Actor, actorId: string, databaseAt: int)

  datatype State = State(
    jobs: map<string, Job>, attempts: map<string, Attempt>, checkpoints: map<string, seq<Checkpoint>>, index: map<string, string>,
    audit: seq<AuditRecord>)

  const Empty := State(map[], map[], map[], map[], [])

  datatype EnqueueInput = EnqueueInput(
    id: string, projectId: string, jobType: string, idempotencyKey: string, inputDigest: string, correlationId: string, now: int,
    priority: Option<int>, availableAt: Option<int>)

  datatype CheckpointInput = CheckpointInput(sequence: int, name: string, outputRef: string, outputDigest: string)

  datatype Reply =
    | Rejected(code: ErrorCode)
    | Jobs(jobs: seq<Job>)
    | Granted(job: Job, handle: LeaseHandle, latest: Option<Checkpoint>)
    | NothingToClaim
    | Renewed(handle: LeaseHandle)
    | Recorded(checkpoint: Checkpoint)

  function Log(
    audit: seq<AuditRecord>, kind: AuditKind, workId: string, attemptId: Option<string>, actor: Actor, actorId: string, now: int)
    : seq<AuditRecord>
  {
    audit + [AuditRecord(|audit| + 1, kind, workId, attemptId, actor, actorId, now)]
  }

  // ---------------------------------------------------------------- enqueue

  /** `jobIdempotencyScope` */
  function Scope(projectId: string, jobType: string, key: string): string
  {
    Encodings.JsonStrings([projectId, jobType, key])
  }

  predicate ValidEnqueue(input: EnqueueInput)
  {
    !Blank(input.id) && !Blank(input.projectId) && !Blank(input.jobType) && !Blank(input.idempotencyKey) &&
    !Blank(input.inputDigest) && !Blank(input.correlationId) && IsTime(input.now) &&
    (input.priority.Some? ==> -MAX_SAFE_INTEGER <= input.priority.value <= MAX_SAFE_INTEGER)
  }

  function NewJob(input: EnqueueInput): Job
  {
    Job(input.id, input.projectId, input.jobType, input.idempotencyKey, input.inputDigest, input.correlationId,
        if input.priority.Some? then input.priority.value else 0, Queued, input.now,
        if input.availableAt.Some? then input.availableAt.value else input.now, input.now, input.now,
        None, 1, 0, 0, 0, 0, None, None, None, None)
  }

  function Enqueue(s: State, input: EnqueueInput): (State, Reply)
  {
    var scope := Scope(input.projectId, input.jobType, input.idempotencyKey);
    if !ValidEnqueue(input) then (s, Rejected(InvalidArgument))
    else if scope in s.index then
      if s.index[scope] !in s.jobs then (s, Rejected(NotFound))
      else if s.jobs[s.index[scope]].inputDigest != input.inputDigest then (s, Rejected(IdempotencyConflict))
      else (s, Jobs([s.jobs[s.index[scope]]]))
    else if input.id in s.jobs then (s, Rejected(AlreadyExists))
    else
      var j := NewJob(input);
      if !IsTime(j.availableAt) || j.availableAt < input.now then (s, Rejected(InvalidArgument))
      else
        (s.(jobs := s.jobs[j.id := j], index := s.index[scope := j.id],
            audit := Log(s.audit, Enqueued, j.id, None, System, "job-enqueue", input.now)),
         Jobs([j]))
  }

  // ---------------------------------------------------------------- claim

  /** `compareJobs(left, right) < 0` */
  predicate ClaimedFirst(left: Job, right: Job)
  {
    left.priority > right.priority ||
    (left.priority == right.priority &&
     (left.availableAt < right.availableAt ||
      (left.availableAt == right.availableAt &&
       (left.createdAt < right.createdAt || (left.createdAt == right.createdAt && Less(left.id, right.id))))))
  }

  predicate Claimable(s: State, id: string, now: int)
  {
    id in s.jobs && (s.jobs[id].state == Queued || s.jobs[id].state == RetryWait) && s.jobs[id].availableAt <= now
  }

  /** `pick` is what filtering and sorting the jobs puts first. */
  ghost predicate IsPick(s: State, now: int, pick: Option<string>)
  {
    match pick
    case None => forall id :: !Claimable(s, id, now)
    case Some(id) => Claimable(s, id, now) && forall j :: j != id && Claimable(s, j, now) ==> ClaimedFirst(s.jobs[id], s.jobs[j])
  }

  function CheckpointsOf(s: State, id: string): seq<Checkpoint>
  {
    if id in s.checkpoints then s.checkpoints[id] else []
  }

  function Latest(s: State, id: string): Option<Checkpoint>
  {
    var all := CheckpointsOf(s, id);
    if all == [] then None else Some(all[|all| - 1])
  }

  function Claim(p: RetryPolicy, s: State, workerId: string, attemptId: string, now: int, pick: Option<string>): (State, Reply)
  {
    if Blank(workerId) || Blank(attemptId) || !IsTime(now) then (s, Rejected(InvalidArgument))
    else if attemptId in s.attempts then (s, Rejected(AlreadyExists))
    else if pick.None? || pick.value !in s.jobs then (s, NothingToClaim)
    else
      var j := s.jobs[pick.value];
      var expiry := AddDuration(now, p.leaseDurationMs);
      if now < j.lastObservedAt then (s, Rejected(DatabaseTimeRegression))
      else if expiry.Err? then (s, Rejected(expiry.code))
      else
        var handle := LeaseHandle(JobWork, pick.value, attemptId, workerId, j.nextFencingToken);
        var j' := j.(state := Running, stateChangedAt := now, lastObservedAt := now,
                     lease := Some(ActiveLease(handle, now, now, expiry.value)), nextFencingToken := j.nextFencingToken + 1,
                     attemptsInCycle := j.attemptsInCycle + 1, totalAttempts := j.totalAttempts + 1);
        var attempt := Attempt(pick.value, workerId, j.nextFencingToken, j.replayCycle, j.attemptsInCycle + 1, j.totalAttempts + 1,
                               now, now, None, Active, None);
        (s.(jobs := s.jobs[pick.value := j'], attempts := s.attempts[attemptId := attempt],
            audit := Log(s.audit, Claimed, pick.value, Some(attemptId), Worker, workerId, now)),
         Granted(j', handle, Latest(s, pick.value)))
  }

  // ---------------------------------------------------------------- lease holders

  /** The checks every call of a lease holder makes first. */
  function Admit(s: State, h: LeaseHandle, now: int): Result<ActiveLease>
  {
    if h.workId !in s.jobs then Err(NotFound)
    else
      var j := s.jobs[h.workId];
      if j.state != Running then Err(InvalidState)
      else
        var lease := CheckLease(j.id, j.lastObservedAt, j.lease, h, now, JobWork);
        if lease.Ok? && lease.value.handle.attemptId !in s.attempts then Err(NotFound) else lease
  }

  function Heartbeat(p: RetryPolicy, s: State, h: LeaseHandle, now: int): (State, Reply)
  {
    var admitted := Admit(s, h, now);
    if admitted.Err? then (s, Rejected(admitted.code))
    else
      var j, lease := s.jobs[h.workId], admitted.value;
      var expiry := AddDuration(now, p.leaseDurationMs);
      if expiry.Err? then
        // heartbeatAt is written before the sum is checked
        (s.(jobs := s.jobs[h.workId := j.(lease := Some(lease.(heartbeatAt := now)))]), Rejected(expiry.code))
      else
        var aid := lease.handle.attemptId;
        (s.(jobs := s.jobs[h.workId := j.(lease := Some(lease.(heartbeatAt := now, expiresAt := expiry.value)), lastObservedAt := now)],
            attempts := s.attempts[aid := s.attempts[aid].(lastHeartbeatAt := now)],
            audit := Log(s.audit, Heartbeats, h.workId, Some(aid), Worker, lease.handle.workerId, now)),
         Renewed(lease.handle))
  }

  predicate ValidCheckpoint(input: CheckpointInput)
  {
    1 <= input.sequence <= MAX_SAFE_INTEGER && !Blank(input.name) && !Blank(input.outputRef) && !Blank(input.outputDigest)
  }

  predicate SameOutput(c: Checkpoint, input: CheckpointInput)
  {
    c.name == input.name && c.outputRef == input.outputRef && c.outputDigest == input.outputDigest
  }

  function CompleteCheckpoint(s: State, h: LeaseHandle, input: CheckpointInput, now: int): (State, Reply)
  {
    var admitted := Admit(s, h, now);
    if !ValidCheckpoint(input) then (s, Rejected(InvalidArgument))
    else if admitted.Err? then (s, Rejected(admitted.code))
    else
      var j, latest, handle := s.jobs[h.workId], Latest(s, h.workId), admitted.value.handle;
      if latest.Some? && input.sequence < latest.value.sequence then (s, Rejected(SequenceConflict))
      else if latest.Some? && input.sequence == latest.value.sequence then
        if SameOutput(latest.value, input) then (s, Recorded(latest.value)) else (s, Rejected(SequenceConflict))
      else
        var c := Checkpoint(input.sequence, input.name, input.outputRef, input.outputDigest, handle.attemptId, now);
        (s.(checkpoints := s.checkpoints[h.workId := CheckpointsOf(s, h.workId) + [c]],
            jobs := s.jobs[h.workId := j.(lastObservedAt := now)],
            audit := Log(s.audit, CheckpointCompleted, h.workId, Some(handle.attemptId), Worker, handle.workerId, now)),
         Recorded(c))
  }

  function Succeed(s: State, h: LeaseHandle, resultRef: string, now: int): (State, Reply)
  {
    var admitted := Admit(s, h, now);
    if Blank(resultRef) then (s, Rejected(InvalidArgument))
    else if admitted.Err? then (s, Rejected(admitted.code))
    else
      var j, handle := s.jobs[h.workId], admitted.value.handle;
      var j' := j.(state := JobSucceeded, stateChangedAt := now, lastObservedAt := now, lease := None, resultRef := Some(resultRef));
      (s.(jobs := s.jobs[h.workId := j'],
          attempts := s.attempts[handle.attemptId := s.attempts[handle.attemptId].(finishedAt := Some(now), outcome := Succeeded)],
          audit := Log(s.audit, Succeeds, h.workId, Some(handle.attemptId), Worker, handle.workerId, now)),
       Jobs([j']))
  }

  // ---------------------------------------------------------------- failure and recovery

  predicate HasAttempt(s: State, id: string)
  {
    id in s.jobs && s.jobs[id].lease.Some? && s.jobs[id].lease.value.handle.attemptId in s.attempts
  }

  predicate CanRetry(p: RetryPolicy, j: Job, failure: FailureCause)
  {
    failure.retryable && j.attemptsInCycle < p.maximumAttemptsPerCycle
  }

  /** `#finishFailure`. When the retry time leaves the safe range the job is already in RETRY_WAIT
      without its lease, but `availableAt` and the audit record are missing. */
  function FinishFailure(p: RetryPolicy, s: State, id: string, failure: FailureCause, now: int,
                         actor: Actor, actorId: string, retried: AttemptOutcome): (State, Reply)
    requires HasAttempt(s, id)
  {
    var j := s.jobs[id];
    var aid := j.lease.value.handle.attemptId;
    var retry := CanRetry(p, j, failure);
    var due := RetryAt(now, j.attemptsInCycle, p);
    var j' := j.(firstFailure := if j.firstFailure.None? then Some(failure) else j.firstFailure,
                 lastFailure := Some(failure), lease := None, stateChangedAt := now, lastObservedAt := now,
                 state := if retry then RetryWait else DeadLetter,
                 availableAt := if retry && due.Ok? then due.value else j.availableAt);
    var s' := s.(jobs := s.jobs[id := j'],
                 attempts := s.attempts[aid := s.attempts[aid].(finishedAt := Some(now), failure := Some(failure),
                                                                outcome := if retry then retried else DeadLettered)]);
    if retry && due.Err? then (s', Rejected(due.code))
    else
      (s'.(audit := Log(s.audit, if retry then RetryPlanned else DeadLetters, id, Some(aid), actor, actorId, now)), Jobs([j']))
  }

  function Fail(p: RetryPolicy, s: State, h: LeaseHandle, failure: FailureCause, now: int): (State, Reply)
  {
    var admitted := Admit(s, h, now);
    if !ValidFailure(failure) then (s, Rejected(InvalidArgument))
    else if admitted.Err? then (s, Rejected(admitted.code))
    else FinishFailure(p, s, h.workId, failure, now, Worker, admitted.value.handle.workerId, RetryScheduled)
  }

  predicate LeaseIsOver(s: State, id: string, now: int)
  {
    id in s.jobs && s.jobs[id].state == Running && s.jobs[id].lease.Some? && s.jobs[id].lease.value.expiresAt <= now
  }

  const ExpiryCause := FailureCause("LEASE_EXPIRED", Lease, true, "job-lease-expired")

  /** One turn of the reaper's loop. */
  function ReclaimOne(p: RetryPolicy, s: State, id: string, now: int): (State, Reply)
  {
    if !LeaseIsOver(s, id, now) then (s, Jobs([]))
    else if now < s.jobs[id].lastObservedAt then (s, Rejected(DatabaseTimeRegression))
    else if !HasAttempt(s, id) then (s, Rejected(NotFound))
    else
      var aid := s.jobs[id].lease.value.handle.attemptId;
      var logged := s.(audit := Log(s.audit, LeaseLost, id, Some(aid), System, "lease-reaper", now));
      FinishFailure(p, logged, id, ExpiryCause, now, System, "lease-reaper", Expired)
  }

  function ReclaimEach(p: RetryPolicy, s: State, order: seq<string>, now: int): (State, Reply)
    decreases |order|
  {
    if order == [] then (s, Jobs([]))
    else
      var one := ReclaimOne(p, s, order[0], now);
      if !one.1.Jobs? then one
      else
        var rest := ReclaimEach(p, one.0, order[1..], now);
        (rest.0, if rest.1.Jobs? then Jobs(one.1.jobs + rest.1.jobs) else rest.1)
  }

  /** `order` lists every job once, in claim order. */
  ghost predicate IsReapOrder(s: State, order: seq<string>)
  {
    (forall id :: id in order <==> id in s.jobs) &&
    forall i, k :: 0 <= i < k < |order| ==> order[i] in s.jobs && order[k] in s.jobs && ClaimedFirst(s.jobs[order[i]], s.jobs[order[k]])
  }

  function Reclaim(p: RetryPolicy, s: State, order: seq<string>, now: int): (State, Reply)
  {
    if !IsTime(now) then (s, Rejected(InvalidArgument)) else ReclaimEach(p, s, order, now)
  }

  /** The checks an operator's call makes first. */
  function Operate(s: State, id: string, operatorId: string, reasonCode: string, now: int): Result<Job>
  {
    if Blank(operatorId) || !IsAuditCode(reasonCode) then Err(InvalidArgument)
    else if id !in s.jobs then Err(NotFound)
    else if !IsTime(now) then Err(InvalidArgument)
    else if now < s.jobs[id].lastObservedAt then Err(DatabaseTimeRegression)
    else Ok(s.jobs[id])
  }

  function Replay(s: State, id: string, operatorId: string, reasonCode: string, now: int): (State, Reply)
  {
    var job := Operate(s, id, operatorId, reasonCode, now);
    if job.Err? then (s, Rejected(job.code))
    else if job.value.state != DeadLetter then (s, Rejected(InvalidState))
    else
      var j := job.value;
      var j' := j.(state := Queued, availableAt := now, stateChangedAt := now, lastObservedAt := now, lease := None,
                   replayCycle := j.replayCycle + 1, replayCount := j.replayCount + 1, attemptsInCycle := 0);
      (s.(jobs := s.jobs[id := j'], audit := Log(s.audit, Replayed, id, None, Operator, operatorId, now)), Jobs([j']))
  }

  function Cancel(s: State, id: string, operatorId: string, reasonCode: string, now: int): (State, Reply)
  {
    var job := Operate(s, id, operatorId, reasonCode, now);
    if job.Err? then (s, Rejected(job.code))
    else if job.value.state == JobSucceeded || job.value.state == JobCancelled then (s, Rejected(InvalidState))
    else if job.value.lease.Some? && job.value.lease.value.handle.attemptId !in s.attempts then (s, Rejected(NotFound))
    else
      var j := job.value;
      var aid := if j.lease.Some? then Some(j.lease.value.handle.attemptId) else None;
      var j' := j.(state := JobCancelled, stateChangedAt := now, lastObservedAt := now, lease := None, cancellationReason := Some(reasonCode));
      (s.(jobs := s.jobs[id := j'],
          attempts := if aid.None? then s.attempts
                      else s.attempts[aid.value := s.attempts[aid.value].(finishedAt := Some(now), outcome := Cancelled)],
          audit := Log(s.audit, Cancels, id, aid, Operator, operatorId, now)),
       Jobs([j']))
  }

  // ---------------------------------------------------------------- runs

  /** A call of the interface. `pick` and `order` name what the source's sort produces. */
  datatype Command =
    | DoEnqueue(input: EnqueueInput)
    | DoClaim(workerId: string, attemptId: string, now: int, pick: Option<string>)
    | DoHeartbeat(handle: LeaseHandle, now: int)
    | DoCheckpoint(handle: LeaseHandle, checkpoint: CheckpointInput, now: int)
    | DoSucceed(handle: LeaseHandle, resultRef: string, now: int)
    | DoFail(handle: LeaseHandle, failure: FailureCause, now: int)
    | DoReclaim(order: seq<string>, now: int)
    | DoReplay(id: string, operatorId: string, reasonCode: string, now: int)
    | DoCancel(id: string, operatorId: string, reasonCode: string, now: int)

  ghost predicate Enabled(s: State, c: Command)
  {
    match c
    case DoClaim(_, _, now, pick) => IsPick(s, now, pick)
    case DoReclaim(order, _) => IsReapOrder(s, order)
    case _ => true
  }

  function Step(p: RetryPolicy, s: State, c: Command): (State, Reply)
  {
    match c
    case DoEnqueue(input) => Enqueue(s, input)
    case DoClaim(workerId, attemptId, now, pick) => Claim(p, s, workerId, attemptId, now, pick)
    case DoHeartbeat(h, now) => Heartbeat(p, s, h, now)
    case DoCheckpoint(h, input, now) => CompleteCheckpoint(s, h, input, now)
    case DoSucceed(h, resultRef, now) => Succeed(s, h, resultRef, now)
    case DoFail(h, failure, now) => Fail(p, s, h, failure, now)
    case DoReclaim(order, now) => Reclaim(p, s, order, now)
    case DoReplay(id, operatorId, reasonCode, now) => Replay(s, id, operatorId, reasonCode, now)
    case DoCancel(id, operatorId, reasonCode, now) => Cancel(s, id, operatorId, reasonCode, now)
  }

  /** A run from no jobs: `states[i + 1]` is `states[i]` after `commands[i]`. */
  ghost predicate IsRun(p: RetryPolicy, commands: seq<Command>, states: seq<State>)
  {
    |states| == |commands| + 1 && states[0] == Empty &&
    forall i :: 0 <= i < |commands| ==> Enabled(states[i], commands[i]) && states[i + 1] == Step(p, states[i], commands[i]).0
  }
}
