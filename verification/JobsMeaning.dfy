/** What each call on Jobs comes to, on the fields a caller sees: with which code it is refused, what an
    accepted call changes, and that it changes nothing else. Times, waits and orders are written out here,
    apart from the transitions. */
module JobsMeaning {
  import opened Texts
  import opened DurableWork
  import opened DurableMeaning
  import opened Jobs
  import opened JobsInvariants
  import opened JobsRuns

  /** Job `id` is now `j'`, attempt `aid` is now `a'`, the log is longer by `records`, and all else is as it was. */
  predicate Becomes(s: State, t: State, id: string, j': Job, aid: string, a': Attempt, records: seq<AuditRecord>)
  {
    t == State(s.jobs[id := j'], s.attempts[aid := a'], s.checkpoints, s.index, s.audit + records)
  }

  function Line(s: State, kind: AuditKind, id: string, aid: Option<string>, actor: Actor, actorId: string, now: int): seq<AuditRecord>
  {
    [AuditRecord(|s.audit| + 1, kind, id, aid, actor, actorId, now)]
  }

  // ---------------------------------------------------------------- enqueue

  /** All texts are given and the numbers are in their ranges. */
  predicate Given(input: EnqueueInput)
  {
    !Blank(input.id) && !Blank(input.projectId) && !Blank(input.jobType) && !Blank(input.idempotencyKey) && !Blank(input.inputDigest) &&
    !Blank(input.correlationId) && Safe(input.now) && (input.priority.Some? ==> -9007199254740991 <= input.priority.value <= 9007199254740991)
  }

  /** `id` is the job of this project, type and idempotency key. */
  predicate HasKey(s: State, id: string, input: EnqueueInput)
  {
    id in s.jobs && s.jobs[id].projectId == input.projectId && s.jobs[id].jobType == input.jobType && s.jobs[id].idempotencyKey == input.idempotencyKey
  }

  lemma KeyMeans(p: RetryPolicy, s: State, input: EnqueueInput)
    requires Inv(p, s)
    ensures var scope := Scope(input.projectId, input.jobType, input.idempotencyKey);
      (scope in s.index <==> exists id :: HasKey(s, id, input)) && (scope in s.index ==> forall id :: HasKey(s, id, input) <==> id == s.index[scope])
  {
    hide JobsOk, AttemptsOk, CheckpointsOk, AuditOk, Scope;
    var scope := Scope(input.projectId, input.jobType, input.idempotencyKey);
    forall id | id in s.jobs
      ensures HasKey(s, id, input) <==> ScopeOf(s.jobs[id]) == scope
    {
      ScopeInjective(s.jobs[id].projectId, s.jobs[id].jobType, s.jobs[id].idempotencyKey, input.projectId, input.jobType, input.idempotencyKey);
    }
  }

  /** A new job: queued, never tried, available when asked for and at once otherwise. */
  function Fresh(input: EnqueueInput): Job
  {
    Job(input.id, input.projectId, input.jobType, input.idempotencyKey, input.inputDigest, input.correlationId,
        match input.priority { case Some(x) => x case None => 0 }, Queued, input.now,
        match input.availableAt { case Some(x) => x case None => input.now }, input.now, input.now,
        None, 1, 0, 0, 0, 0, None, None, None, None)
  }

  /** A known key returns its job, or is a conflict when the input differs; a new key takes a new id and a
      time that has not passed. */
  lemma EnqueueMeans(p: RetryPolicy, s: State, input: EnqueueInput)
    requires Inv(p, s)
    ensures var (t, r) := Enqueue(s, input);
      if !Given(input) then t == s && r == Rejected(InvalidArgument)
      else if exists id :: HasKey(s, id, input) then
        t == s && forall id :: HasKey(s, id, input) ==>
          r == if s.jobs[id].inputDigest == input.inputDigest then Reply.Jobs([s.jobs[id]]) else Rejected(IdempotencyConflict)
      else if input.id in s.jobs then t == s && r == Rejected(AlreadyExists)
      else if input.availableAt.Some? && (!Safe(input.availableAt.value) || input.availableAt.value < input.now) then t == s && r == Rejected(InvalidArgument)
      else
        t == State(s.jobs[input.id := Fresh(input)], s.attempts, s.checkpoints,
                   s.index[Scope(input.projectId, input.jobType, input.idempotencyKey) := input.id],
                   s.audit + Line(s, Enqueued, input.id, None, System, "job-enqueue", input.now)) &&
        r == Reply.Jobs([Fresh(input)])
  {
    KeyMeans(p, s, input);
    hide Inv, Blank, Scope;
    if exists id :: HasKey(s, id, input) { var id :| HasKey(s, id, input); }
  }

  // ---------------------------------------------------------------- claim

  predicate Ready(s: State, id: string, now: int)
  {
    id in s.jobs && (s.jobs[id].state == Queued || s.jobs[id].state == RetryWait) && s.jobs[id].availableAt <= now
  }

  /** The higher priority first; then the job available earlier, the job enqueued earlier, the smaller id. */
  predicate Sooner(j: Job, k: Job)
  {
    j.priority >= k.priority &&
    (j.priority == k.priority ==>
       j.availableAt <= k.availableAt &&
       (j.availableAt == k.availableAt ==> j.createdAt <= k.createdAt && (j.createdAt == k.createdAt ==> Less(j.id, k.id))))
  }

  /** A claim grants the job that comes first among all that are ready, for exactly the lease duration, with
      the last checkpoint recorded for it. */
  lemma ClaimMeans(p: RetryPolicy, s: State, workerId: string, attemptId: string, now: int, pick: Option<string>)
    requires p.Valid() && Inv(p, s) && IsPick(s, now, pick)
    ensures var (t, r) := Claim(p, s, workerId, attemptId, now, pick);
      if Blank(workerId) || Blank(attemptId) || !Safe(now) then t == s && r == Rejected(InvalidArgument)
      else if attemptId in s.attempts then t == s && r == Rejected(AlreadyExists)
      else if pick.None? then t == s && r == NothingToClaim && forall id :: !Ready(s, id, now)
      else
        var id := pick.value;
        Ready(s, id, now) && (forall k :: k != id && Ready(s, k, now) ==> Sooner(s.jobs[id], s.jobs[k])) &&
        if now < s.jobs[id].lastObservedAt then t == s && r == Rejected(DatabaseTimeRegression)
        else if !Safe(now + p.leaseDurationMs) then t == s && r == Rejected(InvalidArgument)
        else GrantedTo(p, s, workerId, attemptId, now, id, t, r)
  {
    hide Inv, Blank;
    forall k
      ensures Claimable(s, k, now) <==> Ready(s, k, now)
    {
    }
  }

  predicate GrantedTo(p: RetryPolicy, s: State, workerId: string, attemptId: string, now: int, id: string, t: State, r: Reply)
    requires id in s.jobs
  {
    var j := s.jobs[id];
    var h := LeaseHandle(JobWork, id, attemptId, workerId, j.nextFencingToken);
    Becomes(s, t, id,
            j.(state := Running, stateChangedAt := now, lastObservedAt := now, lease := Some(ActiveLease(h, now, now, now + p.leaseDurationMs)),
               nextFencingToken := j.nextFencingToken + 1, attemptsInCycle := j.attemptsInCycle + 1, totalAttempts := j.totalAttempts + 1),
            attemptId,
            Attempt(id, workerId, h.fencingToken, j.replayCycle, j.attemptsInCycle + 1, j.totalAttempts + 1, now, now, None, Active, None),
            Line(s, Claimed, id, Some(attemptId), Worker, workerId, now)) &&
    r == Granted(t.jobs[id], h, LastOf(s, id))
  }

  /** The checkpoint recorded last. */
  function LastOf(s: State, id: string): Option<Checkpoint>
  {
    if id in s.checkpoints && |s.checkpoints[id]| > 0 then Some(s.checkpoints[id][|s.checkpoints[id]| - 1]) else None
  }

  // ---------------------------------------------------------------- lease holders

  /** `h` is the running job's own lease, and it has not run out at `now`. */
  predicate IsCurrent(s: State, h: LeaseHandle, now: int)
  {
    h.workId in s.jobs &&
    var j := s.jobs[h.workId];
    j.state == Running && Safe(now) && j.lastObservedAt <= now && j.lease.Some? && j.lease.value.handle == h && now < j.lease.value.expiresAt
  }

  /** The code a call that is not from the holder is refused with. */
  function Complaint(s: State, h: LeaseHandle, now: int): ErrorCode
  {
    if h.workId !in s.jobs then NotFound
    else
      var j := s.jobs[h.workId];
      if j.state != Running then InvalidState
      else if !Safe(now) then InvalidArgument
      else if now < j.lastObservedAt then DatabaseTimeRegression
      else if j.lease.None? || j.lease.value.handle != h then LeaseMismatch
      else LeaseExpired
  }

  lemma HolderMeans(p: RetryPolicy, s: State, h: LeaseHandle, now: int)
    requires Inv(p, s)
    ensures Admit(s, h, now) == if IsCurrent(s, h, now) then Ok(s.jobs[h.workId].lease.value) else Err(Complaint(s, h, now))
    ensures IsCurrent(s, h, now) ==> h.attemptId in s.attempts && s.attempts[h.attemptId].workId == h.workId
  {
    hide Inv, CheckLease;
    if h.workId in s.jobs {
      OwnLease(p, s, h.workId);
      CheckMeans(s.jobs[h.workId].id, s.jobs[h.workId].lastObservedAt, s.jobs[h.workId].lease, h, now, JobWork);
    }
  }

  /** A lease names its own job and an attempt on record, and only a running job has one. */
  lemma OwnLease(p: RetryPolicy, s: State, id: string)
    requires Inv(p, s) && id in s.jobs
    ensures s.jobs[id].id == id && (s.jobs[id].state == Running <==> s.jobs[id].lease.Some?)
    ensures s.jobs[id].lease.Some? ==>
      var h := s.jobs[id].lease.value.handle;
      h.workKind == JobWork && h.workId == id && h.attemptId in s.attempts && s.attempts[h.attemptId].workId == id
  {
    Facts(p, s, id);
    hide Inv, CycleBudget, AttemptOk;
  }

  /** A heartbeat moves the end of the lease to now plus the lease duration. */
  lemma HeartbeatMeans(p: RetryPolicy, s: State, h: LeaseHandle, now: int)
    requires p.Valid() && Inv(p, s)
    ensures var (t, r) := Heartbeat(p, s, h, now);
      if !IsCurrent(s, h, now) then t == s && r == Rejected(Complaint(s, h, now))
      else h.attemptId in s.attempts && RenewedTo(p, s, h, now, t, r)
  {
    HolderMeans(p, s, h, now);
    hide Inv, Admit, Complaint, RenewedTo;
    if IsCurrent(s, h, now) {
      HeartbeatRenews(p, s, h, now);
    } else {
      hide IsCurrent;
    }
    hide Heartbeat;
  }

  /** If the new end is no safe integer, only the time of the heartbeat is noted on the lease. */
  predicate RenewedTo(p: RetryPolicy, s: State, h: LeaseHandle, now: int, t: State, r: Reply)
    requires h.workId in s.jobs && s.jobs[h.workId].lease.Some? && h.attemptId in s.attempts
  {
    var j, lease, a := s.jobs[h.workId], s.jobs[h.workId].lease.value, s.attempts[h.attemptId];
    if Safe(now + p.leaseDurationMs) then
      Becomes(s, t, h.workId, j.(lease := Some(ActiveLease(h, lease.acquiredAt, now, now + p.leaseDurationMs)), lastObservedAt := now),
              h.attemptId, a.(lastHeartbeatAt := now), Line(s, Heartbeats, h.workId, Some(h.attemptId), Worker, h.workerId, now)) &&
      r == Renewed(h)
    else
      Becomes(s, t, h.workId, j.(lease := Some(ActiveLease(h, lease.acquiredAt, now, lease.expiresAt))), h.attemptId, a, []) &&
      r == Rejected(InvalidArgument)
  }

  lemma HeartbeatRenews(p: RetryPolicy, s: State, h: LeaseHandle, now: int)
    requires p.Valid() && h.workId in s.jobs && h.attemptId in s.attempts && s.jobs[h.workId].lease.Some?
    requires s.jobs[h.workId].lease.value.handle == h && Admit(s, h, now) == Ok(s.jobs[h.workId].lease.value) && Safe(now)
    ensures RenewedTo(p, s, h, now, Heartbeat(p, s, h, now).0, Heartbeat(p, s, h, now).1)
  {
    hide Admit;
    assert s.attempts == s.attempts[h.attemptId := s.attempts[h.attemptId]] && s.audit + [] == s.audit;
  }

  /** A checkpoint goes behind the last one; the last one again is answered as recorded; anything else about
      its sequence is a conflict. */
  lemma CheckpointMeans(p: RetryPolicy, s: State, h: LeaseHandle, input: CheckpointInput, now: int)
    requires Inv(p, s)
    ensures var (t, r) := CompleteCheckpoint(s, h, input, now);
      if !(1 <= input.sequence <= 9007199254740991) || Blank(input.name) || Blank(input.outputRef) || Blank(input.outputDigest) then
        t == s && r == Rejected(InvalidArgument)
      else if !IsCurrent(s, h, now) then t == s && r == Rejected(Complaint(s, h, now))
      else RecordedTo(s, h, input, now, t, r)
  {
    HolderMeans(p, s, h, now);
    hide Inv, Admit, Complaint, RecordedTo, Blank;
    if IsCurrent(s, h, now) {
      if ValidCheckpoint(input) { CheckpointRecords(s, h, input, now); }
    } else {
      hide IsCurrent;
    }
    hide CompleteCheckpoint;
  }

  predicate RecordedTo(s: State, h: LeaseHandle, input: CheckpointInput, now: int, t: State, r: Reply)
    requires h.workId in s.jobs
  {
    var last := LastOf(s, h.workId);
    var c := Checkpoint(input.sequence, input.name, input.outputRef, input.outputDigest, h.attemptId, now);
    if last.None? || last.value.sequence < input.sequence then
      t == State(s.jobs[h.workId := s.jobs[h.workId].(lastObservedAt := now)], s.attempts,
                 s.checkpoints[h.workId := (if h.workId in s.checkpoints then s.checkpoints[h.workId] else []) + [c]], s.index,
                 s.audit + Line(s, CheckpointCompleted, h.workId, Some(h.attemptId), Worker, h.workerId, now)) &&
      r == Recorded(c)
    else
      t == s &&
      r == if last.value == c.(attemptId := last.value.attemptId, completedAt := last.value.completedAt) then Recorded(last.value) else Rejected(SequenceConflict)
  }

  lemma CheckpointRecords(s: State, h: LeaseHandle, input: CheckpointInput, now: int)
    requires h.workId in s.jobs && s.jobs[h.workId].lease.Some? && s.jobs[h.workId].lease.value.handle == h && ValidCheckpoint(input)
    requires Admit(s, h, now) == Ok(s.jobs[h.workId].lease.value)
    ensures RecordedTo(s, h, input, now, CompleteCheckpoint(s, h, input, now).0, CompleteCheckpoint(s, h, input, now).1)
  {
    hide Admit, Blank;
    assert Latest(s, h.workId) == LastOf(s, h.workId);
    hide Latest, LastOf;
  }

  lemma SucceedMeans(p: RetryPolicy, s: State, h: LeaseHandle, resultRef: string, now: int)
    requires Inv(p, s)
    ensures var (t, r) := Succeed(s, h, resultRef, now);
      if Blank(resultRef) then t == s && r == Rejected(InvalidArgument)
      else if !IsCurrent(s, h, now) then t == s && r == Rejected(Complaint(s, h, now))
      else h.attemptId in s.attempts && SucceededTo(s, h, resultRef, now, t, r)
  {
    HolderMeans(p, s, h, now);
    hide Inv, Admit, Complaint, SucceededTo, Blank;
    if IsCurrent(s, h, now) {
      if !Blank(resultRef) { SucceedSucceeds(s, h, resultRef, now); }
    } else {
      hide IsCurrent;
    }
  }

  predicate SucceededTo(s: State, h: LeaseHandle, resultRef: string, now: int, t: State, r: Reply)
    requires h.workId in s.jobs && h.attemptId in s.attempts
  {
    Becomes(s, t, h.workId,
            s.jobs[h.workId].(state := JobSucceeded, stateChangedAt := now, lastObservedAt := now, lease := None, resultRef := Some(resultRef)),
            h.attemptId, s.attempts[h.attemptId].(finishedAt := Some(now), outcome := Succeeded),
            Line(s, Succeeds, h.workId, Some(h.attemptId), Worker, h.workerId, now)) &&
    r == Reply.Jobs([t.jobs[h.workId]])
  }

  lemma SucceedSucceeds(s: State, h: LeaseHandle, resultRef: string, now: int)
    requires h.workId in s.jobs && h.attemptId in s.attempts && s.jobs[h.workId].lease.Some? && s.jobs[h.workId].lease.value.handle == h
    requires Admit(s, h, now) == Ok(s.jobs[h.workId].lease.value) && !Blank(resultRef)
    ensures SucceededTo(s, h, resultRef, now, Succeed(s, h, resultRef, now).0, Succeed(s, h, resultRef, now).1)
  {
    hide Admit, Blank;
  }

  // ---------------------------------------------------------------- failure

  /** The job is not tried again in this cycle. */
  predicate GivesUp(p: RetryPolicy, j: Job, failure: FailureCause)
  {
    !failure.retryable || j.attemptsInCycle == p.maximumAttemptsPerCycle
  }

  /** What every failure leaves on the job. */
  function Marked(j: Job, failure: FailureCause, now: int): Job
  {
    j.(firstFailure := if j.firstFailure.Some? then j.firstFailure else Some(failure), lastFailure := Some(failure),
       lease := None, stateChangedAt := now, lastObservedAt := now)
  }

  function Ended(a: Attempt, failure: FailureCause, outcome: AttemptOutcome, now: int): Attempt
  {
    a.(finishedAt := Some(now), failure := Some(failure), outcome := outcome)
  }

  /** The lease holder of `id` failed: dead-lettered, or waiting for its next attempt, or, if the time of
      that attempt is no safe integer, left half way. */
  predicate FailsTo(p: RetryPolicy, s: State, id: string, failure: FailureCause, now: int,
                    actor: Actor, actorId: string, retried: AttemptOutcome, t: State, r: Reply)
    requires HasAttempt(s, id) && 1 <= s.jobs[id].attemptsInCycle
  {
    var j, aid := s.jobs[id], s.jobs[id].lease.value.handle.attemptId;
    var due := now + Wait(p, j.attemptsInCycle);
    if GivesUp(p, j, failure) then
      Becomes(s, t, id, Marked(j, failure, now).(state := DeadLetter), aid, Ended(s.attempts[aid], failure, DeadLettered, now),
              Line(s, DeadLetters, id, Some(aid), actor, actorId, now)) &&
      r == Reply.Jobs([t.jobs[id]])
    else if Safe(due) then
      Becomes(s, t, id, Marked(j, failure, now).(state := RetryWait, availableAt := due), aid, Ended(s.attempts[aid], failure, retried, now),
              Line(s, RetryPlanned, id, Some(aid), actor, actorId, now)) &&
      r == Reply.Jobs([t.jobs[id]])
    else
      Becomes(s, t, id, Marked(j, failure, now).(state := RetryWait), aid, Ended(s.attempts[aid], failure, retried, now), []) &&
      r == Rejected(InvalidArgument)
  }

  lemma FinishMeans(p: RetryPolicy, s: State, id: string, failure: FailureCause, now: int, actor: Actor, actorId: string, retried: AttemptOutcome)
    requires p.Valid() && Safe(now) && HasAttempt(s, id) && 1 <= s.jobs[id].attemptsInCycle <= p.maximumAttemptsPerCycle
    ensures var (t, r) := FinishFailure(p, s, id, failure, now, actor, actorId, retried);
      FailsTo(p, s, id, failure, now, actor, actorId, retried, t, r)
  {
    DueMeans(p, now, s.jobs[id].attemptsInCycle);
    hide RetryAt, Wait, RetryPolicy.Valid;
    assert s.audit + [] == s.audit;
  }

  /** A failure that may not be retried, or that ends the last attempt of a cycle, dead-letters the job; any
      other schedules the next attempt after the backoff. */
  lemma FailMeans(p: RetryPolicy, s: State, h: LeaseHandle, failure: FailureCause, now: int)
    requires p.Valid() && Inv(p, s)
    ensures var (t, r) := Fail(p, s, h, failure, now);
      if Blank(failure.code) || Blank(failure.fingerprint) then t == s && r == Rejected(InvalidArgument)
      else if !IsCurrent(s, h, now) then t == s && r == Rejected(Complaint(s, h, now))
      else
        HasAttempt(s, h.workId) && 1 <= s.jobs[h.workId].attemptsInCycle &&
        FailsTo(p, s, h.workId, failure, now, Worker, h.workerId, RetryScheduled, t, r)
  {
    HolderMeans(p, s, h, now);
    hide Inv, Admit, FinishFailure, FailsTo, Complaint, Blank, CycleBudget, AttemptOk;
    if IsCurrent(s, h, now) {
      Facts(p, s, h.workId);
      FinishMeans(p, s, h.workId, failure, now, Worker, h.workerId, RetryScheduled);
    } else {
      hide IsCurrent;
    }
  }

  // ---------------------------------------------------------------- operators

  /** The code an operator's call is refused with before the job's state is looked at. */
  function OperatorComplaint(s: State, id: string, operatorId: string, reasonCode: string, now: int): Option<ErrorCode>
  {
    if Blank(operatorId) || !IsAuditCode(reasonCode) then Some(InvalidArgument)
    else if id !in s.jobs then Some(NotFound)
    else if !Safe(now) then Some(InvalidArgument)
    else if now < s.jobs[id].lastObservedAt then Some(DatabaseTimeRegression)
    else None
  }

  /** An operator's replay puts a dead-lettered job back at the start of a new cycle. */
  lemma ReplayMeans(p: RetryPolicy, s: State, id: string, operatorId: string, reasonCode: string, now: int)
    requires Inv(p, s)
    ensures var (t, r) := Replay(s, id, operatorId, reasonCode, now);
      var complaint := OperatorComplaint(s, id, operatorId, reasonCode, now);
      if complaint.Some? then t == s && r == Rejected(complaint.value)
      else if s.jobs[id].state != DeadLetter then t == s && r == Rejected(InvalidState)
      else ReplayedTo(s, id, operatorId, now, t, r)
  {
    hide Inv, Replay, ReplayedTo, OperatorComplaint;
    if id in s.jobs { OwnLease(p, s, id); }
    ReplayDecides(s, id, operatorId, reasonCode, now);
  }

  predicate ReplayedTo(s: State, id: string, operatorId: string, now: int, t: State, r: Reply)
    requires id in s.jobs
  {
    t == State(s.jobs[id := s.jobs[id].(state := Queued, availableAt := now, stateChangedAt := now, lastObservedAt := now,
                                        replayCycle := s.jobs[id].replayCycle + 1, replayCount := s.jobs[id].replayCount + 1, attemptsInCycle := 0)],
               s.attempts, s.checkpoints, s.index, s.audit + Line(s, Replayed, id, None, Operator, operatorId, now)) &&
    r == Reply.Jobs([t.jobs[id]])
  }

  lemma OperateMeans(s: State, id: string, operatorId: string, reasonCode: string, now: int)
    ensures var complaint := OperatorComplaint(s, id, operatorId, reasonCode, now);
      (complaint.None? ==> id in s.jobs) &&
      Operate(s, id, operatorId, reasonCode, now) == if complaint.Some? then Err(complaint.value) else Ok(s.jobs[id])
  {
    hide IsAuditCode, Blank;
  }

  lemma ReplayDecides(s: State, id: string, operatorId: string, reasonCode: string, now: int)
    requires id in s.jobs && s.jobs[id].state == DeadLetter ==> s.jobs[id].lease.None?
    ensures var (t, r) := Replay(s, id, operatorId, reasonCode, now);
      var complaint := OperatorComplaint(s, id, operatorId, reasonCode, now);
      if complaint.Some? then t == s && r == Rejected(complaint.value)
      else if id !in s.jobs || s.jobs[id].state != DeadLetter then t == s && r == Rejected(InvalidState)
      else ReplayedTo(s, id, operatorId, now, t, r)
    ensures OperatorComplaint(s, id, operatorId, reasonCode, now).None? ==> id in s.jobs
  {
    OperateMeans(s, id, operatorId, reasonCode, now);
    hide Operate, OperatorComplaint;
    if id in s.jobs && s.jobs[id].state == DeadLetter { assert s.jobs[id].(lease := None) == s.jobs[id]; }
  }

  /** A cancellation ends the job for good and, if it runs, its attempt. */
  lemma CancelMeans(p: RetryPolicy, s: State, id: string, operatorId: string, reasonCode: string, now: int)
    requires Inv(p, s)
    ensures var (t, r) := Cancel(s, id, operatorId, reasonCode, now);
      var complaint := OperatorComplaint(s, id, operatorId, reasonCode, now);
      if complaint.Some? then t == s && r == Rejected(complaint.value)
      else if s.jobs[id].state == JobSucceeded || s.jobs[id].state == JobCancelled then t == s && r == Rejected(InvalidState)
      else CancelledTo(s, id, operatorId, reasonCode, now, t, r)
  {
    hide Inv, Operate, OperatorComplaint;
    if id in s.jobs { OwnLease(p, s, id); }
    OperateMeans(s, id, operatorId, reasonCode, now);
  }

  predicate CancelledTo(s: State, id: string, operatorId: string, reasonCode: string, now: int, t: State, r: Reply)
    requires id in s.jobs
  {
    var j := s.jobs[id];
    var j' := j.(state := JobCancelled, stateChangedAt := now, lastObservedAt := now, lease := None, cancellationReason := Some(reasonCode));
    (if j.lease.Some? then
       var aid := j.lease.value.handle.attemptId;
       aid in s.attempts &&
       Becomes(s, t, id, j', aid, s.attempts[aid].(finishedAt := Some(now), outcome := Cancelled),
               Line(s, Cancels, id, Some(aid), Operator, operatorId, now))
     else
       t == State(s.jobs[id := j'], s.attempts, s.checkpoints, s.index, s.audit + Line(s, Cancels, id, None, Operator, operatorId, now))) &&
    r == Reply.Jobs([t.jobs[id]])
  }
}
