/** The Job model as the program runs it: an object whose methods update its maps step by step. Each
    method does exactly what its transition function says, and keeps the invariant. */
module JobsModel {
  import opened Texts
  import opened DurableWork
  import opened Jobs
  import opened JobsInvariants
  import opened JobsTime

  lemma ClaimedFirstTransitive(a: Job, b: Job, c: Job)
    requires ClaimedFirst(a, b) && ClaimedFirst(b, c)
    ensures ClaimedFirst(a, c)
  {
    if Less(a.id, b.id) && Less(b.id, c.id) { LessTransitive(a.id, b.id, c.id); }
    hide Less;
  }

  ghost predicate IdsOk(jobs: JobMap)
  {
    forall x :: x in jobs ==> jobs[x].id == x
  }

  lemma IdsAreKeys(p: RetryPolicy, s: State)
    requires Inv(p, s)
    ensures IdsOk(s.jobs)
  {
    hide Inv;
    forall x | x in s.jobs
      ensures s.jobs[x].id == x
    {
      Facts(p, s, x);
    }
  }

  /** The id that `sort(compareJobs)` puts first among `ids`. */
  ghost predicate IsFirst(jobs: JobMap, ids: set<string>, m: string)
  {
    m in ids && forall j :: j in ids && j in jobs && m in jobs && j != m ==> ClaimedFirst(jobs[m], jobs[j])
  }

  /** `[...ids].sort(compareJobs)[0]` */
  method First(jobs: JobMap, ids: set<string>) returns (m: string)
    requires ids != {} && ids <= jobs.Keys && IdsOk(jobs)
    ensures IsFirst(jobs, ids, m)
  {
    hide ClaimedFirst;
    m :| m in ids;
    var rest := ids - {m};
    while rest != {}
      invariant rest <= ids && m in ids - rest && IsFirst(jobs, ids - rest, m)
      decreases |rest|
    {
      var id :| id in rest;
      ClaimedFirstOrder(jobs[id], jobs[m]);
      if ClaimedFirst(jobs[id], jobs[m]) {
        forall j | j in ids - rest && j != m
          ensures ClaimedFirst(jobs[id], jobs[j])
        {
          ClaimedFirstTransitive(jobs[id], jobs[m], jobs[j]);
        }
        m := id;
      }
      rest := rest - {id};
    }
    assert ids - rest == ids;
  }

  /** `[...ids].sort(compareJobs)` */
  method SortByClaim(jobs: JobMap) returns (order: seq<string>)
    requires IdsOk(jobs)
    ensures forall id :: id in order <==> id in jobs
    ensures forall i, j :: 0 <= i < j < |order| ==> order[i] in jobs && order[j] in jobs && ClaimedFirst(jobs[order[i]], jobs[order[j]])
  {
    hide ClaimedFirst;
    order := [];
    var rest := jobs.Keys;
    while rest != {}
      invariant rest <= jobs.Keys
      invariant forall id :: id in order <==> id in jobs && id !in rest
      invariant forall i, j :: 0 <= i < |order| && j in rest ==> ClaimedFirst(jobs[order[i]], jobs[j])
      invariant forall i, j :: 0 <= i < j < |order| ==> ClaimedFirst(jobs[order[i]], jobs[order[j]])
      decreases |rest|
    {
      var m := First(jobs, rest);
      ghost var before := order;
      order, rest := order + [m], rest - {m};
      forall i, j | 0 <= i < |order| && j in rest
        ensures ClaimedFirst(jobs[order[i]], jobs[j])
      {
        if i < |before| { assert order[i] == before[i]; }
      }
      forall i, j | 0 <= i < j < |order|
        ensures ClaimedFirst(jobs[order[i]], jobs[order[j]])
      {
        assert order[i] == before[i];
      }
    }
  }

  lemma PickNone(s: State, now: int, claimable: set<string>)
    requires claimable == {} && forall id :: id in s.jobs && Claimable(s, id, now) ==> id in claimable
    ensures IsPick(s, now, None)
  {
  }

  lemma PickFirst(s: State, now: int, claimable: set<string>, m: string)
    requires (forall id :: id in claimable <==> id in s.jobs && Claimable(s, id, now)) && IsFirst(s.jobs, claimable, m)
    ensures IsPick(s, now, Some(m))
  {
    hide ClaimedFirst;
  }

  /** `done` reclaimed before the rest. */
  function Prefixed(done: seq<Job>, rest: (State, Reply)): (State, Reply)
  {
    (rest.0, if rest.1.Jobs? then Jobs(done + rest.1.jobs) else rest.1)
  }

  class JobStateModel {
    const policy: RetryPolicy
    var jobs: map<string, Job>
    var attempts: map<string, Attempt>
    var checkpoints: map<string, seq<Checkpoint>>
    var index: map<string, string>
    var audit: seq<AuditRecord>

    function Snapshot(): State
      reads this
    {
      State(jobs, attempts, checkpoints, index, audit)
    }

    ghost predicate Valid()
      reads this
    {
      policy.Valid() && Inv(policy, Snapshot())
    }

    constructor (policy: RetryPolicy)
      requires policy.Valid()
      ensures Valid() && Snapshot() == Empty && this.policy == policy
    {
      this.policy := policy;
      jobs, attempts, checkpoints, index, audit := map[], map[], map[], map[], [];
    }

    method AppendAudit(kind: AuditKind, workId: string, attemptId: Option<string>, actor: Actor, actorId: string, now: int)
      modifies this`audit
      ensures audit == Log(old(audit), kind, workId, attemptId, actor, actorId, now)
    {
      audit := audit + [AuditRecord(|audit| + 1, kind, workId, attemptId, actor, actorId, now)];
    }

    method EnqueueJob(input: EnqueueInput) returns (r: Reply)
      requires Valid()
      modifies this`jobs, this`index, this`audit
      ensures (Snapshot(), r) == Enqueue(old(Snapshot()), input) && Valid()
    {
      hide Inv, Grew, Scope, ValidEnqueue, Log;
      EnqueueKeeps(policy, Snapshot(), input);
      if !ValidEnqueue(input) { return Rejected(InvalidArgument); }
      var scope := Scope(input.projectId, input.jobType, input.idempotencyKey);
      if scope in index {
        if index[scope] !in jobs { return Rejected(NotFound); }
        var existing := jobs[index[scope]];
        if existing.inputDigest != input.inputDigest { return Rejected(IdempotencyConflict); }
        return Jobs([existing]);
      }
      if input.id in jobs { return Rejected(AlreadyExists); }
      var record := NewJob(input);
      if !IsTime(record.availableAt) || record.availableAt < input.now { return Rejected(InvalidArgument); }
      jobs := jobs[record.id := record];
      index := index[scope := record.id];
      AppendAudit(Enqueued, record.id, None, System, "job-enqueue", input.now);
      r := Jobs([record]);
    }

    /** `[...this.#jobs.values()].filter(claimable).sort(compareJobs)[0]` */
    method FindCandidate(now: int) returns (pick: Option<string>)
      requires Valid()
      ensures IsPick(Snapshot(), now, pick)
    {
      hide Inv, ClaimedFirst, Claimable, IsPick;
      ghost var s := Snapshot();
      IdsAreKeys(policy, s);
      var claimable := set id | id in jobs && Claimable(Snapshot(), id, now);
      if claimable == {} {
        PickNone(s, now, claimable);
        pick := None;
      } else {
        var m := First(jobs, claimable);
        PickFirst(s, now, claimable, m);
        pick := Some(m);
      }
    }

    method ClaimNext(workerId: string, attemptId: string, now: int) returns (r: Reply, ghost pick: Option<string>)
      requires Valid()
      modifies this`jobs, this`attempts, this`audit
      ensures IsPick(old(Snapshot()), now, pick)
      ensures (Snapshot(), r) == Claim(policy, old(Snapshot()), workerId, attemptId, now, pick) && Valid()
    {
      hide Inv, Grew, IsPick, AddDuration, Log, Latest;
      var candidate := FindCandidate(now);
      pick := candidate;
      ClaimKeeps(policy, Snapshot(), workerId, attemptId, now, pick);
      if Blank(workerId) || Blank(attemptId) || !IsTime(now) { return Rejected(InvalidArgument), pick; }
      if attemptId in attempts { return Rejected(AlreadyExists), pick; }
      if candidate.None? || candidate.value !in jobs { return NothingToClaim, pick; }
      var id := candidate.value;
      var j := jobs[id];
      if now < j.lastObservedAt { return Rejected(DatabaseTimeRegression), pick; }
      var expiry := AddDuration(now, policy.leaseDurationMs);
      if expiry.Err? { return Rejected(expiry.code), pick; }
      var latest := Latest(Snapshot(), id);
      var lease := ActiveLease(LeaseHandle(JobWork, id, attemptId, workerId, j.nextFencingToken), now, now, expiry.value);
      var attempt := Attempt(id, workerId, lease.handle.fencingToken, j.replayCycle, j.attemptsInCycle + 1, j.totalAttempts + 1,
                             now, now, None, Active, None);
      j := j.(state := Running, stateChangedAt := now, lastObservedAt := now, lease := Some(lease));
      j := j.(nextFencingToken := j.nextFencingToken + 1);
      j := j.(attemptsInCycle := j.attemptsInCycle + 1, totalAttempts := j.totalAttempts + 1);
      jobs := jobs[id := j];
      attempts := attempts[attemptId := attempt];
      AppendAudit(Claimed, id, Some(attemptId), Worker, workerId, now);
      r := Granted(j, lease.handle, latest);
    }

    method SendHeartbeat(h: LeaseHandle, now: int) returns (r: Reply)
      requires Valid()
      modifies this`jobs, this`attempts, this`audit
      ensures (Snapshot(), r) == Heartbeat(policy, old(Snapshot()), h, now) && Valid()
    {
      hide Inv, Grew, AddDuration, Log, CheckLease;
      HeartbeatKeeps(policy, Snapshot(), h, now);
      var admitted := Admit(Snapshot(), h, now);
      if admitted.Err? { return Rejected(admitted.code); }
      var j, lease := jobs[h.workId], admitted.value;
      lease := lease.(heartbeatAt := now);
      jobs := jobs[h.workId := j.(lease := Some(lease))];
      var expiry := AddDuration(now, policy.leaseDurationMs);
      if expiry.Err? { return Rejected(expiry.code); }
      lease := lease.(expiresAt := expiry.value);
      jobs := jobs[h.workId := j.(lease := Some(lease), lastObservedAt := now)];
      assert jobs == old(jobs)[h.workId := j.(lease := Some(lease), lastObservedAt := now)];
      var aid := lease.handle.attemptId;
      attempts := attempts[aid := attempts[aid].(lastHeartbeatAt := now)];
      AppendAudit(Heartbeats, h.workId, Some(aid), Worker, lease.handle.workerId, now);
      r := Renewed(lease.handle);
    }

    method RecordCheckpoint(h: LeaseHandle, input: CheckpointInput, now: int) returns (r: Reply)
      requires Valid()
      modifies this`jobs, this`checkpoints, this`audit
      ensures (Snapshot(), r) == CompleteCheckpoint(old(Snapshot()), h, input, now) && Valid()
    {
      hide Inv, Grew, Log, CheckLease, ValidCheckpoint;
      CheckpointKeeps(policy, Snapshot(), h, input, now);
      if !ValidCheckpoint(input) { return Rejected(InvalidArgument); }
      var admitted := Admit(Snapshot(), h, now);
      if admitted.Err? { return Rejected(admitted.code); }
      var handle := admitted.value.handle;
      var line := CheckpointsOf(Snapshot(), h.workId);
      if line != [] {
        var latest := line[|line| - 1];
        if input.sequence < latest.sequence { return Rejected(SequenceConflict); }
        if input.sequence == latest.sequence {
          if !SameOutput(latest, input) { return Rejected(SequenceConflict); }
          return Recorded(latest);
        }
      }
      var c := Checkpoint(input.sequence, input.name, input.outputRef, input.outputDigest, handle.attemptId, now);
      checkpoints := checkpoints[h.workId := line + [c]];
      jobs := jobs[h.workId := jobs[h.workId].(lastObservedAt := now)];
      AppendAudit(CheckpointCompleted, h.workId, Some(handle.attemptId), Worker, handle.workerId, now);
      r := Recorded(c);
    }

    method SucceedJob(h: LeaseHandle, resultRef: string, now: int) returns (r: Reply)
      requires Valid()
      modifies this`jobs, this`attempts, this`audit
      ensures (Snapshot(), r) == Succeed(old(Snapshot()), h, resultRef, now) && Valid()
    {
      hide Inv, Grew, Log, CheckLease;
      SucceedKeeps(policy, Snapshot(), h, resultRef, now);
      if Blank(resultRef) { return Rejected(InvalidArgument); }
      var admitted := Admit(Snapshot(), h, now);
      if admitted.Err? { return Rejected(admitted.code); }
      var aid, j := admitted.value.handle.attemptId, jobs[h.workId];
      attempts := attempts[aid := attempts[aid].(finishedAt := Some(now), outcome := Succeeded)];
      j := j.(state := JobSucceeded, stateChangedAt := now, lastObservedAt := now);
      j := j.(lease := None, resultRef := Some(resultRef));
      jobs := jobs[h.workId := j];
      AppendAudit(Succeeds, h.workId, Some(aid), Worker, admitted.value.handle.workerId, now);
      r := Jobs([j]);
    }

    method Finish(id: string, failure: FailureCause, now: int, actor: Actor, actorId: string, retried: AttemptOutcome) returns (r: Reply)
      requires HasAttempt(Snapshot(), id)
      modifies this`jobs, this`attempts, this`audit
      ensures (Snapshot(), r) == FinishFailure(policy, old(Snapshot()), id, failure, now, actor, actorId, retried)
    {
      hide RetryAt, CanRetry, Log;
      var j := jobs[id];
      var aid := j.lease.value.handle.attemptId;
      var retry := CanRetry(policy, j, failure);
      attempts := attempts[aid := attempts[aid].(finishedAt := Some(now), failure := Some(failure),
                                                 outcome := if retry then retried else DeadLettered)];
      var first := if j.firstFailure.None? then Some(failure) else j.firstFailure;
      j := j.(firstFailure := first, lastFailure := Some(failure), lease := None, stateChangedAt := now, lastObservedAt := now);
      if retry {
        r := ScheduleRetry(id, j, aid, now, actor, actorId);
      } else {
        j := j.(state := DeadLetter);
        jobs := jobs[id := j];
        AppendAudit(DeadLetters, id, Some(aid), actor, actorId, now);
        r := Jobs([j]);
      }
    }

    /** The retry branch of `#finishFailure`: the state is stored before the time is known. */
    method ScheduleRetry(id: string, was: Job, aid: string, now: int, actor: Actor, actorId: string) returns (r: Reply)
      modifies this`jobs, this`audit
      ensures var due := RetryAt(now, was.attemptsInCycle, policy);
        var j := was.(state := RetryWait, availableAt := if due.Ok? then due.value else was.availableAt);
        jobs == old(jobs)[id := j] && r == (if due.Ok? then Jobs([j]) else Rejected(due.code)) &&
        audit == if due.Ok? then Log(old(audit), RetryPlanned, id, Some(aid), actor, actorId, now) else old(audit)
    {
      hide RetryAt, Log;
      var j := was.(state := RetryWait);
      jobs := jobs[id := j];
      var due := RetryAt(now, j.attemptsInCycle, policy);
      if due.Err? { return Rejected(due.code); }
      j := j.(availableAt := due.value);
      jobs := jobs[id := j];
      assert jobs == old(jobs)[id := j];
      AppendAudit(RetryPlanned, id, Some(aid), actor, actorId, now);
      r := Jobs([j]);
    }

    method FailJob(h: LeaseHandle, failure: FailureCause, now: int) returns (r: Reply)
      requires Valid()
      modifies this`jobs, this`attempts, this`audit
      ensures (Snapshot(), r) == Fail(policy, old(Snapshot()), h, failure, now) && Valid()
    {
      hide Inv, Grew, FinishFailure;
      FailKeeps(policy, Snapshot(), h, failure, now);
      Admitted(policy, Snapshot(), h, now);
      if !ValidFailure(failure) { return Rejected(InvalidArgument); }
      var admitted := Admit(Snapshot(), h, now);
      if admitted.Err? { return Rejected(admitted.code); }
      r := Finish(h.workId, failure, now, Worker, admitted.value.handle.workerId, RetryScheduled);
    }

    /** One turn of the reaper's loop. */
    method ReclaimOneLease(id: string, now: int) returns (r: Reply)
      requires Valid()
      modifies this`jobs, this`attempts, this`audit
      ensures (Snapshot(), r) == ReclaimOne(policy, old(Snapshot()), id, now) && Valid()
    {
      hide Inv, Grew, FinishFailure;
      ReclaimOneKeeps(policy, Snapshot(), id, now);
      if !LeaseIsOver(Snapshot(), id, now) { return Jobs([]); }
      Facts(policy, Snapshot(), id);
      if now < jobs[id].lastObservedAt { return Rejected(DatabaseTimeRegression); }
      var aid := jobs[id].lease.value.handle.attemptId;
      AppendAudit(LeaseLost, id, Some(aid), System, "lease-reaper", now);
      r := Finish(id, ExpiryCause, now, System, "lease-reaper", Expired);
    }

    /** The reaper's loop over the sorted jobs. */
    method ReapEach(list: seq<string>, now: int) returns (r: Reply)
      requires Valid()
      modifies this`jobs, this`attempts, this`audit
      ensures (Snapshot(), r) == ReclaimEach(policy, old(Snapshot()), list, now) && Valid()
    {
      ghost var s := Snapshot();
      hide Inv, ReclaimOne, ReclaimEach, Prefixed;
      var reclaimed: seq<Job> := [];
      var k := 0;
      assert list[0..] == list;
      PrefixedNothing(ReclaimEach(policy, s, list, now));
      while k < |list|
        invariant 0 <= k <= |list| && Valid()
        invariant ReclaimEach(policy, s, list, now) == Prefixed(reclaimed, ReclaimEach(policy, Snapshot(), list[k..], now))
      {
        assert list[k..][0] == list[k] && list[k..][1..] == list[k + 1..];
        ReclaimUnfold(policy, Snapshot(), list[k..], now);
        var one := ReclaimOneLease(list[k], now);
        if !one.Jobs? {
          PrefixedRejected(reclaimed, (Snapshot(), one));
          return one;
        }
        PrefixedStep(reclaimed, one.jobs, ReclaimEach(policy, Snapshot(), list[k + 1..], now));
        reclaimed := reclaimed + one.jobs;
        k := k + 1;
      }
      assert list[k..] == [];
      ReclaimNothing(policy, Snapshot(), now);
      PrefixedDone(reclaimed, Snapshot());
      r := Jobs(reclaimed);
    }

    method ReclaimExpiredLeases(now: int) returns (r: Reply, ghost order: seq<string>)
      requires Valid()
      modifies this`jobs, this`attempts, this`audit
      ensures IsReapOrder(old(Snapshot()), order)
      ensures (Snapshot(), r) == Reclaim(policy, old(Snapshot()), order, now) && Valid()
    {
      IdsAreKeys(policy, Snapshot());
      hide Inv, ReclaimEach, ClaimedFirst;
      var list := SortByClaim(jobs);
      order := list;
      assert IsReapOrder(Snapshot(), order);
      hide IsReapOrder;
      if !IsTime(now) { return Rejected(InvalidArgument), order; }
      r := ReapEach(list, now);
    }

    method ReplayDeadLetter(id: string, operatorId: string, reasonCode: string, now: int) returns (r: Reply)
      requires Valid()
      modifies this`jobs, this`audit
      ensures (Snapshot(), r) == Replay(old(Snapshot()), id, operatorId, reasonCode, now) && Valid()
    {
      hide Inv, Grew, IsAuditCode;
      ReplayKeeps(policy, Snapshot(), id, operatorId, reasonCode, now);
      var job := Operate(Snapshot(), id, operatorId, reasonCode, now);
      if job.Err? { return Rejected(job.code); }
      var j := job.value;
      if j.state != DeadLetter { return Rejected(InvalidState); }
      j := j.(state := Queued, availableAt := now, stateChangedAt := now, lastObservedAt := now, lease := None);
      j := j.(replayCycle := j.replayCycle + 1, replayCount := j.replayCount + 1, attemptsInCycle := 0);
      jobs := jobs[id := j];
      AppendAudit(Replayed, id, None, Operator, operatorId, now);
      r := Jobs([j]);
    }

    method CancelJob(id: string, operatorId: string, reasonCode: string, now: int) returns (r: Reply)
      requires Valid()
      modifies this`jobs, this`attempts, this`audit
      ensures (Snapshot(), r) == Cancel(old(Snapshot()), id, operatorId, reasonCode, now) && Valid()
    {
      hide Inv, Grew, IsAuditCode;
      CancelKeeps(policy, Snapshot(), id, operatorId, reasonCode, now);
      var job := Operate(Snapshot(), id, operatorId, reasonCode, now);
      if job.Err? { return Rejected(job.code); }
      var j := job.value;
      if j.state == JobSucceeded || j.state == JobCancelled { return Rejected(InvalidState); }
      var aid := if j.lease.Some? then Some(j.lease.value.handle.attemptId) else None;
      if aid.Some? {
        if aid.value !in attempts { return Rejected(NotFound); }
        attempts := attempts[aid.value := attempts[aid.value].(finishedAt := Some(now), outcome := Cancelled)];
      }
      j := j.(state := JobCancelled, stateChangedAt := now, lastObservedAt := now, lease := None, cancellationReason := Some(reasonCode));
      jobs := jobs[id := j];
      AppendAudit(Cancels, id, aid, Operator, operatorId, now);
      r := Jobs([j]);
    }
  }

  lemma PrefixedNothing(rest: (State, Reply))
    ensures Prefixed([], rest) == rest
  {
    if rest.1.Jobs? { assert [] + rest.1.jobs == rest.1.jobs; }
  }

  lemma PrefixedRejected(done: seq<Job>, rest: (State, Reply))
    requires !rest.1.Jobs?
    ensures Prefixed(done, rest) == rest
  {
  }

  lemma PrefixedStep(done: seq<Job>, one: seq<Job>, rest: (State, Reply))
    ensures Prefixed(done, (rest.0, if rest.1.Jobs? then Jobs(one + rest.1.jobs) else rest.1)) == Prefixed(done + one, rest)
  {
    if rest.1.Jobs? { assert done + (one + rest.1.jobs) == (done + one) + rest.1.jobs; }
  }

  lemma PrefixedDone(done: seq<Job>, s: State)
    ensures Prefixed(done, (s, Jobs([]))) == (s, Jobs(done))
  {
    assert done + [] == done;
  }

  lemma ReclaimNothing(p: RetryPolicy, s: State, now: int)
    ensures ReclaimEach(p, s, [], now) == (s, Jobs([]))
  {
  }
}
