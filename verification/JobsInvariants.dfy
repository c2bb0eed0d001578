/** The invariant of every Job state, what no step takes back, and each operation keeping both. */
module JobsInvariants {
  import opened Texts
  import opened DurableWork
  import opened Jobs

  type JobMap = map<string, Job>
  type AttemptMap = map<string, Attempt>

  predicate Waiting(j: Job)
  {
    j.state == Queued || j.state == RetryWait
  }

  predicate JobOk(p: RetryPolicy, id: string, j: Job)
  {
    j.id == id && (j.state == Running <==> j.lease.Some?) &&
    (j.lease.Some? ==>
       var h := j.lease.value.handle;
       h.workKind == JobWork && h.workId == id && h.fencingToken == j.totalAttempts &&
       j.availableAt <= j.lastObservedAt < j.lease.value.expiresAt) &&
    0 <= j.attemptsInCycle <= p.maximumAttemptsPerCycle && (j.state == Running ==> 1 <= j.attemptsInCycle) &&
    (Waiting(j) ==> j.attemptsInCycle < p.maximumAttemptsPerCycle) &&
    j.nextFencingToken == j.totalAttempts + 1 && 0 <= j.replayCycle == j.replayCount &&
    0 <= j.totalAttempts <= CycleBudget(j.replayCycle, p.maximumAttemptsPerCycle) + j.attemptsInCycle &&
    (j.state == JobSucceeded ==> j.resultRef.Some?) && (j.state == JobCancelled ==> j.cancellationReason.Some?)
  }

  ghost predicate JobsOk(p: RetryPolicy, jobs: JobMap)
  {
    forall id :: id in jobs ==> JobOk(p, id, jobs[id])
  }

  predicate Holds(j: Job, aid: string)
  {
    j.lease.Some? && j.lease.value.handle.attemptId == aid
  }

  predicate AttemptOk(j: Job, aid: string, a: Attempt)
  {
    1 <= a.fencingToken == a.totalAttempt <= j.totalAttempts && (a.outcome == Active <==> Holds(j, aid)) &&
    (a.outcome == Active ==> a.fencingToken == j.lease.value.handle.fencingToken && a.workerId == j.lease.value.handle.workerId)
  }

  ghost predicate AttemptsMatch(jobs: JobMap, attempts: AttemptMap)
  {
    forall a :: a in attempts ==> attempts[a].workId in jobs && AttemptOk(jobs[attempts[a].workId], a, attempts[a])
  }

  ghost predicate LeasesMatch(jobs: JobMap, attempts: AttemptMap)
  {
    forall id :: id in jobs && jobs[id].lease.Some? ==>
      var aid := jobs[id].lease.value.handle.attemptId;
      aid in attempts && attempts[aid].workId == id
  }

  ghost predicate TokensDiffer(attempts: AttemptMap)
  {
    forall a, b :: a in attempts && b in attempts && a != b && attempts[a].workId == attempts[b].workId ==>
      attempts[a].fencingToken != attempts[b].fencingToken
  }

  function AttemptsOf(attempts: AttemptMap, id: string): set<string>
  {
    set a | a in attempts && attempts[a].workId == id
  }

  ghost predicate CountsOk(jobs: JobMap, attempts: AttemptMap)
  {
    forall id :: id in jobs ==> jobs[id].totalAttempts == |AttemptsOf(attempts, id)|
  }

  ghost predicate AttemptsOk(jobs: JobMap, attempts: AttemptMap)
  {
    AttemptsMatch(jobs, attempts) && LeasesMatch(jobs, attempts) && TokensDiffer(attempts) && CountsOk(jobs, attempts)
  }

  /** One checkpoint: written by an attempt on its job. */
  ghost predicate CheckpointOk(attempts: AttemptMap, id: string, c: Checkpoint)
  {
    c.attemptId in attempts && attempts[c.attemptId].workId == id
  }

  /** Checkpoints have ascending sequences, and never a lower fencing token than an earlier one. */
  ghost predicate LineOk(attempts: AttemptMap, id: string, line: seq<Checkpoint>)
  {
    (forall i :: 0 <= i < |line| ==> CheckpointOk(attempts, id, line[i])) &&
    forall i, k :: 0 <= i < k < |line| && CheckpointOk(attempts, id, line[i]) && CheckpointOk(attempts, id, line[k]) ==>
      line[i].sequence < line[k].sequence && attempts[line[i].attemptId].fencingToken <= attempts[line[k].attemptId].fencingToken
  }

  ghost predicate CheckpointsOk(jobs: JobMap, attempts: AttemptMap, checkpoints: map<string, seq<Checkpoint>>)
  {
    forall id :: id in checkpoints ==> id in jobs && LineOk(attempts, id, checkpoints[id])
  }

  function ScopeOf(j: Job): string
  {
    Scope(j.projectId, j.jobType, j.idempotencyKey)
  }

  ghost predicate IndexOk(jobs: JobMap, index: map<string, string>)
  {
    (forall id :: id in jobs ==> ScopeOf(jobs[id]) in index && index[ScopeOf(jobs[id])] == id) &&
    forall k :: k in index ==> index[k] in jobs && ScopeOf(jobs[index[k]]) == k
  }

  ghost predicate AuditOk(jobs: JobMap, audit: seq<AuditRecord>)
  {
    forall i :: 0 <= i < |audit| ==> audit[i].sequence == i + 1 && audit[i].workId in jobs
  }

  ghost predicate Inv(p: RetryPolicy, s: State)
  {
    JobsOk(p, s.jobs) && AttemptsOk(s.jobs, s.attempts) && CheckpointsOk(s.jobs, s.attempts, s.checkpoints) &&
    IndexOk(s.jobs, s.index) && AuditOk(s.jobs, s.audit)
  }

  // ---------------------------------------------------------------- what no step takes back

  predicate Final(j: Job)
  {
    j.state == JobSucceeded || j.state == JobCancelled
  }

  predicate JobGrew(j: Job, j': Job)
  {
    j'.id == j.id && j'.projectId == j.projectId && j'.jobType == j.jobType && j'.idempotencyKey == j.idempotencyKey &&
    j'.inputDigest == j.inputDigest && j'.priority == j.priority && (Final(j) ==> j' == j) &&
    j.totalAttempts <= j'.totalAttempts && j.replayCycle <= j'.replayCycle
  }

  ghost predicate JobsGrew(jobs: JobMap, jobs': JobMap)
  {
    forall id :: id in jobs ==> id in jobs' && JobGrew(jobs[id], jobs'[id])
  }

  predicate AttemptGrew(a: Attempt, a': Attempt)
  {
    a'.workId == a.workId && a'.fencingToken == a.fencingToken && a'.workerId == a.workerId && (a.outcome != Active ==> a' == a)
  }

  /** Attempts stay, a finished one unchanged, and a new one outranks all earlier ones of its job. */
  ghost predicate AttemptsGrew(s: State, s': State)
  {
    (forall a :: a in s.attempts ==> a in s'.attempts && AttemptGrew(s.attempts[a], s'.attempts[a])) &&
    forall a :: a in s'.attempts && a !in s.attempts && s'.attempts[a].workId in s.jobs ==>
      s.jobs[s'.attempts[a].workId].totalAttempts < s'.attempts[a].fencingToken
  }

  ghost predicate Grew(s: State, s': State)
  {
    JobsGrew(s.jobs, s'.jobs) && AttemptsGrew(s, s') && (forall id :: CheckpointsOf(s, id) <= CheckpointsOf(s', id)) &&
    (forall k :: k in s.index ==> k in s'.index && s'.index[k] == s.index[k]) && s.audit <= s'.audit
  }

  ghost predicate Keeps(p: RetryPolicy, s: State, s': State)
  {
    Inv(p, s') && Grew(s, s')
  }

  lemma KeepsSelf(p: RetryPolicy, s: State)
    requires Inv(p, s)
    ensures Keeps(p, s, s)
  {
    hide Inv;
  }

  lemma JobsGrewTransitive(s: JobMap, t: JobMap, u: JobMap)
    requires JobsGrew(s, t) && JobsGrew(t, u)
    ensures JobsGrew(s, u)
    ensures forall id :: id in s ==> id in t && s[id].totalAttempts <= t[id].totalAttempts
  {
    forall id | id in s
      ensures id in u && id in t && JobGrew(s[id], t[id]) && JobGrew(s[id], u[id])
    {
      assert JobGrew(s[id], t[id]) && JobGrew(t[id], u[id]);
    }
  }

  lemma AttemptsGrewTransitive(s: State, t: State, u: State)
    requires forall id :: id in s.jobs ==> id in t.jobs && s.jobs[id].totalAttempts <= t.jobs[id].totalAttempts
    requires AttemptsGrew(s, t) && AttemptsGrew(t, u)
    ensures AttemptsGrew(s, u)
  {
    forall a | a in s.attempts
      ensures a in u.attempts && AttemptGrew(s.attempts[a], u.attempts[a])
    {
      assert AttemptGrew(s.attempts[a], t.attempts[a]) && AttemptGrew(t.attempts[a], u.attempts[a]);
    }
    forall a | a in u.attempts && a !in s.attempts && u.attempts[a].workId in s.jobs
      ensures s.jobs[u.attempts[a].workId].totalAttempts < u.attempts[a].fencingToken
    {
      if a in t.attempts { assert AttemptGrew(t.attempts[a], u.attempts[a]); }
    }
  }

  lemma GrewTransitive(s: State, t: State, u: State)
    requires Grew(s, t) && Grew(t, u)
    ensures Grew(s, u)
  {
    hide JobsGrew, AttemptsGrew, CheckpointsOf;
    JobsGrewTransitive(s.jobs, t.jobs, u.jobs);
    AttemptsGrewTransitive(s, t, u);
    forall id
      ensures CheckpointsOf(s, id) <= CheckpointsOf(u, id)
    {
      assert CheckpointsOf(s, id) <= CheckpointsOf(t, id) && CheckpointsOf(t, id) <= CheckpointsOf(u, id);
    }
  }

  // ---------------------------------------------------------------- one job changes

  lemma TouchJobs(p: RetryPolicy, jobs: JobMap, id: string, j': Job)
    requires JobsOk(p, jobs) && id in jobs && JobOk(p, id, j') && JobGrew(jobs[id], j')
    ensures JobsOk(p, jobs[id := j']) && JobsGrew(jobs, jobs[id := j'])
  {
    hide JobOk;
  }

  lemma TouchIndex(jobs: JobMap, id: string, j': Job, index: map<string, string>, audit: seq<AuditRecord>)
    requires IndexOk(jobs, index) && AuditOk(jobs, audit) && id in jobs && JobGrew(jobs[id], j')
    ensures IndexOk(jobs[id := j'], index) && AuditOk(jobs[id := j'], audit)
  {
    hide Scope;
    assert forall x :: x in jobs ==> ScopeOf(jobs[id := j'][x]) == ScopeOf(jobs[x]);
  }

  /** The lease holder's attempt and its job change together. */
  lemma TouchAttempts(jobs: JobMap, attempts: AttemptMap, id: string, j': Job, aid: string, a': Attempt)
    requires AttemptsOk(jobs, attempts) && id in jobs && Holds(jobs[id], aid) && aid in attempts
    requires a'.workId == id && a'.fencingToken == attempts[aid].fencingToken
    requires j'.totalAttempts == jobs[id].totalAttempts && AttemptOk(j', aid, a') && (j'.lease.Some? ==> Holds(j', aid))
    ensures AttemptsOk(jobs[id := j'], attempts[aid := a'])
  {
    var jobs', attempts' := jobs[id := j'], attempts[aid := a'];
    assert attempts[aid].workId == id;
    forall b | b in attempts'
      ensures attempts'[b].workId in jobs' && AttemptOk(jobs'[attempts'[b].workId], b, attempts'[b])
    {
      if b != aid { assert AttemptOk(jobs[attempts[b].workId], b, attempts[b]); }
    }
    TouchCounts(jobs, attempts, id, j', aid, a');
    hide AttemptOk, CountsOk;
  }

  lemma TouchCounts(jobs: JobMap, attempts: AttemptMap, id: string, j': Job, aid: string, a': Attempt)
    requires CountsOk(jobs, attempts) && id in jobs && j'.totalAttempts == jobs[id].totalAttempts && aid in attempts && a'.workId == attempts[aid].workId
    ensures CountsOk(jobs[id := j'], attempts[aid := a'])
  {
    forall x | x in jobs
      ensures AttemptsOf(attempts[aid := a'], x) == AttemptsOf(attempts, x)
    {
    }
  }

  lemma TouchIdle(jobs: JobMap, attempts: AttemptMap, id: string, j': Job)
    requires AttemptsOk(jobs, attempts) && id in jobs && j'.totalAttempts == jobs[id].totalAttempts
    requires jobs[id].lease.None? && j'.lease.None?
    ensures AttemptsOk(jobs[id := j'], attempts)
  {
    forall b | b in attempts
      ensures attempts[b].workId in jobs[id := j'] && AttemptOk(jobs[id := j'][attempts[b].workId], b, attempts[b])
    {
      assert AttemptOk(jobs[attempts[b].workId], b, attempts[b]);
    }
  }

  lemma AddAttempt(jobs: JobMap, attempts: AttemptMap, id: string, j': Job, aid: string, a: Attempt)
    requires AttemptsOk(jobs, attempts) && id in jobs && jobs[id].lease.None? && aid !in attempts
    requires a.workId == id && a.fencingToken == j'.totalAttempts == jobs[id].totalAttempts + 1
    requires AttemptOk(j', aid, a) && Holds(j', aid)
    ensures AttemptsOk(jobs[id := j'], attempts[aid := a])
  {
    assert AttemptsMatch(jobs[id := j'], attempts[aid := a]) by {
      forall b | b in attempts && attempts[b].workId == id
        ensures AttemptOk(j', b, attempts[b])
      {
        assert AttemptOk(jobs[id], b, attempts[b]);
      }
    }
    AddToken(jobs, attempts, id, aid, a);
    AddCount(jobs, attempts, id, j', aid, a);
  }

  lemma AddToken(jobs: JobMap, attempts: AttemptMap, id: string, aid: string, a: Attempt)
    requires AttemptsMatch(jobs, attempts) && TokensDiffer(attempts)
    requires id in jobs && a.workId == id && a.fencingToken == jobs[id].totalAttempts + 1
    ensures TokensDiffer(attempts[aid := a])
  {
    forall b | b in attempts && attempts[b].workId == id
      ensures attempts[b].fencingToken < a.fencingToken
    {
      assert AttemptOk(jobs[id], b, attempts[b]);
    }
  }

  lemma AddCount(jobs: JobMap, attempts: AttemptMap, id: string, j': Job, aid: string, a: Attempt)
    requires CountsOk(jobs, attempts) && id in jobs && j'.totalAttempts == jobs[id].totalAttempts + 1 && aid !in attempts && a.workId == id
    ensures CountsOk(jobs[id := j'], attempts[aid := a])
  {
    forall x | x in jobs
      ensures |AttemptsOf(attempts[aid := a], x)| == |AttemptsOf(attempts, x)| + (if x == id then 1 else 0)
    {
      CountOne(attempts, aid, a, x);
    }
    hide AttemptsOf;
  }

  lemma CountOne(attempts: AttemptMap, aid: string, a: Attempt, x: string)
    requires aid !in attempts
    ensures |AttemptsOf(attempts[aid := a], x)| == |AttemptsOf(attempts, x)| + (if x == a.workId then 1 else 0)
  {
    var before, after := AttemptsOf(attempts, x), AttemptsOf(attempts[aid := a], x);
    assert aid !in before;
    if x == a.workId { assert after == before + {aid}; } else { assert after == before; }
  }

  /** Checkpoints keep their meaning while attempts only grow. */
  lemma KeepCheckpoints(s: State, jobs': JobMap, attempts': AttemptMap)
    requires CheckpointsOk(s.jobs, s.attempts, s.checkpoints) && s.jobs.Keys <= jobs'.Keys
    requires forall a :: a in s.attempts ==> a in attempts' && AttemptGrew(s.attempts[a], attempts'[a])
    ensures CheckpointsOk(jobs', attempts', s.checkpoints)
  {
    forall id | id in s.checkpoints
      ensures LineOk(attempts', id, s.checkpoints[id])
    {
      assert LineOk(s.attempts, id, s.checkpoints[id]);
      LineLater(s.attempts, attempts', id, s.checkpoints[id]);
    }
  }

  lemma LineLater(attempts: AttemptMap, attempts': AttemptMap, id: string, line: seq<Checkpoint>)
    requires LineOk(attempts, id, line)
    requires forall a :: a in attempts ==> a in attempts' && AttemptGrew(attempts[a], attempts'[a])
    ensures LineOk(attempts', id, line)
  {
    forall i | 0 <= i < |line|
      ensures CheckpointOk(attempts, id, line[i]) && CheckpointOk(attempts', id, line[i])
      ensures line[i].attemptId in attempts && attempts'[line[i].attemptId].fencingToken == attempts[line[i].attemptId].fencingToken
    {
      assert CheckpointOk(attempts, id, line[i]);
      assert AttemptGrew(attempts[line[i].attemptId], attempts'[line[i].attemptId]);
    }
  }

  lemma LogOk(jobs: JobMap, audit: seq<AuditRecord>, r: AuditRecord)
    requires AuditOk(jobs, audit) && r.workId in jobs && r.sequence == |audit| + 1
    ensures AuditOk(jobs, audit + [r])
  {
  }

  lemma Facts(p: RetryPolicy, s: State, id: string)
    requires Inv(p, s) && id in s.jobs
    ensures JobOk(p, id, s.jobs[id])
    ensures s.jobs[id].lease.Some? ==>
      var aid := s.jobs[id].lease.value.handle.attemptId;
      aid in s.attempts && s.attempts[aid].workId == id && AttemptOk(s.jobs[id], aid, s.attempts[aid])
  {
    hide CheckpointsOk, IndexOk, AuditOk, CountsOk, TokensDiffer;
  }

  /** The lease holder of job `id` moves it to `j'`, its attempt to `a'`, and logs `r` if told to. */
  lemma HolderStep(p: RetryPolicy, s: State, id: string, j': Job, a': Attempt, log: bool, r: AuditRecord)
    requires Inv(p, s) && HasAttempt(s, id) && JobOk(p, id, j') && JobGrew(s.jobs[id], j') && j'.totalAttempts == s.jobs[id].totalAttempts
    requires var aid := s.jobs[id].lease.value.handle.attemptId;
      AttemptGrew(s.attempts[aid], a') && AttemptOk(j', aid, a') && (j'.lease.Some? ==> Holds(j', aid))
    requires log ==> r.workId == id && r.sequence == |s.audit| + 1
    ensures Keeps(p, s, s.(jobs := s.jobs[id := j'], attempts := s.attempts[s.jobs[id].lease.value.handle.attemptId := a'],
                           audit := if log then s.audit + [r] else s.audit))
  {
    hide JobsOk, AttemptsOk, CheckpointsOk, IndexOk, AuditOk, JobsGrew, JobOk, JobGrew, AttemptGrew, AttemptOk;
    var aid := s.jobs[id].lease.value.handle.attemptId;
    var attempts' := s.attempts[aid := a'];
    Facts(p, s, id);
    AttemptsOnly(s, aid, a');
    TouchJobs(p, s.jobs, id, j');
    SameOwner(s.attempts[aid], a');
    TouchAttempts(s.jobs, s.attempts, id, j', aid, a');
    KeepCheckpoints(s, s.jobs[id := j'], attempts');
    TouchIndex(s.jobs, id, j', s.index, s.audit);
    if log { LogOk(s.jobs[id := j'], s.audit, r); }
  }

  lemma SameOwner(a: Attempt, a': Attempt)
    requires AttemptGrew(a, a')
    ensures a'.workId == a.workId && a'.fencingToken == a.fencingToken
  {
  }

  lemma AttemptsOnly(s: State, aid: string, a': Attempt)
    requires aid in s.attempts && AttemptGrew(s.attempts[aid], a')
    ensures forall a :: a in s.attempts ==> a in s.attempts[aid := a'] && AttemptGrew(s.attempts[a], s.attempts[aid := a'][a])
  {
  }

  /** A job without a lease changes. */
  lemma IdleStep(p: RetryPolicy, s: State, id: string, j': Job, r: AuditRecord)
    requires Inv(p, s) && id in s.jobs && JobOk(p, id, j') && JobGrew(s.jobs[id], j') && j'.totalAttempts == s.jobs[id].totalAttempts
    requires s.jobs[id].lease.None? && j'.lease.None? && r.workId == id && r.sequence == |s.audit| + 1
    ensures Keeps(p, s, s.(jobs := s.jobs[id := j'], audit := s.audit + [r]))
  {
    hide JobsOk, AttemptsOk, CheckpointsOk, IndexOk, AuditOk, JobsGrew, JobOk, JobGrew;
    TouchJobs(p, s.jobs, id, j');
    TouchIdle(s.jobs, s.attempts, id, j');
    KeepCheckpoints(s, s.jobs[id := j'], s.attempts);
    TouchIndex(s.jobs, id, j', s.index, s.audit);
    LogOk(s.jobs[id := j'], s.audit, r);
  }

  /** An admitted caller holds the one lease of its job, and its attempt is the active one. */
  lemma Admitted(p: RetryPolicy, s: State, h: LeaseHandle, now: int)
    requires Inv(p, s)
    ensures Admit(s, h, now).Ok? ==>
      h.workId in s.jobs && HasAttempt(s, h.workId) && s.jobs[h.workId].state == Running &&
      h == s.jobs[h.workId].lease.value.handle && h.attemptId in s.attempts && now < s.jobs[h.workId].lease.value.expiresAt &&
      s.attempts[h.attemptId].outcome == Active && s.attempts[h.attemptId].workId == h.workId &&
      AttemptOk(s.jobs[h.workId], h.attemptId, s.attempts[h.attemptId]) && JobOk(p, h.workId, s.jobs[h.workId]) &&
      Admit(s, h, now).value == s.jobs[h.workId].lease.value
  {
    hide Inv;
    if h.workId in s.jobs { Facts(p, s, h.workId); }
  }

  function LogRecord(s: State, h: LeaseHandle, kind: AuditKind, now: int): AuditRecord
  {
    AuditRecord(|s.audit| + 1, kind, h.workId, Some(h.attemptId), Worker, h.workerId, now)
  }

  lemma HeartbeatKeeps(p: RetryPolicy, s: State, h: LeaseHandle, now: int)
    requires p.Valid() && Inv(p, s)
    ensures Keeps(p, s, Heartbeat(p, s, h, now).0)
  {
    hide Inv, Keeps, CycleBudget;
    KeepsSelf(p, s);
    Admitted(p, s, h, now);
    if Admit(s, h, now).Ok? {
      var j, a, lease := s.jobs[h.workId], s.attempts[h.attemptId], s.jobs[h.workId].lease.value;
      var expiry := AddDuration(now, p.leaseDurationMs);
      if expiry.Err? {
        HolderStep(p, s, h.workId, j.(lease := Some(lease.(heartbeatAt := now))), a, false, LogRecord(s, h, Heartbeats, now));
        assert s.attempts[h.attemptId := a] == s.attempts;
      } else {
        HolderStep(p, s, h.workId, j.(lease := Some(lease.(heartbeatAt := now, expiresAt := expiry.value)), lastObservedAt := now),
                   a.(lastHeartbeatAt := now), true, LogRecord(s, h, Heartbeats, now));
      }
    }
  }

  lemma SucceedKeeps(p: RetryPolicy, s: State, h: LeaseHandle, resultRef: string, now: int)
    requires Inv(p, s)
    ensures Keeps(p, s, Succeed(s, h, resultRef, now).0)
  {
    hide Inv, Keeps, CycleBudget;
    KeepsSelf(p, s);
    Admitted(p, s, h, now);
    if !Blank(resultRef) && Admit(s, h, now).Ok? {
      var j, a := s.jobs[h.workId], s.attempts[h.attemptId];
      HolderStep(p, s, h.workId,
                 j.(state := JobSucceeded, stateChangedAt := now, lastObservedAt := now, lease := None, resultRef := Some(resultRef)),
                 a.(finishedAt := Some(now), outcome := Succeeded), true, LogRecord(s, h, Succeeds, now));
    }
  }

  lemma FinishFacts(p: RetryPolicy, s: State, id: string, failure: FailureCause, now: int,
                    actor: Actor, actorId: string, retried: AttemptOutcome)
    requires Inv(p, s) && HasAttempt(s, id) && retried != Active
    ensures var next := FinishFailure(p, s, id, failure, now, actor, actorId, retried).0;
      var j, j', aid := s.jobs[id], next.jobs[id], s.jobs[id].lease.value.handle.attemptId;
      JobOk(p, id, j') && JobGrew(j, j') && j'.totalAttempts == j.totalAttempts && j'.lease.None? &&
      aid in next.attempts && AttemptGrew(s.attempts[aid], next.attempts[aid]) && AttemptOk(j', aid, next.attempts[aid])
  {
    hide Inv, RetryAt, CycleBudget, Log;
    Facts(p, s, id);
  }

  lemma FinishKeeps(p: RetryPolicy, s: State, id: string, failure: FailureCause, now: int,
                    actor: Actor, actorId: string, retried: AttemptOutcome)
    requires Inv(p, s) && HasAttempt(s, id) && retried != Active
    ensures Keeps(p, s, FinishFailure(p, s, id, failure, now, actor, actorId, retried).0)
  {
    hide Inv, Keeps, CycleBudget;
    var aid := s.jobs[id].lease.value.handle.attemptId;
    FinishFacts(p, s, id, failure, now, actor, actorId, retried);
    var next := FinishFailure(p, s, id, failure, now, actor, actorId, retried);
    var retry := CanRetry(p, s.jobs[id], failure);
    var r := AuditRecord(|s.audit| + 1, if retry then RetryPlanned else DeadLetters, id, Some(aid), actor, actorId, now);
    hide JobOk, AttemptOk, JobGrew, AttemptGrew, CanRetry, RetryAt;
    HolderStep(p, s, id, next.0.jobs[id], next.0.attempts[aid], next.1.Jobs?, r);
  }

  lemma FailKeeps(p: RetryPolicy, s: State, h: LeaseHandle, failure: FailureCause, now: int)
    requires Inv(p, s)
    ensures Keeps(p, s, Fail(p, s, h, failure, now).0)
  {
    hide Inv, Keeps, CycleBudget;
    KeepsSelf(p, s);
    Admitted(p, s, h, now);
    if ValidFailure(failure) && Admit(s, h, now).Ok? {
      FinishKeeps(p, s, h.workId, failure, now, Worker, h.workerId, RetryScheduled);
    }
  }

  lemma ReclaimOneKeeps(p: RetryPolicy, s: State, id: string, now: int)
    requires Inv(p, s)
    ensures Keeps(p, s, ReclaimOne(p, s, id, now).0)
  {
    hide Inv, Grew;
    KeepsSelf(p, s);
    if LeaseIsOver(s, id, now) && s.jobs[id].lastObservedAt <= now && HasAttempt(s, id) {
      var aid := s.jobs[id].lease.value.handle.attemptId;
      var logged := s.(audit := Log(s.audit, LeaseLost, id, Some(aid), System, "lease-reaper", now));
      LogLeaseLost(p, s, id, now);
      FinishKeeps(p, logged, id, ExpiryCause, now, System, "lease-reaper", Expired);
      GrewTransitive(s, logged, ReclaimOne(p, s, id, now).0);
    }
  }

  lemma LogLeaseLost(p: RetryPolicy, s: State, id: string, now: int)
    requires Inv(p, s) && HasAttempt(s, id)
    ensures Keeps(p, s, s.(audit := Log(s.audit, LeaseLost, id, Some(s.jobs[id].lease.value.handle.attemptId), System, "lease-reaper", now)))
  {
    hide JobsOk, AttemptsOk, CheckpointsOk, IndexOk, AuditOk;
    LogOk(s.jobs, s.audit, AuditRecord(|s.audit| + 1, LeaseLost, id, Some(s.jobs[id].lease.value.handle.attemptId), System, "lease-reaper", now));
  }

  lemma {:induction false} ReclaimKeeps(p: RetryPolicy, s: State, order: seq<string>, now: int)
    requires Inv(p, s)
    ensures Keeps(p, s, ReclaimEach(p, s, order, now).0)
    decreases |order|
  {
    hide Inv, Grew;
    KeepsSelf(p, s);
    if order != [] {
      var one := ReclaimOne(p, s, order[0], now);
      ReclaimOneKeeps(p, s, order[0], now);
      if one.1.Jobs? {
        ReclaimKeeps(p, one.0, order[1..], now);
        GrewTransitive(s, one.0, ReclaimEach(p, one.0, order[1..], now).0);
      }
    }
  }

  lemma ReplayKeeps(p: RetryPolicy, s: State, id: string, operatorId: string, reasonCode: string, now: int)
    requires p.Valid() && Inv(p, s)
    ensures Keeps(p, s, Replay(s, id, operatorId, reasonCode, now).0)
  {
    hide Inv, Keeps, CycleBudget, IsAuditCode;
    KeepsSelf(p, s);
    var next := Replay(s, id, operatorId, reasonCode, now);
    if next.1.Jobs? {
      Facts(p, s, id);
      NextCycle(s.jobs[id].replayCycle, p.maximumAttemptsPerCycle);
      IdleStep(p, s, id, next.0.jobs[id], AuditRecord(|s.audit| + 1, Replayed, id, None, Operator, operatorId, now));
    }
  }

  lemma CancelKeeps(p: RetryPolicy, s: State, id: string, operatorId: string, reasonCode: string, now: int)
    requires Inv(p, s)
    ensures Keeps(p, s, Cancel(s, id, operatorId, reasonCode, now).0)
  {
    hide Inv, Keeps, CycleBudget, IsAuditCode;
    KeepsSelf(p, s);
    var next := Cancel(s, id, operatorId, reasonCode, now);
    if next.1.Jobs? {
      Facts(p, s, id);
      var j := s.jobs[id];
      if j.lease.Some? {
        var aid := j.lease.value.handle.attemptId;
        HolderStep(p, s, id, next.0.jobs[id], next.0.attempts[aid], true,
                   AuditRecord(|s.audit| + 1, Cancels, id, Some(aid), Operator, operatorId, now));
      } else {
        IdleStep(p, s, id, next.0.jobs[id], AuditRecord(|s.audit| + 1, Cancels, id, None, Operator, operatorId, now));
      }
    }
  }

  lemma ClaimKeeps(p: RetryPolicy, s: State, workerId: string, attemptId: string, now: int, pick: Option<string>)
    requires p.Valid() && Inv(p, s) && IsPick(s, now, pick)
    ensures Keeps(p, s, Claim(p, s, workerId, attemptId, now, pick).0)
  {
    hide JobsOk, AttemptsOk, CheckpointsOk, IndexOk, AuditOk, JobsGrew, CycleBudget;
    KeepsSelf(p, s);
    var next := Claim(p, s, workerId, attemptId, now, pick);
    if next.1.Granted? {
      var id := pick.value;
      Facts(p, s, id);
      TouchJobs(p, s.jobs, id, next.0.jobs[id]);
      AddAttempt(s.jobs, s.attempts, id, next.0.jobs[id], attemptId, next.0.attempts[attemptId]);
      KeepCheckpoints(s, next.0.jobs, next.0.attempts);
      TouchIndex(s.jobs, id, next.0.jobs[id], s.index, s.audit);
      LogOk(next.0.jobs, s.audit, AuditRecord(|s.audit| + 1, Claimed, id, Some(attemptId), Worker, workerId, now));
    }
  }

  lemma CheckpointKeeps(p: RetryPolicy, s: State, h: LeaseHandle, input: CheckpointInput, now: int)
    requires Inv(p, s)
    ensures Keeps(p, s, CompleteCheckpoint(s, h, input, now).0)
  {
    hide Inv, CycleBudget, Grew;
    KeepsSelf(p, s);
    Admitted(p, s, h, now);
    var next := CompleteCheckpoint(s, h, input, now).0;
    if next != s {
      var j, a := s.jobs[h.workId], s.attempts[h.attemptId];
      var t := s.(jobs := s.jobs[h.workId := j.(lastObservedAt := now)],
                  audit := s.audit + [LogRecord(s, h, CheckpointCompleted, now)]);
      HolderStep(p, s, h.workId, j.(lastObservedAt := now), a, true, LogRecord(s, h, CheckpointCompleted, now));
      assert s.attempts[h.attemptId := a] == s.attempts;
      var c := Checkpoint(input.sequence, input.name, input.outputRef, input.outputDigest, h.attemptId, now);
      hide Keeps, Admit, JobOk;
      AddCheckpoint(p, t, h.workId, c);
      GrewTransitive(s, t, next);
    }
  }

  /** The holder's checkpoint goes to the end of the line. */
  lemma AddCheckpoint(p: RetryPolicy, s: State, id: string, c: Checkpoint)
    requires Inv(p, s) && id in s.jobs && Holds(s.jobs[id], c.attemptId)
    requires Latest(s, id).Some? ==> Latest(s, id).value.sequence < c.sequence
    ensures Keeps(p, s, s.(checkpoints := s.checkpoints[id := CheckpointsOf(s, id) + [c]]))
  {
    hide JobsOk, AttemptsOk, IndexOk, AuditOk;
    Facts(p, s, id);
    LongerLine(p, s, id, c);
    hide LineOk;
  }

  lemma LongerLine(p: RetryPolicy, s: State, id: string, c: Checkpoint)
    requires Inv(p, s) && id in s.jobs && Holds(s.jobs[id], c.attemptId)
    requires Latest(s, id).Some? ==> Latest(s, id).value.sequence < c.sequence
    ensures LineOk(s.attempts, id, CheckpointsOf(s, id) + [c])
  {
    Facts(p, s, id);
    var line := CheckpointsOf(s, id);
    assert LineOk(s.attempts, id, line) by { LineIsOk(p, s, id); }
    hide Inv, JobOk;
    forall i | 0 <= i < |line|
      ensures line[i].attemptId in s.attempts && s.attempts[line[i].attemptId].fencingToken <= s.attempts[c.attemptId].fencingToken
    {
      assert CheckpointOk(s.attempts, id, line[i]);
      TokenAtMost(p, s, id, line[i].attemptId);
    }
    PushLine(s.attempts, id, line, c);
  }

  lemma LineIsOk(p: RetryPolicy, s: State, id: string)
    requires Inv(p, s)
    ensures LineOk(s.attempts, id, CheckpointsOf(s, id))
  {
    hide JobsOk, AttemptsOk, IndexOk, AuditOk;
  }

  lemma PushLine(attempts: AttemptMap, id: string, line: seq<Checkpoint>, c: Checkpoint)
    requires LineOk(attempts, id, line) && CheckpointOk(attempts, id, c)
    requires line != [] ==> line[|line| - 1].sequence < c.sequence
    requires forall i :: 0 <= i < |line| ==> line[i].attemptId in attempts && attempts[line[i].attemptId].fencingToken <= attempts[c.attemptId].fencingToken
    ensures LineOk(attempts, id, line + [c])
  {
    var all := line + [c];
    forall i, k | 0 <= i < k < |all|
      ensures all[i].attemptId in attempts && all[k].attemptId in attempts
      ensures all[i].sequence < all[k].sequence && attempts[all[i].attemptId].fencingToken <= attempts[all[k].attemptId].fencingToken
    {
      assert CheckpointOk(attempts, id, line[i]) && CheckpointOk(attempts, id, line[|line| - 1]);
      if k < |line| { assert CheckpointOk(attempts, id, line[k]); }
    }
  }

  lemma TokenAtMost(p: RetryPolicy, s: State, id: string, a: string)
    requires Inv(p, s) && a in s.attempts && s.attempts[a].workId == id
    ensures id in s.jobs && s.attempts[a].fencingToken <= s.jobs[id].totalAttempts
    ensures s.jobs[id].lease.Some? ==> s.jobs[id].lease.value.handle.fencingToken == s.jobs[id].totalAttempts
  {
    hide CheckpointsOk, IndexOk, AuditOk, CountsOk, TokensDiffer, LeasesMatch;
    assert AttemptOk(s.jobs[id], a, s.attempts[a]);
    assert JobOk(p, id, s.jobs[id]);
  }

  lemma EnqueueKeeps(p: RetryPolicy, s: State, input: EnqueueInput)
    requires p.Valid() && Inv(p, s)
    ensures Keeps(p, s, Enqueue(s, input).0)
  {
    hide Scope, CycleBudget, JobsOk, AttemptsOk, CheckpointsOk, IndexOk, AuditOk, JobsGrew;
    KeepsSelf(p, s);
    var next := Enqueue(s, input).0;
    if next != s {
      var j := NewJob(input);
      NewJobOk(p, input);
      AddJob(p, s, j);
      KeepCheckpoints(s, next.jobs, s.attempts);
      LogOk(next.jobs, s.audit, AuditRecord(|s.audit| + 1, Enqueued, j.id, None, System, "job-enqueue", input.now));
    }
  }

  lemma NewJobOk(p: RetryPolicy, input: EnqueueInput)
    requires p.Valid()
    ensures JobOk(p, input.id, NewJob(input))
  {
    assert CycleBudget(0, p.maximumAttemptsPerCycle) == 0;
  }

  lemma AddJob(p: RetryPolicy, s: State, j: Job)
    requires Inv(p, s) && j.id !in s.jobs && ScopeOf(j) !in s.index && JobOk(p, j.id, j) && j.totalAttempts == 0 && j.lease.None?
    ensures JobsOk(p, s.jobs[j.id := j]) && JobsGrew(s.jobs, s.jobs[j.id := j]) && AttemptsOk(s.jobs[j.id := j], s.attempts)
    ensures IndexOk(s.jobs[j.id := j], s.index[ScopeOf(j) := j.id]) && AuditOk(s.jobs[j.id := j], s.audit)
  {
    hide Scope, CheckpointsOk, JobOk, AttemptsOk;
    NewHasNoAttempts(s.jobs, s.attempts, j);
  }

  lemma NewHasNoAttempts(jobs: JobMap, attempts: AttemptMap, j: Job)
    requires AttemptsOk(jobs, attempts) && j.id !in jobs && j.totalAttempts == 0 && j.lease.None?
    ensures AttemptsOk(jobs[j.id := j], attempts)
  {
    hide AttemptOk;
    assert AttemptsOf(attempts, j.id) == {};
    hide AttemptsOf;
  }
}
