/** Database time in the Job model: when a rejected call leaves a trace, when a claim can meet a time
    regression, and what the lease reaper leaves behind. Both faults need `databaseNow` plus the
    lease or the backoff to exceed 2^53 - 1. */
module JobsTime {
  import opened Texts
  import opened DurableWork
  import opened Jobs
  import opened JobsInvariants
  import opened JobsRuns

  /** A retry that cannot be scheduled: the retry time leaves the safe integers. */
  predicate Overflows(p: RetryPolicy, e: Job, failure: FailureCause, now: int)
  {
    CanRetry(p, e, failure) && RetryAt(now, e.attemptsInCycle, p).Err?
  }

  /** The reaper meets an expired lease whose retry cannot be scheduled. */
  ghost predicate ReaperOverflows(p: RetryPolicy, s: State, now: int)
  {
    exists id :: LeaseIsOver(s, id, now) && Overflows(p, s.jobs[id], ExpiryCause, now)
  }

  /** A caller can read from the state and its arguments that the call will fail half way. */
  ghost predicate Leaks(p: RetryPolicy, s: State, c: Command)
  {
    match c
    case DoHeartbeat(h, now) =>
      Admit(s, h, now).Ok? && AddDuration(now, p.leaseDurationMs).Err? &&
      s.jobs[h.workId].lease.value.heartbeatAt != now
    case DoFail(h, failure, now) =>
      ValidFailure(failure) && Admit(s, h, now).Ok? && Overflows(p, s.jobs[h.workId], failure, now)
    case DoReclaim(_, now) => IsTime(now) && ReaperOverflows(p, s, now)
    case _ => false
  }

  // ---------------------------------------------------------------- the reaper

  /** Job `e` under an expired lease, and what one turn of the reaper makes of it. */
  predicate Reaped(p: RetryPolicy, e: Job, now: int, e': Job, r: Reply)
  {
    e'.lease.None? && e'.lastObservedAt == now && (e'.state == RetryWait || e'.state == DeadLetter) &&
    if Overflows(p, e, ExpiryCause, now)
    then r == Rejected(InvalidArgument) && e'.state == RetryWait && e'.availableAt < now
    else r.Jobs? && (e'.state == RetryWait ==> now < e'.availableAt)
  }

  lemma FinishReaps(p: RetryPolicy, s: State, id: string, now: int)
    requires p.Valid() && HasAttempt(s, id) && s.jobs[id].availableAt < now
    ensures var (t, r) := FinishFailure(p, s, id, ExpiryCause, now, System, "lease-reaper", Expired);
      t.jobs.Keys == s.jobs.Keys && (forall x :: x in s.jobs && x != id ==> t.jobs[x] == s.jobs[x]) &&
      |t.audit| >= |s.audit| && Reaped(p, s.jobs[id], now, t.jobs[id], r)
  {
    RetryAtIsLater(now, s.jobs[id].attemptsInCycle, p);
    hide RetryAt;
  }

  lemma ReclaimOneOutcome(p: RetryPolicy, s: State, id: string, now: int)
    requires p.Valid() && Inv(p, s)
    ensures var (t, r) := ReclaimOne(p, s, id, now);
      t.jobs.Keys == s.jobs.Keys && (forall x :: x in s.jobs && x != id ==> t.jobs[x] == s.jobs[x]) &&
      (!LeaseIsOver(s, id, now) ==> t == s && r == Jobs([])) &&
      (LeaseIsOver(s, id, now) ==>
         |t.audit| > |s.audit| && Reaped(p, s.jobs[id], now, t.jobs[id], r) && t.jobs[id].lease.None? &&
         (r.Jobs? <==> !Overflows(p, s.jobs[id], ExpiryCause, now)) && (r.Jobs? || r == Rejected(InvalidArgument)))
  {
    hide Inv, FinishFailure;
    if LeaseIsOver(s, id, now) {
      Facts(p, s, id);
      var aid := s.jobs[id].lease.value.handle.attemptId;
      var logged := s.(audit := Log(s.audit, LeaseLost, id, Some(aid), System, "lease-reaper", now));
      FinishReaps(p, logged, id, now);
    }
  }

  /** No expired lease of `order` stops the reaper. */
  ghost predicate Clear(p: RetryPolicy, s: State, order: seq<string>, now: int)
  {
    forall id :: id in order && LeaseIsOver(s, id, now) ==> !Overflows(p, s.jobs[id], ExpiryCause, now)
  }

  ghost predicate NoneOver(s: State, order: seq<string>, now: int)
  {
    forall id :: id in order ==> !LeaseIsOver(s, id, now)
  }

  lemma ClearStep(p: RetryPolicy, s: State, t: State, order: seq<string>, now: int)
    requires order != [] && NoRepeats(order) && t.jobs.Keys == s.jobs.Keys
    requires forall x :: x in s.jobs && x != order[0] ==> t.jobs[x] == s.jobs[x]
    ensures order[0] !in order[1..] && NoRepeats(order[1..])
    ensures Clear(p, s, order, now) <==>
      Clear(p, t, order[1..], now) && (LeaseIsOver(s, order[0], now) ==> !Overflows(p, s.jobs[order[0]], ExpiryCause, now))
  {
    hide Overflows;
    assert order == [order[0]] + order[1..];
    assert order[0] !in order[1..];
    forall id | id in order[1..]
      ensures LeaseIsOver(s, id, now) <==> LeaseIsOver(t, id, now)
      ensures LeaseIsOver(s, id, now) ==> t.jobs[id] == s.jobs[id]
    {
    }
  }

  /** The reaper worked through `order` from `s` to `t` and answered `r`. */
  ghost predicate Outcome(p: RetryPolicy, s: State, order: seq<string>, now: int, t: State, r: Reply)
  {
    (r.Jobs? || r == Rejected(InvalidArgument)) && (r.Jobs? <==> Clear(p, s, order, now)) &&
    (r.Jobs? ==> NoneOver(t, order, now)) && (r.Rejected? ==> |t.audit| > |s.audit|) && |t.audit| >= |s.audit| &&
    SameOutside(s, t, order)
  }

  ghost predicate SameOutside(s: State, t: State, order: seq<string>)
  {
    t.jobs.Keys == s.jobs.Keys && forall x :: x in s.jobs && x !in order ==> t.jobs[x] == s.jobs[x]
  }

  lemma SameOutsideStep(s: State, t: State, u: State, order: seq<string>)
    requires order != [] && t.jobs.Keys == s.jobs.Keys
    requires forall x :: x in s.jobs && x != order[0] ==> t.jobs[x] == s.jobs[x]
    requires u == t || SameOutside(t, u, order[1..])
    ensures SameOutside(s, u, order)
  {
    assert order == [order[0]] + order[1..];
  }

  lemma ReclaimUnfold(p: RetryPolicy, s: State, order: seq<string>, now: int)
    requires order != []
    ensures var one := ReclaimOne(p, s, order[0], now);
      ReclaimEach(p, s, order, now) ==
      if !one.1.Jobs? then one
      else
        var rest := ReclaimEach(p, one.0, order[1..], now);
        (rest.0, if rest.1.Jobs? then Jobs(one.1.jobs + rest.1.jobs) else rest.1)
  {
    hide ReclaimOne;
  }

  /** What one turn does to the job at the head of the order. */
  ghost predicate Turn(p: RetryPolicy, s: State, id: string, now: int, t: State, r: Reply)
  {
    t.jobs.Keys == s.jobs.Keys && (forall x :: x in s.jobs && x != id ==> t.jobs[x] == s.jobs[x]) &&
    (!LeaseIsOver(s, id, now) ==> t == s && r == Jobs([])) &&
    (LeaseIsOver(s, id, now) ==>
       |t.audit| > |s.audit| && t.jobs[id].lease.None? && (r.Jobs? <==> !Overflows(p, s.jobs[id], ExpiryCause, now)) &&
       (r.Jobs? || r == Rejected(InvalidArgument)))
  }

  lemma TurnHappens(p: RetryPolicy, s: State, id: string, now: int)
    requires p.Valid() && Inv(p, s)
    ensures Turn(p, s, id, now, ReclaimOne(p, s, id, now).0, ReclaimOne(p, s, id, now).1)
  {
    hide Inv, ReclaimOne, Reaped, Overflows;
    ReclaimOneOutcome(p, s, id, now);
  }

  lemma StoppedAt(p: RetryPolicy, s: State, order: seq<string>, now: int, t: State, r: Reply)
    requires order != [] && NoRepeats(order) && Turn(p, s, order[0], now, t, r) && !r.Jobs?
    ensures Outcome(p, s, order, now, t, r)
  {
    hide Clear, Overflows, SameOutside, NoneOver, NoRepeats, LeaseIsOver;
    ClearStep(p, s, t, order, now);
    SameOutsideStep(s, t, t, order);
  }

  lemma WentOn(p: RetryPolicy, s: State, order: seq<string>, now: int, t: State, r: Reply, u: State, rest: Reply, all: Reply)
    requires order != [] && NoRepeats(order) && Turn(p, s, order[0], now, t, r) && r.Jobs? && Outcome(p, t, order[1..], now, u, rest)
    requires if rest.Jobs? then all.Jobs? else all == rest
    ensures Outcome(p, s, order, now, u, all)
  {
    hide Clear, Overflows, SameOutside, NoneOver, NoRepeats, LeaseIsOver;
    ClearStep(p, s, t, order, now);
    SameOutsideStep(s, t, u, order);
    HeadNotOver(t, u, order, now);
  }

  lemma NothingToReap(p: RetryPolicy, s: State, now: int)
    ensures Outcome(p, s, [], now, s, Jobs([]))
  {
  }

  /** The reaper works through `order` unless a retry overflows; if it finishes, no lease it saw
      is still expired. It never meets a time regression. */
  lemma {:induction false} ReclaimOutcome(p: RetryPolicy, s: State, order: seq<string>, now: int)
    requires p.Valid() && Inv(p, s) && NoRepeats(order)
    ensures Outcome(p, s, order, now, ReclaimEach(p, s, order, now).0, ReclaimEach(p, s, order, now).1)
    decreases |order|
  {
    hide Inv, Grew, ReclaimOne, Outcome, Turn;
    if order == [] {
      NothingToReap(p, s, now);
    } else {
      ReclaimUnfold(p, s, order, now);
      hide ReclaimEach;
      var one := ReclaimOne(p, s, order[0], now);
      TurnHappens(p, s, order[0], now);
      ReclaimOneKeeps(p, s, order[0], now);
      if one.1.Jobs? {
        var rest := ReclaimEach(p, one.0, order[1..], now);
        ReclaimOutcome(p, one.0, order[1..], now);
        WentOn(p, s, order, now, one.0, one.1, rest.0, rest.1, ReclaimEach(p, s, order, now).1);
      } else {
        StoppedAt(p, s, order, now, one.0, one.1);
      }
    }
  }

  lemma HeadNotOver(s: State, t: State, order: seq<string>, now: int)
    requires order != [] && order[0] !in order[1..] && SameOutside(s, t, order[1..])
    requires LeaseIsOver(s, order[0], now) ==> s.jobs[order[0]].lease.None?
    ensures NoneOver(t, order[1..], now) ==> NoneOver(t, order, now)
  {
    assert order == [order[0]] + order[1..];
    assert !LeaseIsOver(t, order[0], now);
  }

  lemma ReapOrderFacts(s: State, order: seq<string>)
    requires IsReapOrder(s, order)
    ensures NoRepeats(order)
  {
    forall i, j | 0 <= i < j < |order|
      ensures order[i] != order[j]
    {
      ClaimedFirstOrder(s.jobs[order[i]], s.jobs[order[j]]);
    }
  }

  /** `compareJobs` is a strict order, total on jobs with different ids. */
  lemma ClaimedFirstOrder(a: Job, b: Job)
    ensures !(ClaimedFirst(a, b) && ClaimedFirst(b, a))
    ensures a.id != b.id ==> ClaimedFirst(a, b) || ClaimedFirst(b, a)
  {
    LessTotal(a.id, b.id);
    hide Less;
  }

  /** The claim has one answer, whatever order the jobs are stored in. */
  lemma PickIsUnique(p: RetryPolicy, s: State, now: int, x: Option<string>, y: Option<string>)
    requires Inv(p, s) && IsPick(s, now, x) && IsPick(s, now, y)
    ensures x == y
  {
    hide Inv, ClaimedFirst;
    if x.Some? && y.Some? {
      Facts(p, s, x.value);
      Facts(p, s, y.value);
      ClaimedFirstOrder(s.jobs[x.value], s.jobs[y.value]); }
  }

  /** When the reaper succeeds at `now`, no lease that expires at or before `now` is left; it is
      rejected exactly when a retry would overflow, and never for a time regression. */
  lemma ReapedClean(p: RetryPolicy, s: State, order: seq<string>, now: int)
    requires p.Valid() && Inv(p, s) && IsReapOrder(s, order) && IsTime(now)
    ensures var (t, r) := Reclaim(p, s, order, now);
      (r.Jobs? || r == Rejected(InvalidArgument)) && (r.Rejected? <==> ReaperOverflows(p, s, now)) &&
      (r.Jobs? ==> forall id :: id in t.jobs && t.jobs[id].lease.Some? && t.jobs[id].state == Running ==>
                       now < t.jobs[id].lease.value.expiresAt)
  {
    ReapOrderFacts(s, order);
    ReclaimOutcome(p, s, order, now);
    hide Inv, Overflows, ReclaimEach;
    var (t, r) := Reclaim(p, s, order, now);
    if r.Jobs? {
      forall id | id in t.jobs && t.jobs[id].lease.Some? && t.jobs[id].state == Running
        ensures now < t.jobs[id].lease.value.expiresAt
      {
        assert id in s.jobs && id in order;
        assert !LeaseIsOver(t, id, now);
      }
    }
  }

  /** A rejected call leaves the state exactly as it was unless it leaks, and a leaking call
      always changes it. */
  lemma RejectedChangesNothing(p: RetryPolicy, s: State, c: Command)
    requires p.Valid() && Inv(p, s) && Enabled(s, c) && Step(p, s, c).1.Rejected?
    ensures Step(p, s, c).0 == s <==> !Leaks(p, s, c)
  {
    hide Inv, Enqueue, Claim, Heartbeat, CompleteCheckpoint, Succeed, Fail, Reclaim, Replay, Cancel, Admit, ReaperOverflows, IsReapOrder;
    match c
    case DoHeartbeat(h, now) => HeartbeatLeak(p, s, h, now);
    case DoFail(h, failure, now) => FailLeak(p, s, h, failure, now);
    case DoReclaim(order, now) => ReclaimLeak(p, s, order, now);
    case DoEnqueue(input) => EnqueueClean(s, input);
    case DoClaim(workerId, attemptId, now, pick) => ClaimClean(p, s, workerId, attemptId, now, pick);
    case DoCheckpoint(h, input, now) => HolderClean(s, h, input, "", now);
    case DoSucceed(h, resultRef, now) => HolderClean(s, h, CheckpointInput(0, "", "", ""), resultRef, now);
    case DoReplay(id, operatorId, reasonCode, now) => OperatorClean(s, id, operatorId, reasonCode, now);
    case DoCancel(id, operatorId, reasonCode, now) => OperatorClean(s, id, operatorId, reasonCode, now);
  }

  lemma ReclaimLeak(p: RetryPolicy, s: State, order: seq<string>, now: int)
    requires p.Valid() && Inv(p, s) && IsReapOrder(s, order) && Reclaim(p, s, order, now).1.Rejected?
    ensures Reclaim(p, s, order, now).0 == s <==> !(IsTime(now) && ReaperOverflows(p, s, now))
  {
    hide Inv, Overflows, ReclaimEach, IsReapOrder, Clear, NoneOver, SameOutside, ReaperOverflows;
    if IsTime(now) {
      ReapedClean(p, s, order, now);
      ReapOrderFacts(s, order);
      ReclaimOutcome(p, s, order, now);
    }
  }

  lemma EnqueueClean(s: State, input: EnqueueInput)
    ensures Enqueue(s, input).1.Rejected? ==> Enqueue(s, input).0 == s
  {
    hide Scope;
  }

  lemma ClaimClean(p: RetryPolicy, s: State, workerId: string, attemptId: string, now: int, pick: Option<string>)
    ensures var r := Claim(p, s, workerId, attemptId, now, pick); r.1.Rejected? ==> r.0 == s
  {
  }

  lemma HolderClean(s: State, h: LeaseHandle, input: CheckpointInput, resultRef: string, now: int)
    ensures var r := CompleteCheckpoint(s, h, input, now); r.1.Rejected? ==> r.0 == s
    ensures var r := Succeed(s, h, resultRef, now); r.1.Rejected? ==> r.0 == s
  {
    hide CheckLease;
  }

  lemma OperatorClean(s: State, id: string, operatorId: string, reasonCode: string, now: int)
    ensures var r := Replay(s, id, operatorId, reasonCode, now); r.1.Rejected? ==> r.0 == s
    ensures var r := Cancel(s, id, operatorId, reasonCode, now); r.1.Rejected? ==> r.0 == s
  {
    hide IsAuditCode;
  }

  lemma HeartbeatLeak(p: RetryPolicy, s: State, h: LeaseHandle, now: int)
    requires Inv(p, s) && Heartbeat(p, s, h, now).1.Rejected?
    ensures Heartbeat(p, s, h, now).0 == s <==> !Leaks(p, s, DoHeartbeat(h, now))
  {
    hide Inv;
    Admitted(p, s, h, now);
    if Admit(s, h, now).Ok? && AddDuration(now, p.leaseDurationMs).Err? {
      var e := s.jobs[h.workId];
      var t := Heartbeat(p, s, h, now).0;
      hide CheckLease, Admit, AddDuration;
      assert t.jobs[h.workId] == e.(lease := Some(e.lease.value.(heartbeatAt := now)));
      if e.lease.value.heartbeatAt == now {
        assert t.jobs == s.jobs;
      }
    }
  }

  lemma FailLeak(p: RetryPolicy, s: State, h: LeaseHandle, failure: FailureCause, now: int)
    requires Inv(p, s) && Fail(p, s, h, failure, now).1.Rejected?
    ensures Fail(p, s, h, failure, now).0 == s <==> !Leaks(p, s, DoFail(h, failure, now))
  {
    hide Inv, RetryAt;
    Admitted(p, s, h, now);
    if ValidFailure(failure) && Admit(s, h, now).Ok? {
      assert Fail(p, s, h, failure, now).0.jobs[h.workId].lease.None?;
    }
  }

  // ---------------------------------------------------------------- time regressions

  /** A waiting job was last observed no later than it becomes available. */
  ghost predicate TimeOk(jobs: JobMap)
  {
    forall id :: id in jobs && (jobs[id].state == Queued || jobs[id].state == RetryWait) ==>
      jobs[id].lastObservedAt <= jobs[id].availableAt
  }

  /** The call leaves a job waiting with an availability in the past of its last observation. */
  ghost predicate LeavesStaleTime(p: RetryPolicy, s: State, c: Command)
  {
    match c
    case DoFail(h, failure, now) => Leaks(p, s, c) && s.jobs[h.workId].availableAt < now
    case DoReclaim(_, _) => Leaks(p, s, c)
    case _ => false
  }

  lemma ReclaimOneTime(p: RetryPolicy, s: State, id: string, now: int)
    requires p.Valid() && Inv(p, s) && TimeOk(s.jobs)
    ensures TimeOk(ReclaimOne(p, s, id, now).0.jobs) <==> ReclaimOne(p, s, id, now).1.Jobs?
  {
    hide Inv, ReclaimOne, Overflows;
    ReclaimOneOutcome(p, s, id, now);
    if LeaseIsOver(s, id, now) {
      var (t, r) := ReclaimOne(p, s, id, now);
      assert Reaped(p, s.jobs[id], now, t.jobs[id], r) && id in t.jobs;
      if r.Jobs? { assert TimeOk(t.jobs); }
    }
  }

  lemma {:induction false} ReclaimTime(p: RetryPolicy, s: State, order: seq<string>, now: int)
    requires p.Valid() && Inv(p, s) && TimeOk(s.jobs)
    ensures TimeOk(ReclaimEach(p, s, order, now).0.jobs) <==> ReclaimEach(p, s, order, now).1.Jobs?
    decreases |order|
  {
    if order != [] {
      ReclaimUnfold(p, s, order, now);
      hide Inv, Grew, ReclaimEach, ReclaimOne, TimeOk;
      var one := ReclaimOne(p, s, order[0], now);
      ReclaimOneTime(p, s, order[0], now);
      ReclaimOneKeeps(p, s, order[0], now);
      if one.1.Jobs? {
        ReclaimTime(p, one.0, order[1..], now);
      }
    }
  }

  lemma FailTime(p: RetryPolicy, s: State, h: LeaseHandle, failure: FailureCause, now: int)
    requires p.Valid() && Inv(p, s) && TimeOk(s.jobs)
    ensures TimeOk(Fail(p, s, h, failure, now).0.jobs) <==> !LeavesStaleTime(p, s, DoFail(h, failure, now))
  {
    hide Inv, RetryAt;
    Admitted(p, s, h, now);
    if ValidFailure(failure) && Admit(s, h, now).Ok? {
      RetryAtIsLater(now, s.jobs[h.workId].attemptsInCycle, p);
      var t := Fail(p, s, h, failure, now).0;
      var e' := t.jobs[h.workId];
      hide FinishFailure, Admit;
      assert t.jobs == s.jobs[h.workId := e'];
    }
  }

  /** A call keeps the time invariant exactly when it does not leave a stale time. */
  lemma TimeStep(p: RetryPolicy, s: State, c: Command)
    requires p.Valid() && Inv(p, s) && Enabled(s, c) && TimeOk(s.jobs)
    ensures TimeOk(Step(p, s, c).0.jobs) <==> !LeavesStaleTime(p, s, c)
  {
    hide Inv, Enqueue, Claim, Heartbeat, CompleteCheckpoint, Succeed, Fail, ReclaimEach, Replay, Cancel;
    hide ReaperOverflows, TimeOk, IsReapOrder;
    match c
    case DoEnqueue(input) => EnqueueTime(s, input);
    case DoFail(h, failure, now) => FailTime(p, s, h, failure, now);
    case DoReclaim(order, now) =>
      if IsTime(now) {
        ReclaimTime(p, s, order, now);
        ReapedClean(p, s, order, now);
      }
    case DoClaim(workerId, attemptId, now, pick) => ClaimTime(p, s, workerId, attemptId, now, pick);
    case DoReplay(id, operatorId, reasonCode, now) => ReplayTime(s, id, operatorId, reasonCode, now);
    case DoHeartbeat(h, now) => HeartbeatTime(p, s, h, now);
    case DoCheckpoint(h, input, now) => CheckpointTime(s, h, input, now);
    case DoSucceed(h, resultRef, now) => SucceedTime(s, h, resultRef, now);
    case DoCancel(id, operatorId, reasonCode, now) => CancelTime(s, id, operatorId, reasonCode, now);
  }

  lemma TouchTime(jobs: JobMap, id: string, e': Job)
    requires TimeOk(jobs) && (e'.state == Queued || e'.state == RetryWait ==> e'.lastObservedAt <= e'.availableAt)
    ensures TimeOk(jobs[id := e'])
  {
  }

  lemma EnqueueTime(s: State, input: EnqueueInput)
    requires TimeOk(s.jobs)
    ensures TimeOk(Enqueue(s, input).0.jobs)
  {
    hide TimeOk, Scope;
    var next := Enqueue(s, input).0;
    if next != s { TouchTime(s.jobs, input.id, NewJob(input)); }
  }

  lemma ClaimTime(p: RetryPolicy, s: State, workerId: string, attemptId: string, now: int, pick: Option<string>)
    requires TimeOk(s.jobs)
    ensures TimeOk(Claim(p, s, workerId, attemptId, now, pick).0.jobs)
  {
    hide TimeOk;
    var r := Claim(p, s, workerId, attemptId, now, pick);
    if r.1.Granted? { TouchTime(s.jobs, pick.value, r.1.job); }
  }

  lemma ReplayTime(s: State, id: string, operatorId: string, reasonCode: string, now: int)
    requires TimeOk(s.jobs)
    ensures TimeOk(Replay(s, id, operatorId, reasonCode, now).0.jobs)
  {
    hide TimeOk;
    var r := Replay(s, id, operatorId, reasonCode, now);
    if r.1.Jobs? { TouchTime(s.jobs, id, r.1.jobs[0]); }
  }

  lemma HeartbeatTime(p: RetryPolicy, s: State, h: LeaseHandle, now: int)
    requires TimeOk(s.jobs)
    ensures TimeOk(Heartbeat(p, s, h, now).0.jobs)
  {
    hide TimeOk, CheckLease;
    var r := Heartbeat(p, s, h, now);
    if h.workId in s.jobs && s.jobs[h.workId].state == Running { TouchTime(s.jobs, h.workId, r.0.jobs[h.workId]); }
  }

  lemma CheckpointTime(s: State, h: LeaseHandle, input: CheckpointInput, now: int)
    requires TimeOk(s.jobs)
    ensures TimeOk(CompleteCheckpoint(s, h, input, now).0.jobs)
  {
    hide TimeOk, CheckLease, ValidCheckpoint;
    var next := CompleteCheckpoint(s, h, input, now).0;
    if next != s { TouchTime(s.jobs, h.workId, next.jobs[h.workId]); }
  }

  lemma SucceedTime(s: State, h: LeaseHandle, resultRef: string, now: int)
    requires TimeOk(s.jobs)
    ensures TimeOk(Succeed(s, h, resultRef, now).0.jobs)
  {
    hide TimeOk, CheckLease;
    var r := Succeed(s, h, resultRef, now);
    if r.1.Jobs? { TouchTime(s.jobs, h.workId, r.1.jobs[0]); }
  }

  lemma CancelTime(s: State, id: string, operatorId: string, reasonCode: string, now: int)
    requires TimeOk(s.jobs)
    ensures TimeOk(Cancel(s, id, operatorId, reasonCode, now).0.jobs)
  {
    hide TimeOk, IsAuditCode;
    var r := Cancel(s, id, operatorId, reasonCode, now);
    if r.1.Jobs? { TouchTime(s.jobs, id, r.1.jobs[0]); }
  }

  /** While no call has left a stale time, no claim meets a time regression, even if database time
      itself goes backwards between calls. */
  lemma {:induction false} ClaimNeverRegresses(p: RetryPolicy, commands: seq<Command>, states: seq<State>, i: nat)
    requires p.Valid() && IsRun(p, commands, states) && i < |states|
    requires forall k :: 0 <= k < i ==> !LeavesStaleTime(p, states[k], commands[k])
    ensures TimeOk(states[i].jobs)
    ensures forall workerId, attemptId, now, pick :: IsPick(states[i], now, pick) ==>
      Claim(p, states[i], workerId, attemptId, now, pick).1 != Rejected(DatabaseTimeRegression)
  {
    hide Inv, Step, LeavesStaleTime, Enabled;
    if i > 0 {
      ClaimNeverRegresses(p, commands, states, i - 1);
      EveryStateOk(p, commands, states, i - 1);
      TimeStep(p, states[i - 1], commands[i - 1]);
      assert states[i] == Step(p, states[i - 1], commands[i - 1]).0;
    }
    forall workerId, attemptId, now, pick | IsPick(states[i], now, pick)
      ensures Claim(p, states[i], workerId, attemptId, now, pick).1 != Rejected(DatabaseTimeRegression)
    {
      hide IsRun;
      if pick.Some? { assert Claimable(states[i], pick.value, now); }
    }
  }

  /** Keeping `databaseNow` plus the longest backoff in the safe range is enough. */
  lemma SafeTimesDoNotLeak(p: RetryPolicy, s: State, c: Command)
    requires p.Valid() && Inv(p, s)
    requires c.DoFail? || c.DoReclaim? ==> c.now + p.maximumBackoffMs <= MAX_SAFE_INTEGER
    ensures !LeavesStaleTime(p, s, c)
  {
    hide AttemptsOk, CheckpointsOk, IndexOk, AuditOk;
    match c
    case DoFail(h, failure, now) =>
      Admitted(p, s, h, now);
      if Admit(s, h, now).Ok? {
        BackoffBounds(s.jobs[h.workId].attemptsInCycle, p);
      }
    case DoReclaim(order, now) =>
      forall id | IsTime(now) && LeaseIsOver(s, id, now)
        ensures !Overflows(p, s.jobs[id], ExpiryCause, now)
      {
        assert JobOk(p, id, s.jobs[id]);
        BackoffBounds(s.jobs[id].attemptsInCycle, p);
      }
    case _ =>
  }

  // A run in which the retry of job "j" overflows.

  const OnlyInput := EnqueueInput("j", "p", "t", "k", "d", "c", 0, None, None)
  const OnlyHandle := LeaseHandle(JobWork, "j", "a", "w", 1)

  lemma AfterEnqueue(s: State)
    requires s == Enqueue(Empty, OnlyInput).0
    ensures s.jobs == map["j" := NewJob(OnlyInput)] && s.attempts == map[]
  {
    LetterNotBlank("j"); LetterNotBlank("p"); LetterNotBlank("t"); LetterNotBlank("k"); LetterNotBlank("d"); LetterNotBlank("c");
    hide Blank, Scope;
  }

  lemma OnlyPick(s: State, now: int)
    requires s.jobs.Keys == {"j"} && s.jobs["j"].state in {Queued, RetryWait} && s.jobs["j"].availableAt <= now
    ensures IsPick(s, now, Some("j"))
  {
    assert Claimable(s, "j", now);
  }

  lemma AfterClaim(s: State, t: State)
    requires s.jobs == map["j" := NewJob(OnlyInput)] && s.attempts == map[]
    requires t == Claim(WidePolicy, s, "w", "a", 0, Some("j")).0
    ensures HasAttempt(t, "j") && t.jobs.Keys == {"j"} && t.jobs["j"].id == "j" && t.jobs["j"].state == Running
    ensures t.jobs["j"].lease == Some(ActiveLease(OnlyHandle, 0, 0, MAX_SAFE_INTEGER))
    ensures t.jobs["j"].availableAt == t.jobs["j"].lastObservedAt == 0 && t.jobs["j"].attemptsInCycle == 1 && t.attempts.Keys == {"a"}
  {
    LetterNotBlank("w");
    LetterNotBlank("a");
    hide Blank, Latest;
  }

  lemma AfterFailure(s: State, t: State)
    requires HasAttempt(s, "j") && s.jobs.Keys == {"j"} && s.jobs["j"].id == "j" && s.jobs["j"].state == Running
    requires s.jobs["j"].lease == Some(ActiveLease(OnlyHandle, 0, 0, MAX_SAFE_INTEGER))
    requires s.jobs["j"].availableAt == s.jobs["j"].lastObservedAt == 0 && s.jobs["j"].attemptsInCycle == 1
    requires t == Fail(WidePolicy, s, OnlyHandle, OnlyFailure, LateTime).0
    ensures t.jobs.Keys == {"j"} && t.jobs["j"].state == RetryWait && t.jobs["j"].availableAt == 0
    ensures t.jobs["j"].lastObservedAt == LateTime && t.attempts.Keys == s.attempts.Keys
  {
    LetterNotBlank("F");
    LetterNotBlank("f");
    hide Blank;
    assert Admit(s, OnlyHandle, LateTime).Ok?;
    assert Pow2(0) == 1;
    assert RetryAt(LateTime, 1, WidePolicy).Err?;
  }

  /** Without that bound a claim can fail on a job whose retry overflowed. */
  lemma ClaimCanRegress() returns (commands: seq<Command>, states: seq<State>)
    ensures WidePolicy.Valid() && IsRun(WidePolicy, commands, states) && IsPick(states[|states| - 1], 1, Some("j"))
    ensures Claim(WidePolicy, states[|states| - 1], "w", "b", 1, Some("j")).1 == Rejected(DatabaseTimeRegression)
  {
    commands := [DoEnqueue(OnlyInput), DoClaim("w", "a", 0, Some("j")), DoFail(OnlyHandle, OnlyFailure, LateTime)];
    hide Enqueue, Fail, IsPick;
    var s1 := Enqueue(Empty, OnlyInput).0;
    AfterEnqueue(s1);
    OnlyPick(s1, 0);
    var s2 := Claim(WidePolicy, s1, "w", "a", 0, Some("j")).0;
    AfterClaim(s1, s2);
    var s3 := Fail(WidePolicy, s2, OnlyHandle, OnlyFailure, LateTime).0;
    AfterFailure(s2, s3);
    OnlyPick(s3, 1);
    states := [Empty, s1, s2, s3];
    LetterNotBlank("w");
    LetterNotBlank("b");
  }
}
