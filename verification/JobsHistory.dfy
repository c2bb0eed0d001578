/** What a run of the lease reaper over the Jobs comes to, job by job, and what the meaning of the single
    calls adds up to over a run. */
module JobsHistory {
  import opened Texts
  import opened DurableWork
  import opened DurableMeaning
  import opened Jobs
  import opened JobsInvariants
  import opened JobsRuns
  import opened JobsTime
  import opened JobsMeaning

  // ---------------------------------------------------------------- the reaper

  predicate IsExpired(s: State, id: string, now: int)
  {
    id in s.jobs && s.jobs[id].state == Running && s.jobs[id].lease.Some? && s.jobs[id].lease.value.expiresAt <= now
  }

  /** The cause on record for a lost lease. */
  const LostLease := FailureCause("LEASE_EXPIRED", Lease, true, "job-lease-expired")

  lemma TurnMeans(p: RetryPolicy, s: State, id: string, now: int)
    requires p.Valid() && Inv(p, s) && Safe(now)
    ensures var (t, r) := ReclaimOne(p, s, id, now);
      if !IsExpired(s, id, now) then t == s && r == Reply.Jobs([])
      else
        HasAttempt(s, id) && 1 <= s.jobs[id].attemptsInCycle &&
        var aid := s.jobs[id].lease.value.handle.attemptId;
        FailsTo(p, s.(audit := s.audit + Line(s, LeaseLost, id, Some(aid), System, "lease-reaper", now)), id, LostLease, now,
                System, "lease-reaper", Expired, t, r)
  {
    hide Inv, FinishFailure, FailsTo;
    if IsExpired(s, id, now) {
      Facts(p, s, id);
      var aid := s.jobs[id].lease.value.handle.attemptId;
      var logged := s.(audit := s.audit + Line(s, LeaseLost, id, Some(aid), System, "lease-reaper", now));
      FinishMeans(p, logged, id, LostLease, now, System, "lease-reaper", Expired);
    }
  }

  /** The job is not tried again, or the time of its next attempt is a safe integer. */
  predicate CanGo(p: RetryPolicy, j: Job, now: int)
  {
    j.attemptsInCycle == p.maximumAttemptsPerCycle || (1 <= j.attemptsInCycle && Safe(now + Wait(p, j.attemptsInCycle)))
  }

  /** What becomes of a job whose lease was lost. */
  function Recovered(p: RetryPolicy, j: Job, now: int): Job
  {
    var m := Marked(j, LostLease, now);
    if j.attemptsInCycle == p.maximumAttemptsPerCycle || j.attemptsInCycle < 1 then m.(state := DeadLetter)
    else m.(state := RetryWait, availableAt := now + Wait(p, j.attemptsInCycle))
  }

  function RecoveredAttempt(p: RetryPolicy, j: Job, a: Attempt, now: int): Attempt
  {
    Ended(a, LostLease, if j.attemptsInCycle == p.maximumAttemptsPerCycle then DeadLettered else Expired, now)
  }

  function TurnLog(p: RetryPolicy, j: Job, id: string, n: nat, now: int): seq<AuditRecord>
    requires j.lease.Some?
  {
    var aid := j.lease.value.handle.attemptId;
    [AuditRecord(n + 1, LeaseLost, id, Some(aid), System, "lease-reaper", now),
     AuditRecord(n + 2, if j.attemptsInCycle == p.maximumAttemptsPerCycle then DeadLetters else RetryPlanned, id, Some(aid), System, "lease-reaper", now)]
  }

  /** Two records for each expired lease of `order`, after `n` earlier ones. */
  function ReapLog(p: RetryPolicy, s: State, order: seq<string>, n: nat, now: int): seq<AuditRecord>
    decreases |order|
  {
    if order == [] then []
    else if !IsExpired(s, order[0], now) then ReapLog(p, s, order[1..], n, now)
    else TurnLog(p, s.jobs[order[0]], order[0], n, now) + ReapLog(p, s, order[1..], n + 2, now)
  }

  /** The expired jobs of `order`, as they then are. */
  function ReapedIn(s: State, t: State, order: seq<string>, now: int): seq<Job>
    requires t.jobs.Keys == s.jobs.Keys
    decreases |order|
  {
    if order == [] then []
    else (if IsExpired(s, order[0], now) then [t.jobs[order[0]]] else []) + ReapedIn(s, t, order[1..], now)
  }

  ghost predicate JobsReaped(p: RetryPolicy, s: State, order: seq<string>, now: int, t: State)
  {
    t.jobs.Keys == s.jobs.Keys &&
    forall id :: id in s.jobs ==>
      t.jobs[id] ==
      if id in order && IsExpired(s, id, now) then Recovered(p, s.jobs[id], now) else s.jobs[id]
  }

  predicate HoldsExpired(s: State, order: seq<string>, now: int, a: string)
    requires a in s.attempts
  {
    var id := s.attempts[a].workId;
    id in order && IsExpired(s, id, now) && s.jobs[id].lease.value.handle.attemptId == a
  }

  ghost predicate AttemptsReaped(p: RetryPolicy, s: State, order: seq<string>, now: int, t: State)
  {
    t.attempts.Keys == s.attempts.Keys &&
    forall a :: a in s.attempts ==>
      t.attempts[a] ==
      if HoldsExpired(s, order, now, a) then RecoveredAttempt(p, s.jobs[s.attempts[a].workId], s.attempts[a], now) else s.attempts[a]
  }

  /** Every expired lease of `order` is gone, its job and its attempt on record as lost, and nothing else has changed. */
  ghost predicate ReapsTo(p: RetryPolicy, s: State, order: seq<string>, now: int, t: State, r: Reply)
  {
    JobsReaped(p, s, order, now, t) && AttemptsReaped(p, s, order, now, t) && t.checkpoints == s.checkpoints && t.index == s.index &&
    t.audit == s.audit + ReapLog(p, s, order, |s.audit|, now) && r == Reply.Jobs(ReapedIn(s, t, order, now))
  }

  ghost predicate NoneStuck(p: RetryPolicy, s: State, order: seq<string>, now: int)
  {
    forall id :: id in order && IsExpired(s, id, now) ==> CanGo(p, s.jobs[id], now)
  }

  /** The log after the lost lease and what followed. */
  lemma TwoLines(s: State, id: string, aid: string, k: AuditKind, now: int)
    ensures var lost := Line(s, LeaseLost, id, Some(aid), System, "lease-reaper", now);
      (s.audit + lost) + Line(s.(audit := s.audit + lost), k, id, Some(aid), System, "lease-reaper", now) ==
      s.audit + [AuditRecord(|s.audit| + 1, LeaseLost, id, Some(aid), System, "lease-reaper", now),
                 AuditRecord(|s.audit| + 2, k, id, Some(aid), System, "lease-reaper", now)]
  {
  }

  /** A lost lease that can go, as one change. */
  ghost predicate TurnsTo(p: RetryPolicy, s: State, id: string, now: int, t: State, r: Reply)
    requires HasAttempt(s, id)
  {
    var j, aid := s.jobs[id], s.jobs[id].lease.value.handle.attemptId;
    Becomes(s, t, id, Recovered(p, j, now), aid, RecoveredAttempt(p, j, s.attempts[aid], now), TurnLog(p, j, id, |s.audit|, now)) &&
    r == Reply.Jobs([t.jobs[id]])
  }

  lemma LostTurns(p: RetryPolicy, s: State, id: string, now: int, t: State, r: Reply)
    requires HasAttempt(s, id) && 1 <= s.jobs[id].attemptsInCycle
    requires var aid := s.jobs[id].lease.value.handle.attemptId;
      FailsTo(p, s.(audit := s.audit + Line(s, LeaseLost, id, Some(aid), System, "lease-reaper", now)), id, LostLease, now,
              System, "lease-reaper", Expired, t, r)
    ensures r.Jobs? <==> CanGo(p, s.jobs[id], now)
    ensures r.Jobs? ==> TurnsTo(p, s, id, now, t, r)
  {
    var j, aid := s.jobs[id], s.jobs[id].lease.value.handle.attemptId;
    TwoLines(s, id, aid, if j.attemptsInCycle == p.maximumAttemptsPerCycle then DeadLetters else RetryPlanned, now);
    hide Wait, Marked, Ended, Line;
  }

  /** One turn on an expired lease. */
  lemma OneTurn(p: RetryPolicy, s: State, id: string, now: int)
    requires p.Valid() && Inv(p, s) && Safe(now) && IsExpired(s, id, now)
    ensures var (t, r) := ReclaimOne(p, s, id, now);
      HasAttempt(s, id) && s.attempts[s.jobs[id].lease.value.handle.attemptId].workId == id && 1 <= s.jobs[id].attemptsInCycle &&
      (r.Jobs? <==> CanGo(p, s.jobs[id], now)) && (r.Jobs? ==> TurnsTo(p, s, id, now, t, r))
  {
    TurnMeans(p, s, id, now);
    Facts(p, s, id);
    hide Inv, ReclaimOne, FailsTo, TurnsTo, CanGo;
    var (t, r) := ReclaimOne(p, s, id, now);
    LostTurns(p, s, id, now, t, r);
  }

  // ---------------------------------------------------------------- the reaper's loop

  /** The state after one turn, as far as the jobs still to come see it. */
  ghost predicate TurnLeaves(s: State, t: State, id: string, now: int)
  {
    t.jobs.Keys == s.jobs.Keys && !IsExpired(t, id, now) &&
    (forall x :: x in s.jobs && x != id ==> t.jobs[x] == s.jobs[x]) &&
    t.attempts.Keys == s.attempts.Keys && forall a :: a in s.attempts ==> t.attempts[a].workId == s.attempts[a].workId
  }

  lemma TurnIsLocal(p: RetryPolicy, s: State, id: string, now: int, t: State, r: Reply)
    requires Inv(p, s) && HasAttempt(s, id) && s.attempts[s.jobs[id].lease.value.handle.attemptId].workId == id && TurnsTo(p, s, id, now, t, r)
    ensures TurnLeaves(s, t, id, now)
  {
    hide Inv, TurnLog, TurnsTo;
    var j, aid := s.jobs[id], s.jobs[id].lease.value.handle.attemptId;
    TurnFields(p, s, id, now, t, r);
    hide Recovered, RecoveredAttempt;
  }

  lemma TurnFields(p: RetryPolicy, s: State, id: string, now: int, t: State, r: Reply)
    requires HasAttempt(s, id) && TurnsTo(p, s, id, now, t, r)
    ensures var aid := s.jobs[id].lease.value.handle.attemptId;
      t.jobs == s.jobs[id := Recovered(p, s.jobs[id], now)] && t.jobs[id].lease.None? &&
      t.attempts == s.attempts[aid := RecoveredAttempt(p, s.jobs[id], s.attempts[aid], now)] && t.attempts[aid].workId == s.attempts[aid].workId &&
      t.checkpoints == s.checkpoints && t.index == s.index && t.audit == s.audit + TurnLog(p, s.jobs[id], id, |s.audit|, now) &&
      r == Reply.Jobs([t.jobs[id]])
  {
    hide Wait, TurnLog;
  }

  lemma LeaseIsOwn(p: RetryPolicy, s: State, x: string)
    requires Inv(p, s) && x in s.jobs && s.jobs[x].lease.Some?
    ensures var aid := s.jobs[x].lease.value.handle.attemptId; aid in s.attempts && s.attempts[aid].workId == x
  {
    Facts(p, s, x);
    hide Inv, JobOk, AttemptOk;
  }

  lemma JobsReapedNext(p: RetryPolicy, s: State, t: State, order: seq<string>, now: int, u: State)
    requires order != [] && order[0] !in order[1..] && IsExpired(s, order[0], now) && TurnLeaves(s, t, order[0], now)
    requires t.jobs[order[0]] == Recovered(p, s.jobs[order[0]], now) && JobsReaped(p, t, order[1..], now, u)
    ensures JobsReaped(p, s, order, now, u)
  {
    hide Recovered;
    assert order == [order[0]] + order[1..];
    forall x | x in s.jobs && x != order[0]
      ensures t.jobs[x] == s.jobs[x] && (IsExpired(t, x, now) <==> IsExpired(s, x, now)) && (x in order <==> x in order[1..])
    {
    }
    hide IsExpired;
  }

  lemma AttemptsReapedNext(p: RetryPolicy, s: State, t: State, order: seq<string>, now: int, u: State)
    requires order != [] && order[0] !in order[1..] && IsExpired(s, order[0], now) && TurnLeaves(s, t, order[0], now)
    requires var aid := s.jobs[order[0]].lease.value.handle.attemptId;
      aid in s.attempts && s.attempts[aid].workId == order[0] &&
      t.attempts == s.attempts[aid := RecoveredAttempt(p, s.jobs[order[0]], s.attempts[aid], now)]
    requires AttemptsReaped(p, t, order[1..], now, u)
    ensures AttemptsReaped(p, s, order, now, u)
  {
    hide RecoveredAttempt;
    assert order == [order[0]] + order[1..];
    forall a | a in s.attempts
      ensures u.attempts[a] ==
        if HoldsExpired(s, order, now, a) then RecoveredAttempt(p, s.jobs[s.attempts[a].workId], s.attempts[a], now) else s.attempts[a]
    {
      var id := s.attempts[a].workId;
      if id == order[0] {
        assert !HoldsExpired(t, order[1..], now, a);
      } else {
        assert t.attempts[a] == s.attempts[a] && (HoldsExpired(t, order[1..], now, a) <==> HoldsExpired(s, order, now, a));
      }
    }
  }

  /** Two states that agree on what is left of the order. */
  ghost predicate AgreeOn(s: State, t: State, order: seq<string>, now: int)
  {
    forall x :: x in order ==> (IsExpired(s, x, now) <==> IsExpired(t, x, now)) && (IsExpired(s, x, now) ==> t.jobs[x] == s.jobs[x])
  }

  lemma {:induction false} SameLog(p: RetryPolicy, s: State, t: State, order: seq<string>, n: nat, now: int)
    requires AgreeOn(s, t, order, now)
    ensures ReapLog(p, s, order, n, now) == ReapLog(p, t, order, n, now)
    decreases |order|
  {
    hide IsExpired, TurnLog;
    if order != [] {
      assert order[0] in order && forall x :: x in order[1..] ==> x in order;
      SameLog(p, s, t, order[1..], n, now);
      SameLog(p, s, t, order[1..], n + 2, now);
    }
  }

  lemma {:induction false} SameReaped(s: State, t: State, u: State, order: seq<string>, now: int)
    requires AgreeOn(s, t, order, now) && u.jobs.Keys == s.jobs.Keys == t.jobs.Keys
    ensures ReapedIn(s, u, order, now) == ReapedIn(t, u, order, now)
    decreases |order|
  {
    hide IsExpired;
    if order != [] {
      assert order[0] in order && forall x :: x in order[1..] ==> x in order;
      ExpiredIsThere(s, order[0], now);
      ExpiredIsThere(t, order[0], now);
      SameReaped(s, t, u, order[1..], now);
    }
  }

  lemma ExpiredIsThere(s: State, id: string, now: int)
    ensures IsExpired(s, id, now) ==> id in s.jobs && s.jobs[id].lease.Some?
  {
  }

  lemma RestAgrees(s: State, t: State, order: seq<string>, now: int)
    requires order != [] && order[0] !in order[1..] && TurnLeaves(s, t, order[0], now)
    ensures AgreeOn(s, t, order[1..], now)
  {
      }

  lemma NothingReaped(p: RetryPolicy, s: State, now: int)
    ensures ReapsTo(p, s, [], now, s, Reply.Jobs([]))
  {
  }

  /** The head of the order holds no expired lease. */
  lemma SkipsHead(p: RetryPolicy, s: State, order: seq<string>, now: int, u: State, r: Reply)
    requires order != [] && !IsExpired(s, order[0], now) && ReapsTo(p, s, order[1..], now, u, r)
    ensures ReapsTo(p, s, order, now, u, r)
  {
    hide IsExpired, Recovered, RecoveredAttempt, TurnLog;
    assert order == [order[0]] + order[1..];
    assert forall a :: a in s.attempts ==> (HoldsExpired(s, order, now, a) <==> HoldsExpired(s, order[1..], now, a));
    hide HoldsExpired;
    assert [] + ReapedIn(s, u, order[1..], now) == ReapedIn(s, u, order[1..], now);
  }

  lemma ReapsHead(p: RetryPolicy, s: State, order: seq<string>, now: int, t: State, one: Reply, u: State, r: Reply)
    requires order != [] && order[0] !in order[1..] && IsExpired(s, order[0], now) && HasAttempt(s, order[0])
    requires s.attempts[s.jobs[order[0]].lease.value.handle.attemptId].workId == order[0]
    requires TurnsTo(p, s, order[0], now, t, one) && TurnLeaves(s, t, order[0], now) && ReapsTo(p, t, order[1..], now, u, r)
    ensures one.Jobs? && r.Jobs? && ReapsTo(p, s, order, now, u, Reply.Jobs(one.jobs + r.jobs))
  {
    hide TurnsTo, IsExpired, TurnLog, Recovered, RecoveredAttempt, JobsReaped, AttemptsReaped;
    TurnFields(p, s, order[0], now, t, one);
    JobsReapedNext(p, s, t, order, now, u);
    AttemptsReapedNext(p, s, t, order, now, u);
    RestAgrees(s, t, order, now);
    HeadStays(p, t, order, now, u);
    KeysOf(p, s, t, u, order, now);
    SameLog(p, s, t, order[1..], |s.audit| + 2, now);
    SameReaped(s, t, u, order[1..], now);
    TurnLogLength(p, s.jobs[order[0]], order[0], |s.audit|, now);
    LogAdds(s.audit, TurnLog(p, s.jobs[order[0]], order[0], |s.audit|, now), ReapLog(p, s, order[1..], |s.audit| + 2, now));
  }

  lemma TurnLogLength(p: RetryPolicy, j: Job, id: string, n: nat, now: int)
    requires j.lease.Some?
    ensures |TurnLog(p, j, id, n, now)| == 2
  {
  }

  lemma LogAdds(a: seq<AuditRecord>, b: seq<AuditRecord>, c: seq<AuditRecord>)
    ensures (a + b) + c == a + (b + c)
  {
  }

  lemma KeysOf(p: RetryPolicy, s: State, t: State, u: State, order: seq<string>, now: int)
    requires order != [] && TurnLeaves(s, t, order[0], now) && JobsReaped(p, t, order[1..], now, u)
    ensures u.jobs.Keys == t.jobs.Keys == s.jobs.Keys
  {
  }

  /** The rest of the order does not come back to its head. */
  lemma HeadStays(p: RetryPolicy, t: State, order: seq<string>, now: int, u: State)
    requires order != [] && order[0] !in order[1..] && JobsReaped(p, t, order[1..], now, u) && order[0] in t.jobs
    ensures order[0] in u.jobs && u.jobs[order[0]] == t.jobs[order[0]]
  {
    hide IsExpired, Recovered;
  }

  lemma StuckNext(p: RetryPolicy, s: State, t: State, order: seq<string>, now: int)
    requires order != [] && order[0] !in order[1..] && (t == s || TurnLeaves(s, t, order[0], now))
    ensures NoneStuck(p, s, order, now) <==> (IsExpired(s, order[0], now) ==> CanGo(p, s.jobs[order[0]], now)) && NoneStuck(p, t, order[1..], now)
  {
    hide CanGo;
    assert order == [order[0]] + order[1..];
    if t != s { RestAgrees(s, t, order, now); }
  }

  /** The reaper gets through its order exactly when every expired lease can go, and then leaves each as it should. */
  lemma {:induction false} LoopMeans(p: RetryPolicy, s: State, order: seq<string>, now: int)
    requires p.Valid() && Inv(p, s) && NoRepeats(order) && Safe(now)
    ensures var (t, r) := ReclaimEach(p, s, order, now);
      (r.Jobs? <==> NoneStuck(p, s, order, now)) && (r.Jobs? ==> ReapsTo(p, s, order, now, t, r))
    decreases |order|
  {
    hide Inv, Grew, ReclaimOne, ReapsTo, IsExpired, CanGo, TurnsTo, NoneStuck, TurnLeaves;
    if order == [] {
      NothingReaped(p, s, now);
      NoneLeft(p, s, now);
    } else {
      assert order[0] !in order[1..] && NoRepeats(order[1..]);
      ReclaimUnfold(p, s, order, now);
      hide ReclaimEach;
      var (t, one) := ReclaimOne(p, s, order[0], now);
      TurnMeans(p, s, order[0], now);
      ReclaimOneKeeps(p, s, order[0], now);
      if !IsExpired(s, order[0], now) {
        LoopMeans(p, s, order[1..], now);
        StuckNext(p, s, s, order, now);
        var rest := ReclaimEach(p, s, order[1..], now);
        if rest.1.Jobs? {
          SkipsHead(p, s, order, now, rest.0, rest.1);
          assert [] + rest.1.jobs == rest.1.jobs;
        }
      } else {
        LoopTurn(p, s, order, now);
      }
    }
  }

  lemma NoneLeft(p: RetryPolicy, s: State, now: int)
    ensures NoneStuck(p, s, [], now)
  {
  }

  lemma LoopTurn(p: RetryPolicy, s: State, order: seq<string>, now: int)
    requires p.Valid() && Inv(p, s) && NoRepeats(order) && Safe(now) && order != [] && order[0] !in order[1..] && NoRepeats(order[1..])
    requires IsExpired(s, order[0], now)
    ensures var (t, r) := ReclaimEach(p, s, order, now);
      (r.Jobs? <==> NoneStuck(p, s, order, now)) && (r.Jobs? ==> ReapsTo(p, s, order, now, t, r))
    decreases |order|, 0
  {
    hide Inv, Grew, ReclaimOne, ReapsTo, IsExpired, CanGo, TurnsTo, NoneStuck, TurnLeaves;
    ReclaimUnfold(p, s, order, now);
    hide ReclaimEach;
    var (t, one) := ReclaimOne(p, s, order[0], now);
    OneTurn(p, s, order[0], now);
    ReclaimOneKeeps(p, s, order[0], now);
    if one.Jobs? {
      TurnIsLocal(p, s, order[0], now, t, one);
      LoopMeans(p, t, order[1..], now);
      StuckNext(p, s, t, order, now);
      var rest := ReclaimEach(p, t, order[1..], now);
      if rest.1.Jobs? { ReapsHead(p, s, order, now, t, one, rest.0, rest.1); }
    } else {
      StuckHead(p, s, order, now);
    }
  }

  lemma StuckHead(p: RetryPolicy, s: State, order: seq<string>, now: int)
    requires order != [] && IsExpired(s, order[0], now) && !CanGo(p, s.jobs[order[0]], now)
    ensures !NoneStuck(p, s, order, now)
  {
    hide IsExpired, CanGo;
    assert order[0] in order;
  }

  /** The reaper at `now` ends every lease that has expired by then and no other: the job is dead-lettered
      after the last attempt of its cycle and waits out the backoff otherwise, and the attempt is on record
      as expired. It is refused exactly when the next attempt of such a job has no safe time. */
  lemma ReclaimMeans(p: RetryPolicy, s: State, order: seq<string>, now: int)
    requires p.Valid() && Inv(p, s) && IsReapOrder(s, order)
    ensures var (t, r) := Reclaim(p, s, order, now);
      if !Safe(now) then t == s && r == Rejected(InvalidArgument)
      else if exists id :: IsExpired(s, id, now) && !CanGo(p, s.jobs[id], now) then r == Rejected(InvalidArgument)
      else ReapsTo(p, s, order, now, t, r)
  {
    ReapOrderFacts(s, order);
    hide Inv, ReclaimEach, ReapsTo, CanGo;
    if Safe(now) {
      LoopMeans(p, s, order, now);
      ReapedClean(p, s, order, now);
    }
  }

  // ---------------------------------------------------------------- dead letters wait for an operator

  predicate Replays(c: Command, id: string)
  {
    c.DoReplay? && c.id == id
  }

  /** Out of the way of every claim. */
  predicate Shelved(s: State, id: string)
  {
    id in s.jobs && (s.jobs[id].state == DeadLetter || s.jobs[id].state == JobCancelled)
  }

  lemma HolderLeaves(p: RetryPolicy, s: State, c: Command, id: string)
    requires p.Valid() && Inv(p, s) && Shelved(s, id)
    requires c.DoHeartbeat? || c.DoCheckpoint? || c.DoSucceed? || c.DoFail?
    ensures var t := Step(p, s, c).0; id in t.jobs && t.jobs[id] == s.jobs[id]
  {
    hide Inv, Heartbeat, CompleteCheckpoint, Succeed, Fail, Complaint;
    match c
    case DoHeartbeat(h, now) => HeartbeatMeans(p, s, h, now);
    case DoCheckpoint(h, input, now) => CheckpointMeans(p, s, h, input, now);
    case DoSucceed(h, resultRef, now) => SucceedMeans(p, s, h, resultRef, now);
    case DoFail(h, failure, now) =>
      FailMeans(p, s, h, failure, now);
      hide Marked, Ended, Wait;
  }

  lemma HolderGrantsNothing(p: RetryPolicy, s: State, c: Command)
    requires c.DoHeartbeat? || c.DoCheckpoint? || c.DoSucceed? || c.DoFail?
    ensures !Step(p, s, c).1.Granted?
  {
    hide Admit, AddDuration, RetryAt, Latest;
  }

  lemma OperatorLeaves(p: RetryPolicy, s: State, c: Command, id: string)
    requires p.Valid() && Inv(p, s) && Shelved(s, id)
    requires c.DoEnqueue? || c.DoCancel? || (c.DoReplay? && c.id != id)
    ensures Shelved(Step(p, s, c).0, id) && !Step(p, s, c).1.Granted?
  {
    hide Inv, Enqueue, Replay, Cancel, IsAuditCode, Blank, Scope;
    match c
    case DoEnqueue(input) =>
      EnqueueMeans(p, s, input);
      EnqueueGrantsNothing(s, input);
    case DoReplay(other, operatorId, reasonCode, now) => ReplayMeans(p, s, other, operatorId, reasonCode, now);
    case DoCancel(other, operatorId, reasonCode, now) => CancelMeans(p, s, other, operatorId, reasonCode, now);
  }

  lemma EnqueueGrantsNothing(s: State, input: EnqueueInput)
    ensures !Enqueue(s, input).1.Granted?
  {
    hide Scope, Blank;
  }

  lemma OthersStay(p: RetryPolicy, s: State, x: string, failure: FailureCause, now: int, t: State, r: Reply, id: string)
    requires HasAttempt(s, x) && 1 <= s.jobs[x].attemptsInCycle && FailsTo(p, s, x, failure, now, System, "lease-reaper", Expired, t, r)
    requires id in s.jobs && id != x
    ensures id in t.jobs && t.jobs[id] == s.jobs[id]
  {
    hide Wait, Marked, Ended, Line;
  }

  lemma TurnLeavesShelved(p: RetryPolicy, s: State, x: string, now: int, id: string)
    requires p.Valid() && Inv(p, s) && Safe(now) && Shelved(s, id)
    ensures Shelved(ReclaimOne(p, s, x, now).0, id) && !ReclaimOne(p, s, x, now).1.Granted?
  {
    TurnMeans(p, s, x, now);
    hide Inv, ReclaimOne, FailsTo, Line;
    if IsExpired(s, x, now) {
      var aid := s.jobs[x].lease.value.handle.attemptId;
      var logged := s.(audit := s.audit + Line(s, LeaseLost, x, Some(aid), System, "lease-reaper", now));
      var (t, r) := ReclaimOne(p, s, x, now);
      OthersStay(p, logged, x, LostLease, now, t, r, id);
      FailGrantsNothing(p, logged, x, LostLease, now, t, r);
    }
  }

  lemma FailGrantsNothing(p: RetryPolicy, s: State, x: string, failure: FailureCause, now: int, t: State, r: Reply)
    requires HasAttempt(s, x) && 1 <= s.jobs[x].attemptsInCycle && FailsTo(p, s, x, failure, now, System, "lease-reaper", Expired, t, r)
    ensures !r.Granted?
  {
    hide Wait, Marked, Ended, Line;
  }

  /** The reaper changes only what runs, also when it is refused half way. */
  lemma {:induction false} ReaperLeaves(p: RetryPolicy, s: State, order: seq<string>, now: int, id: string)
    requires p.Valid() && Inv(p, s) && Safe(now) && Shelved(s, id)
    ensures Shelved(ReclaimEach(p, s, order, now).0, id) && !ReclaimEach(p, s, order, now).1.Granted?
    decreases |order|
  {
    hide Inv, Grew, ReclaimOne;
    if order != [] {
      ReclaimUnfold(p, s, order, now);
      hide ReclaimEach;
      TurnLeavesShelved(p, s, order[0], now, id);
      ReclaimOneKeeps(p, s, order[0], now);
      ReaperLeaves(p, ReclaimOne(p, s, order[0], now).0, order[1..], now, id);
    }
  }

  /** No call but its replay brings a dead-lettered job back, and no claim grants it. */
  lemma ShelvedStays(p: RetryPolicy, s: State, c: Command, id: string)
    requires p.Valid() && Inv(p, s) && Enabled(s, c) && Shelved(s, id) && !Replays(c, id)
    ensures var (t, r) := Step(p, s, c); Shelved(t, id) && !(r.Granted? && r.handle.workId == id)
  {
    hide Inv, IsReapOrder, ReclaimEach;
    match c
    case DoClaim(workerId, attemptId, now, pick) =>
      ClaimMeans(p, s, workerId, attemptId, now, pick);
      hide Claim, IsPick, Sooner, LastOf;
    case DoReclaim(order, now) => if Safe(now) { ReaperLeaves(p, s, order, now, id); }
    case DoEnqueue(_) => OperatorLeaves(p, s, c, id);
    case DoReplay(_, _, _, _) => OperatorLeaves(p, s, c, id);
    case DoCancel(_, _, _, _) => OperatorLeaves(p, s, c, id);
    case _ =>
      HolderLeaves(p, s, c, id);
      HolderGrantsNothing(p, s, c);
  }

  ghost predicate NoReplay(commands: seq<Command>, i: nat, k: nat, id: string)
    requires k <= |commands|
  {
    forall n :: i <= n < k ==> !Replays(commands[n], id)
  }

  lemma {:induction false} WaitsForReplay(p: RetryPolicy, commands: seq<Command>, states: seq<State>, i: nat, k: nat, id: string)
    requires p.Valid() && IsRun(p, commands, states) && i <= k < |states| && NoReplay(commands, i, k, id) && Shelved(states[i], id)
    ensures Shelved(states[k], id)
    ensures forall n :: i <= n < k ==> !(Step(p, states[n], commands[n]).1.Granted? && Step(p, states[n], commands[n]).1.handle.workId == id)
    decreases k
  {
    hide Inv, Enabled, Step, Shelved;
    if i < k {
      WaitsForReplay(p, commands, states, i, k - 1, id);
      EveryStateOk(p, commands, states, k - 1);
      ShelvedStays(p, states[k - 1], commands[k - 1], id);
      assert states[k] == Step(p, states[k - 1], commands[k - 1]).0;
    }
  }

  /** After a failure that may not be retried the job is out of the way: until a replay no claim grants it,
      whatever calls come in between. */
  lemma PermanentFailureWaits(p: RetryPolicy, commands: seq<Command>, states: seq<State>, i: nat, k: nat, h: LeaseHandle, failure: FailureCause, now: int)
    requires p.Valid() && IsRun(p, commands, states) && i < k < |states| && NoReplay(commands, i + 1, k, h.workId)
    requires commands[i] == DoFail(h, failure, now) && !failure.retryable && !Step(p, states[i], commands[i]).1.Rejected?
    ensures Shelved(states[k], h.workId)
    ensures forall n :: i < n < k ==> !(Step(p, states[n], commands[n]).1.Granted? && Step(p, states[n], commands[n]).1.handle.workId == h.workId)
  {
    EveryStateOk(p, commands, states, i);
    FailMeans(p, states[i], h, failure, now);
    assert states[i + 1] == Step(p, states[i], commands[i]).0;
    hide Inv, Enabled, Fail, Wait, Marked, Ended, Complaint;
    assert Shelved(states[i + 1], h.workId);
    hide Step, FailsTo, Shelved;
    WaitsForReplay(p, commands, states, i + 1, k, h.workId);
  }

  // ---------------------------------------------------------------- how long a lease lasts

  /** The lease of `id` ends one lease duration after the last heartbeat of its attempt. */
  predicate Timed(p: RetryPolicy, s: State, id: string)
  {
    HasAttempt(s, id) ==>
      var lease := s.jobs[id].lease.value;
      var a := s.attempts[lease.handle.attemptId];
      lease.acquiredAt == a.startedAt && lease.expiresAt == a.lastHeartbeatAt + p.leaseDurationMs
  }

  ghost predicate AllTimed(p: RetryPolicy, s: State)
  {
    forall id :: id in s.jobs ==> Timed(p, s, id)
  }

  lemma TimedAt(p: RetryPolicy, s: State, id: string)
    requires AllTimed(p, s) && id in s.jobs
    ensures Timed(p, s, id)
  {
  }

  /** One job changes, and perhaps its own attempt. */
  lemma TimedBecomes(p: RetryPolicy, s: State, t: State, id: string, j': Job, aid: string, a': Attempt)
    requires Inv(p, s) && AllTimed(p, s) && t.jobs == s.jobs[id := j'] && (t.attempts == s.attempts || t.attempts == s.attempts[aid := a'])
    requires aid in s.attempts ==> s.attempts[aid].workId == id
    requires j'.lease.Some? ==>
      t.attempts == s.attempts[aid := a'] && j'.lease.value.handle.attemptId == aid && j'.lease.value.acquiredAt == a'.startedAt &&
      j'.lease.value.expiresAt == a'.lastHeartbeatAt + p.leaseDurationMs
    ensures AllTimed(p, t)
  {
    hide Inv;
    forall x | x in t.jobs
      ensures Timed(p, t, x)
    {
      if x != id && s.jobs[x].lease.Some? {
        LeaseIsOwn(p, s, x);
        assert Timed(p, s, x);
      }
    }
  }

  lemma TimedRenewed(p: RetryPolicy, s: State, h: LeaseHandle, now: int, t: State, r: Reply)
    requires Inv(p, s) && AllTimed(p, s) && h.workId in s.jobs && h.attemptId in s.attempts && s.jobs[h.workId].lease.Some?
    requires s.jobs[h.workId].lease.value.handle == h && RenewedTo(p, s, h, now, t, r)
    ensures AllTimed(p, t)
  {
    hide Inv, AllTimed, Line;
    LeaseIsOwn(p, s, h.workId);
    TimedAt(p, s, h.workId);
    var a := s.attempts[h.attemptId];
    TimedBecomes(p, s, t, h.workId, t.jobs[h.workId], h.attemptId, if Safe(now + p.leaseDurationMs) then a.(lastHeartbeatAt := now) else a);
  }

  lemma TimedHolder(p: RetryPolicy, s: State, c: Command)
    requires p.Valid() && Inv(p, s) && AllTimed(p, s) && (c.DoHeartbeat? || c.DoCheckpoint? || c.DoSucceed?)
    ensures AllTimed(p, Step(p, s, c).0)
  {
    hide Inv, AllTimed, Heartbeat, CompleteCheckpoint, Succeed, Complaint, RenewedTo, RecordedTo, SucceededTo, Blank;
    match c
    case DoHeartbeat(h, now) =>
      HeartbeatMeans(p, s, h, now);
      if IsCurrent(s, h, now) { TimedRenewed(p, s, h, now, Heartbeat(p, s, h, now).0, Heartbeat(p, s, h, now).1); }
    case DoCheckpoint(h, input, now) =>
      CheckpointMeans(p, s, h, input, now);
      var (t, r) := CompleteCheckpoint(s, h, input, now);
      if t != s { TimedRecorded(p, s, h, input, now, t, r); }
    case DoSucceed(h, resultRef, now) =>
      SucceedMeans(p, s, h, resultRef, now);
      var (t, r) := Succeed(s, h, resultRef, now);
      if t != s { TimedSucceeded(p, s, h, resultRef, now, t, r); }
  }

  lemma TimedRecorded(p: RetryPolicy, s: State, h: LeaseHandle, input: CheckpointInput, now: int, t: State, r: Reply)
    requires Inv(p, s) && AllTimed(p, s) && IsCurrent(s, h, now) && RecordedTo(s, h, input, now, t, r)
    ensures AllTimed(p, t)
  {
    hide Inv, AllTimed, Line, LastOf;
    LeaseIsOwn(p, s, h.workId);
    TimedAt(p, s, h.workId);
    assert s.attempts == s.attempts[h.attemptId := s.attempts[h.attemptId]];
    if t != s { TimedBecomes(p, s, t, h.workId, t.jobs[h.workId], h.attemptId, s.attempts[h.attemptId]); }
  }

  lemma TimedSucceeded(p: RetryPolicy, s: State, h: LeaseHandle, resultRef: string, now: int, t: State, r: Reply)
    requires Inv(p, s) && AllTimed(p, s) && IsCurrent(s, h, now) && h.attemptId in s.attempts && SucceededTo(s, h, resultRef, now, t, r)
    ensures AllTimed(p, t)
  {
    hide Inv, AllTimed, Line;
    LeaseIsOwn(p, s, h.workId);
    TimedBecomes(p, s, t, h.workId, t.jobs[h.workId], h.attemptId, s.attempts[h.attemptId].(finishedAt := Some(now), outcome := Succeeded));
  }

  lemma TimedFails(p: RetryPolicy, s: State, logged: State, id: string, failure: FailureCause, now: int,
                   actor: Actor, actorId: string, retried: AttemptOutcome, t: State, r: Reply)
    requires Inv(p, s) && AllTimed(p, s) && HasAttempt(s, id) && 1 <= s.jobs[id].attemptsInCycle && logged == s.(audit := logged.audit)
    requires FailsTo(p, logged, id, failure, now, actor, actorId, retried, t, r)
    ensures AllTimed(p, t)
  {
    hide Inv, AllTimed, Wait, Line;
    LeaseIsOwn(p, s, id);
    var aid := s.jobs[id].lease.value.handle.attemptId;
    TimedBecomes(p, s, t, id, t.jobs[id], aid, t.attempts[aid]);
  }

  lemma TimedFail(p: RetryPolicy, s: State, h: LeaseHandle, failure: FailureCause, now: int)
    requires p.Valid() && Inv(p, s) && AllTimed(p, s)
    ensures AllTimed(p, Fail(p, s, h, failure, now).0)
  {
    FailMeans(p, s, h, failure, now);
    hide Inv, AllTimed, Fail, Complaint, FailsTo, IsCurrent, Blank;
    var (t, r) := Fail(p, s, h, failure, now);
    if t != s { TimedFails(p, s, s, h.workId, failure, now, Worker, h.workerId, RetryScheduled, t, r); }
  }

  lemma TimedClaim(p: RetryPolicy, s: State, workerId: string, attemptId: string, now: int, pick: Option<string>)
    requires p.Valid() && Inv(p, s) && AllTimed(p, s) && IsPick(s, now, pick)
    ensures AllTimed(p, Claim(p, s, workerId, attemptId, now, pick).0)
  {
    ClaimMeans(p, s, workerId, attemptId, now, pick);
    hide Inv, AllTimed, GrantedTo, Claim, IsPick, Sooner, Blank;
    var (t, r) := Claim(p, s, workerId, attemptId, now, pick);
    if t != s { TimedGranted(p, s, workerId, attemptId, now, pick.value, t, r); }
  }

  lemma TimedGranted(p: RetryPolicy, s: State, workerId: string, attemptId: string, now: int, id: string, t: State, r: Reply)
    requires Inv(p, s) && AllTimed(p, s) && attemptId !in s.attempts && id in s.jobs && GrantedTo(p, s, workerId, attemptId, now, id, t, r)
    ensures AllTimed(p, t)
  {
    hide Inv, AllTimed, Line, LastOf;
    TimedBecomes(p, s, t, id, t.jobs[id], attemptId, t.attempts[attemptId]);
  }

  lemma {:induction false} TimedLoop(p: RetryPolicy, s: State, order: seq<string>, now: int)
    requires p.Valid() && Inv(p, s) && AllTimed(p, s) && Safe(now)
    ensures AllTimed(p, ReclaimEach(p, s, order, now).0)
    decreases |order|
  {
    hide Inv, Grew, AllTimed, ReclaimOne;
    if order != [] {
      ReclaimUnfold(p, s, order, now);
      hide ReclaimEach;
      TimedTurn(p, s, order[0], now);
      ReclaimOneKeeps(p, s, order[0], now);
      TimedLoop(p, ReclaimOne(p, s, order[0], now).0, order[1..], now);
    }
  }

  lemma TimedTurn(p: RetryPolicy, s: State, id: string, now: int)
    requires p.Valid() && Inv(p, s) && AllTimed(p, s) && Safe(now)
    ensures AllTimed(p, ReclaimOne(p, s, id, now).0)
  {
    TurnMeans(p, s, id, now);
    hide Inv, AllTimed, ReclaimOne, FailsTo;
    if IsExpired(s, id, now) {
      var aid := s.jobs[id].lease.value.handle.attemptId;
      var logged := s.(audit := s.audit + Line(s, LeaseLost, id, Some(aid), System, "lease-reaper", now));
      var (t, r) := ReclaimOne(p, s, id, now);
      TimedFails(p, s, logged, id, LostLease, now, System, "lease-reaper", Expired, t, r);
    }
  }

  lemma TimedOperator(p: RetryPolicy, s: State, c: Command)
    requires p.Valid() && Inv(p, s) && AllTimed(p, s) && (c.DoEnqueue? || c.DoReplay? || c.DoCancel?)
    ensures AllTimed(p, Step(p, s, c).0)
  {
    hide Inv, AllTimed, Enqueue, Replay, Cancel, IsAuditCode, Blank, Scope, ReplayedTo, CancelledTo;
    match c
    case DoEnqueue(input) =>
      EnqueueMeans(p, s, input);
      var t := Enqueue(s, input).0;
      if t != s { TimedIdle(p, s, t, input.id, t.jobs[input.id]); }
    case DoReplay(id, operatorId, reasonCode, now) =>
      ReplayMeans(p, s, id, operatorId, reasonCode, now);
      var (t, r) := Replay(s, id, operatorId, reasonCode, now);
      if t != s { TimedReplayed(p, s, id, operatorId, now, t, r); }
    case DoCancel(id, operatorId, reasonCode, now) =>
      CancelMeans(p, s, id, operatorId, reasonCode, now);
      var (t, r) := Cancel(s, id, operatorId, reasonCode, now);
      if t != s { TimedCancelled(p, s, id, operatorId, reasonCode, now, t, r); }
  }

  lemma TimedReplayed(p: RetryPolicy, s: State, id: string, operatorId: string, now: int, t: State, r: Reply)
    requires Inv(p, s) && AllTimed(p, s) && id in s.jobs && s.jobs[id].state == DeadLetter && ReplayedTo(s, id, operatorId, now, t, r)
    ensures AllTimed(p, t)
  {
    Facts(p, s, id);
    assert s.jobs[id].lease.None?;
    hide Inv, AllTimed, Line, JobOk, AttemptOk;
    TimedIdle(p, s, t, id, t.jobs[id]);
  }

  lemma TimedCancelled(p: RetryPolicy, s: State, id: string, operatorId: string, reasonCode: string, now: int, t: State, r: Reply)
    requires Inv(p, s) && AllTimed(p, s) && id in s.jobs && CancelledTo(s, id, operatorId, reasonCode, now, t, r)
    ensures AllTimed(p, t)
  {
    hide Inv, AllTimed, Line;
    if s.jobs[id].lease.Some? {
      LeaseIsOwn(p, s, id);
      var aid := s.jobs[id].lease.value.handle.attemptId;
      TimedBecomes(p, s, t, id, t.jobs[id], aid, t.attempts[aid]);
    } else {
      TimedIdle(p, s, t, id, t.jobs[id]);
    }
  }

  lemma TimedIdle(p: RetryPolicy, s: State, t: State, id: string, j': Job)
    requires Inv(p, s) && AllTimed(p, s) && t.jobs == s.jobs[id := j'] && t.attempts == s.attempts && j'.lease.None?
    ensures AllTimed(p, t)
  {
    hide Inv;
    forall x | x in t.jobs
      ensures Timed(p, t, x)
    {
      if x != id { assert Timed(p, s, x); }
    }
  }

  lemma StepTimed(p: RetryPolicy, s: State, c: Command)
    requires p.Valid() && Inv(p, s) && AllTimed(p, s) && Enabled(s, c)
    ensures AllTimed(p, Step(p, s, c).0)
  {
    hide Inv, AllTimed, Claim, Fail, ReclaimEach, IsPick, IsReapOrder;
    match c
    case DoClaim(workerId, attemptId, now, pick) => TimedClaim(p, s, workerId, attemptId, now, pick);
    case DoFail(h, failure, now) => TimedFail(p, s, h, failure, now);
    case DoReclaim(order, now) => if Safe(now) { TimedLoop(p, s, order, now); }
    case DoEnqueue(_) => TimedOperator(p, s, c);
    case DoReplay(_, _, _, _) => TimedOperator(p, s, c);
    case DoCancel(_, _, _, _) => TimedOperator(p, s, c);
    case _ => TimedHolder(p, s, c);
  }

  /** In every state of every run a lease ends exactly one lease duration after the last accepted heartbeat
      of its attempt, or after the claim if there was none: that is when the reaper may take it. */
  lemma {:induction false} LeaseRunsFromHeartbeat(p: RetryPolicy, commands: seq<Command>, states: seq<State>, i: nat)
    requires p.Valid() && IsRun(p, commands, states) && i < |states|
    ensures AllTimed(p, states[i])
  {
    if i > 0 {
      hide Inv, AllTimed, Enabled, Step;
      LeaseRunsFromHeartbeat(p, commands, states, i - 1);
      EveryStateOk(p, commands, states, i - 1);
      StepTimed(p, states[i - 1], commands[i - 1]);
      assert states[i] == Step(p, states[i - 1], commands[i - 1]).0;
    }
  }
}
