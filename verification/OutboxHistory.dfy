/** What the meaning of the single calls adds up to over a run of the Outbox. */
module OutboxHistory {
  import opened Texts
  import opened DurableWork
  import opened DurableMeaning
  import opened Outbox
  import opened OutboxInvariants
  import opened OutboxSteps
  import opened OutboxRuns
  import opened OutboxTime
  import opened OutboxMeaning
  import opened OutboxBatchMeaning

  // ---------------------------------------------------------------- dead letters wait for an operator

  /** `c` is a replay of `id`. */
  predicate Replays(c: Command, id: string)
  {
    c.DoReplay? && c.id == id
  }

  lemma HolderLeaves(p: RetryPolicy, s: State, c: Command, id: string)
    requires p.Valid() && Inv(p, s) && id in s.events && s.events[id].state == DeadLetter
    requires c.DoHeartbeat? || c.DoStart? || c.DoAcknowledge? || c.DoFail?
    ensures var t := Step(p, s, c).0; id in t.events && t.events[id] == s.events[id]
  {
    hide Inv, Heartbeat, StartDelivery, Acknowledge, FailDelivery, Complaint;
    match c
    case DoHeartbeat(h, now) => HeartbeatMeans(p, s, h, now);
    case DoStart(h, now) => StartMeans(p, s, h, now);
    case DoAcknowledge(h, ack, now) => AcknowledgeMeans(p, s, h, ack, now);
    case DoFail(h, failure, now) =>
      FailMeans(p, s, h, failure, now);
      hide Marked, Ended, Wait;
  }

  lemma BatchLeaves(p: RetryPolicy, s: State, c: Command, id: string)
    requires p.Valid() && Inv(p, s) && id in s.events && s.events[id].state == DeadLetter
    requires c.DoCommit? || (c.DoReplay? && c.id != id)
    ensures var t := Step(p, s, c).0; id in t.events && t.events[id] == s.events[id]
  {
    hide Inv, Commit, Replay, Trouble, Placed, Logged;
    match c
    case DoCommit(input) =>
      if input.transactionId in s.transactions { RepeatStays(s, input); } else { CommitMeans(p, s, input); }
    case DoReplay(other, operatorId, reasonCode, now) => ReplayMeans(p, s, other, operatorId, reasonCode, now);
  }

  lemma RepeatStays(s: State, input: CommitInput)
    requires input.transactionId in s.transactions
    ensures Commit(s, input).0 == s
  {
    hide Signature, Fetch;
  }

  /** The reaper changes only what is in flight, also when it is refused half way. */
  lemma {:induction false} ReaperLeaves(p: RetryPolicy, s: State, order: seq<string>, now: int, id: string)
    requires p.Valid() && Inv(p, s) && Safe(now) && id in s.events && s.events[id].state == DeadLetter
    ensures var t := ReclaimEach(p, s, order, now).0; id in t.events && t.events[id] == s.events[id]
    decreases |order|
  {
    hide Inv, Grew, ReclaimOne;
    if order != [] {
      ReclaimUnfold(p, s, order, now);
      hide ReclaimEach;
      TurnLeavesDead(p, s, order[0], now, id);
      ReclaimOneKeeps(p, s, order[0], now);
      ReaperLeaves(p, ReclaimOne(p, s, order[0], now).0, order[1..], now, id);
    }
  }

  lemma TurnLeavesDead(p: RetryPolicy, s: State, x: string, now: int, id: string)
    requires p.Valid() && Inv(p, s) && Safe(now) && id in s.events && s.events[id].state == DeadLetter
    ensures var t := ReclaimOne(p, s, x, now).0; id in t.events && t.events[id] == s.events[id]
  {
    TurnMeans(p, s, x, now);
    hide Inv, ReclaimOne, FailsTo, LostLease, Line;
    if IsExpired(s, x, now) {
      var aid := s.events[x].lease.value.handle.attemptId;
      var logged := s.(audit := s.audit + Line(s, LeaseLost, x, Some(aid), System, "lease-reaper", now));
      var (t, r) := ReclaimOne(p, s, x, now);
      OthersStay(p, logged, x, LostLease(Sent(s, x)), now, t, r, id);
    }
  }

  lemma OthersStay(p: RetryPolicy, s: State, x: string, failure: FailureCause, now: int, t: State, r: Reply, id: string)
    requires HasAttempt(s, x) && 1 <= s.events[x].attemptsInCycle && FailsTo(p, s, x, failure, now, System, "lease-reaper", Expired, t, r)
    requires id in s.events && id != x
    ensures id in t.events && t.events[id] == s.events[id]
  {
    hide Wait, Marked, Ended, Line;
  }

  /** No call but its replay touches a dead-lettered event, and no claim grants it. */
  lemma DeadLetterStays(p: RetryPolicy, s: State, c: Command, id: string)
    requires p.Valid() && Inv(p, s) && Enabled(s, c) && id in s.events && s.events[id].state == DeadLetter && !Replays(c, id)
    ensures var (t, r) := Step(p, s, c);
      id in t.events && t.events[id] == s.events[id] && !(r.Granted? && r.handle.workId == id)
  {
    hide Inv, IsReapOrder, ReclaimEach;
    match c
    case DoClaim(workerId, attemptId, now, destination, pick) =>
      ClaimMeans(p, s, workerId, attemptId, now, destination, pick);
      hide Claim, IsPick, Sooner;
    case DoReclaim(order, now) =>
      if Safe(now) { ReaperLeaves(p, s, order, now, id); }
      ReclaimGrantsNothing(p, s, order, now);
    case DoCommit(input) =>
      BatchLeaves(p, s, c, id);
      CommitGrantsNothing(s, input);
    case DoReplay(_, _, _, _) => BatchLeaves(p, s, c, id);
    case _ =>
      HolderLeaves(p, s, c, id);
      HolderGrantsNothing(p, s, c);
  }

  lemma CommitGrantsNothing(s: State, input: CommitInput)
    ensures !Commit(s, input).1.Granted?
  {
    hide Signature, BatchError, StoreFirst, NewRecords;
  }

  lemma HolderGrantsNothing(p: RetryPolicy, s: State, c: Command)
    requires c.DoHeartbeat? || c.DoStart? || c.DoAcknowledge? || c.DoFail?
    ensures !Step(p, s, c).1.Granted?
  {
    hide Admit, AddDuration, RetryAt;
  }

  lemma {:induction false} LoopGrantsNothing(p: RetryPolicy, s: State, order: seq<string>, now: int)
    ensures !ReclaimEach(p, s, order, now).1.Granted?
    decreases |order|
  {
    hide RetryAt;
    if order != [] { LoopGrantsNothing(p, ReclaimOne(p, s, order[0], now).0, order[1..], now); }
  }

  lemma ReclaimGrantsNothing(p: RetryPolicy, s: State, order: seq<string>, now: int)
    ensures !Reclaim(p, s, order, now).1.Granted?
  {
    hide ReclaimEach;
    LoopGrantsNothing(p, s, order, now);
  }

  ghost predicate NoReplay(commands: seq<Command>, i: nat, j: nat, id: string)
    requires j <= |commands|
  {
    forall k :: i <= k < j ==> !Replays(commands[k], id)
  }

  lemma {:induction false} WaitsForReplay(p: RetryPolicy, commands: seq<Command>, states: seq<State>, i: nat, j: nat, id: string)
    requires p.Valid() && IsRun(p, commands, states) && i <= j < |states| && NoReplay(commands, i, j, id)
    requires id in states[i].events && states[i].events[id].state == DeadLetter
    ensures id in states[j].events && states[j].events[id] == states[i].events[id]
    ensures forall k :: i <= k < j ==> !(Step(p, states[k], commands[k]).1.Granted? && Step(p, states[k], commands[k]).1.handle.workId == id)
    decreases j
  {
    hide Inv, Enabled, Step;
    if i < j {
      WaitsForReplay(p, commands, states, i, j - 1, id);
      EveryStateOk(p, commands, states, j - 1);
      DeadLetterStays(p, states[j - 1], commands[j - 1], id);
      assert states[j] == Step(p, states[j - 1], commands[j - 1]).0;
    }
  }

  /** After a failure that may not be retried the event is out of the way: until a replay no claim grants
      it, whatever calls come in between. */
  lemma PermanentFailureWaits(p: RetryPolicy, commands: seq<Command>, states: seq<State>, i: nat, j: nat, h: LeaseHandle, failure: FailureCause, now: int)
    requires p.Valid() && IsRun(p, commands, states) && i < j < |states| && NoReplay(commands, i + 1, j, h.workId)
    requires commands[i] == DoFail(h, failure, now) && !failure.retryable && !Step(p, states[i], commands[i]).1.Rejected?
    ensures h.workId in states[j].events && states[j].events[h.workId].state == DeadLetter
    ensures forall k :: i < k < j ==> !(Step(p, states[k], commands[k]).1.Granted? && Step(p, states[k], commands[k]).1.handle.workId == h.workId)
  {
    EveryStateOk(p, commands, states, i);
    FailMeans(p, states[i], h, failure, now);
    assert states[i + 1] == Step(p, states[i], commands[i]).0;
    hide Inv, Enabled, FailDelivery, Wait, Marked, Ended, Complaint;
    assert h.workId in states[i + 1].events && states[i + 1].events[h.workId].state == DeadLetter;
    hide Step, FailsTo;
    WaitsForReplay(p, commands, states, i + 1, j, h.workId);
  }

  // ---------------------------------------------------------------- delivery by position

  /** At every moment of a run, what stands before a delivered event in its stream, by change set and
      ordinal, is delivered too, and so is what stands before one in flight. */
  lemma DeliveredByPosition(p: RetryPolicy, commands: seq<Command>, states: seq<State>, i: nat, x: string, y: string)
    requires p.Valid() && IsRun(p, commands, states) && i < |states| && x in states[i].events && y in states[i].events
    requires states[i].events[y].state in {Delivered, Leased, Delivering} && StandsBefore(states[i].events[x], states[i].events[y])
    ensures states[i].events[x].state == Delivered
  {
    EveryStateOk(p, commands, states, i);
    PrecedesMeans(p, states[i], x, y);
    Facts(p, states[i], y);
    hide Inv, IsRun, StandsBefore, Precedes;
  }

  // ---------------------------------------------------------------- how long a lease lasts

  /** The lease of `id` ends one lease duration after the last heartbeat of its attempt. */
  predicate Timed(p: RetryPolicy, s: State, id: string)
  {
    HasAttempt(s, id) ==>
      var lease := s.events[id].lease.value;
      var a := s.attempts[lease.handle.attemptId];
      lease.acquiredAt == a.startedAt && lease.expiresAt == a.lastHeartbeatAt + p.leaseDurationMs
  }

  ghost predicate AllTimed(p: RetryPolicy, s: State)
  {
    forall id :: id in s.events ==> Timed(p, s, id)
  }

  lemma TimedBecomes(p: RetryPolicy, s: State, t: State, id: string, e': Event, aid: string, a': Attempt, records: seq<AuditRecord>)
    requires Inv(p, s) && AllTimed(p, s) && Becomes(s, t, id, e', aid, a', records) && id in s.events
    requires aid in s.attempts ==> s.attempts[aid].workId == id
    requires e'.lease.Some? ==>
      e'.lease.value.handle.attemptId == aid && e'.lease.value.acquiredAt == a'.startedAt && e'.lease.value.expiresAt == a'.lastHeartbeatAt + p.leaseDurationMs
    ensures AllTimed(p, t)
  {
    hide Inv;
    forall x | x in t.events
      ensures Timed(p, t, x)
    {
      if x != id && s.events[x].lease.Some? {
        LeaseIsOwn(p, s, x);
        assert Timed(p, s, x);
      }
    }
  }

  lemma TimedFails(p: RetryPolicy, s: State, id: string, failure: FailureCause, now: int, actor: Actor, actorId: string, retried: AttemptOutcome, t: State, r: Reply)
    requires Inv(p, s) && AllTimed(p, s) && HasAttempt(s, id) && 1 <= s.events[id].attemptsInCycle
    requires FailsTo(p, s, id, failure, now, actor, actorId, retried, t, r)
    ensures AllTimed(p, t)
  {
    hide Inv, AllTimed, Becomes, Wait, Line;
    LeaseIsOwn(p, s, id);
    var e, aid := s.events[id], s.events[id].lease.value.handle.attemptId;
    var m, a := Marked(e, failure, now), s.attempts[aid];
    if GivesUp(p, e, failure) {
      TimedBecomes(p, s, t, id, m.(state := DeadLetter), aid, Ended(a, failure, DeadLettered, now), Line(s, DeadLetters, id, Some(aid), actor, actorId, now));
    } else if Safe(now + Wait(p, e.attemptsInCycle)) {
      TimedBecomes(p, s, t, id, m.(state := RetryWait, availableAt := now + Wait(p, e.attemptsInCycle)), aid, Ended(a, failure, retried, now),
                   Line(s, RetryPlanned, id, Some(aid), actor, actorId, now));
    } else {
      TimedBecomes(p, s, t, id, m.(state := RetryWait), aid, Ended(a, failure, retried, now), []);
    }
  }

  lemma TimedHeartbeat(p: RetryPolicy, s: State, h: LeaseHandle, now: int)
    requires p.Valid() && Inv(p, s) && AllTimed(p, s)
    ensures AllTimed(p, Heartbeat(p, s, h, now).0)
  {
    HeartbeatMeans(p, s, h, now);
    hide Inv, AllTimed, RenewedTo, Heartbeat, Complaint;
    if IsCurrent(s, h, now, {Leased, Delivering}) { TimedRenewed(p, s, h, now, Heartbeat(p, s, h, now).0, Heartbeat(p, s, h, now).1); }
  }

  lemma TimedRenewed(p: RetryPolicy, s: State, h: LeaseHandle, now: int, t: State, r: Reply)
    requires Inv(p, s) && AllTimed(p, s) && h.workId in s.events && h.attemptId in s.attempts && s.events[h.workId].lease.Some?
    requires s.events[h.workId].lease.value.handle == h && RenewedTo(p, s, h, now, t, r)
    ensures AllTimed(p, t)
  {
    hide Inv, AllTimed, Becomes, Line;
    LeaseIsOwn(p, s, h.workId);
    TimedAt(p, s, h.workId);
    var e, lease, a := s.events[h.workId], s.events[h.workId].lease.value, s.attempts[h.attemptId];
    if Safe(now + p.leaseDurationMs) {
      TimedBecomes(p, s, t, h.workId, e.(lease := Some(ActiveLease(h, lease.acquiredAt, now, now + p.leaseDurationMs)), lastObservedAt := now),
                   h.attemptId, a.(lastHeartbeatAt := now), Line(s, Heartbeats, h.workId, Some(h.attemptId), Worker, h.workerId, now));
    } else {
      TimedBecomes(p, s, t, h.workId, e.(lease := Some(ActiveLease(h, lease.acquiredAt, now, lease.expiresAt))), h.attemptId, a, []);
    }
  }

  lemma TimedAt(p: RetryPolicy, s: State, id: string)
    requires AllTimed(p, s) && id in s.events
    ensures Timed(p, s, id)
  {
  }

  lemma TimedDelivery(p: RetryPolicy, s: State, h: LeaseHandle, ack: Acknowledgement, now: int)
    requires p.Valid() && Inv(p, s) && AllTimed(p, s)
    ensures AllTimed(p, StartDelivery(s, h, now).0) && AllTimed(p, Acknowledge(s, h, ack, now).0)
  {
    StartMeans(p, s, h, now);
    AcknowledgeMeans(p, s, h, ack, now);
    hide Inv, AllTimed, Becomes, StartDelivery, Acknowledge, Complaint, Line;
    if h.workId in s.events && h.attemptId in s.attempts && s.events[h.workId].lease.Some? && s.events[h.workId].lease.value.handle == h {
      LeaseIsOwn(p, s, h.workId);
      TimedAt(p, s, h.workId);
      var e, a := s.events[h.workId], s.attempts[h.attemptId];
      if IsCurrent(s, h, now, {Leased}) {
        TimedBecomes(p, s, StartDelivery(s, h, now).0, h.workId, e.(state := Delivering, stateChangedAt := now, lastObservedAt := now),
                     h.attemptId, a.(deliveryStartedAt := Some(now), observation := SentNoAck),
                     Line(s, DeliveryStarted, h.workId, Some(h.attemptId), Worker, h.workerId, now));
      }
      if AcknowledgedTo(s, h, ack, now, Acknowledge(s, h, ack, now).0, Acknowledge(s, h, ack, now).1) {
        TimedBecomes(p, s, Acknowledge(s, h, ack, now).0, h.workId,
                     e.(state := Delivered, stateChangedAt := now, lastObservedAt := now, lease := None, deliveredAt := Some(now), disposition := Some(ack.disposition)),
                     h.attemptId,
                     a.(finishedAt := Some(now), outcome := Succeeded, acknowledgedAt := Some(now), acknowledgedEventId := Some(h.workId),
                        consumerId := Some(ack.consumerId), disposition := Some(ack.disposition), observation := Observation.Acknowledged),
                     Line(s, DeliveryAcknowledged, h.workId, Some(h.attemptId), Worker, h.workerId, now));
      }
    }
  }

  lemma TimedFail(p: RetryPolicy, s: State, h: LeaseHandle, failure: FailureCause, now: int)
    requires p.Valid() && Inv(p, s) && AllTimed(p, s)
    ensures AllTimed(p, FailDelivery(p, s, h, failure, now).0)
  {
    FailMeans(p, s, h, failure, now);
    hide Inv, AllTimed, FailDelivery, Complaint, FailsTo, IsCurrent;
    var (t, r) := FailDelivery(p, s, h, failure, now);
    if t != s { TimedFails(p, s, h.workId, failure, now, Worker, h.workerId, RetryScheduled, t, r); }
  }

  lemma TimedClaim(p: RetryPolicy, s: State, workerId: string, attemptId: string, now: int, destination: Option<string>, pick: Option<string>)
    requires p.Valid() && Inv(p, s) && AllTimed(p, s) && IsPick(s, now, destination, pick)
    ensures AllTimed(p, Claim(p, s, workerId, attemptId, now, destination, pick).0)
  {
    ClaimMeans(p, s, workerId, attemptId, now, destination, pick);
    hide Inv, AllTimed, GrantedTo, Claim, IsPick, Sooner, Blank;
    var (t, r) := Claim(p, s, workerId, attemptId, now, destination, pick);
    if t != s { TimedGranted(p, s, workerId, attemptId, now, pick.value, t, r); }
  }

  lemma TimedGranted(p: RetryPolicy, s: State, workerId: string, attemptId: string, now: int, id: string, t: State, r: Reply)
    requires Inv(p, s) && AllTimed(p, s) && attemptId !in s.attempts && id in s.events && GrantedTo(p, s, workerId, attemptId, now, id, t, r)
    ensures AllTimed(p, t)
  {
    hide Inv, AllTimed, Becomes, Line;
    var e := s.events[id];
    var h := LeaseHandle(OutboxWork, id, attemptId, workerId, e.nextFencingToken);
    TimedBecomes(p, s, t, id,
                 e.(state := Leased, stateChangedAt := now, lastObservedAt := now, lease := Some(ActiveLease(h, now, now, now + p.leaseDurationMs)),
                    nextFencingToken := e.nextFencingToken + 1, attemptsInCycle := e.attemptsInCycle + 1, totalAttempts := e.totalAttempts + 1),
                 attemptId,
                 Attempt(id, workerId, h.fencingToken, e.replayCycle, e.attemptsInCycle + 1, e.totalAttempts + 1, now, now, None, Active, None,
                         None, None, None, None, None, NotSent),
                 Line(s, Claimed, id, Some(attemptId), Worker, workerId, now));
  }

  lemma TimedTurn(p: RetryPolicy, s: State, id: string, now: int)
    requires p.Valid() && Inv(p, s) && AllTimed(p, s) && Safe(now)
    ensures AllTimed(p, ReclaimOne(p, s, id, now).0)
  {
    TurnMeans(p, s, id, now);
    hide Inv, AllTimed, ReclaimOne, FailsTo, LostLease;
    if IsExpired(s, id, now) {
      var aid := s.events[id].lease.value.handle.attemptId;
      var logged := s.(audit := s.audit + Line(s, LeaseLost, id, Some(aid), System, "lease-reaper", now));
      var (t, r) := ReclaimOne(p, s, id, now);
      LoggedFails(p, s, logged, id, LostLease(Sent(s, id)), now, t, r);
    }
  }

  /** A failure after one more record in the log leaves the same events and attempts. */
  lemma LoggedFails(p: RetryPolicy, s: State, logged: State, id: string, failure: FailureCause, now: int, t: State, r: Reply)
    requires Inv(p, s) && AllTimed(p, s) && HasAttempt(s, id) && 1 <= s.events[id].attemptsInCycle && logged == s.(audit := logged.audit)
    requires FailsTo(p, logged, id, failure, now, System, "lease-reaper", Expired, t, r)
    ensures AllTimed(p, t)
  {
    hide Inv, Wait, Line;
    LeaseIsOwn(p, s, id);
    forall x | x in t.events
      ensures Timed(p, t, x)
    {
      if x != id && s.events[x].lease.Some? {
        LeaseIsOwn(p, s, x);
        assert Timed(p, s, x);
      }
    }
  }

  lemma {:induction false} TimedLoop(p: RetryPolicy, s: State, order: seq<string>, now: int)
    requires p.Valid() && Inv(p, s) && AllTimed(p, s) && Safe(now)
    ensures AllTimed(p, ReclaimEach(p, s, order, now).0)
    decreases |order|
  {
    hide Inv, Grew, AllTimed, ReclaimOne;
    if order != [] {
      ReclaimUnfold(p, s, order, now);
      hide ReclaimEach;
      TimedTurn(p, s, order[0], now);
      ReclaimOneKeeps(p, s, order[0], now);
      TimedLoop(p, ReclaimOne(p, s, order[0], now).0, order[1..], now);
    }
  }

  lemma TimedCommit(p: RetryPolicy, s: State, input: CommitInput)
    requires Inv(p, s) && AllTimed(p, s)
    ensures AllTimed(p, Commit(s, input).0)
  {
    if input.transactionId in s.transactions { RepeatStays(s, input); } else { CommitMeans(p, s, input); }
    hide Inv, AllTimed, Commit, Trouble, Stored, Transacted, Blank;
    var t := Commit(s, input).0;
    if t != s { TimedStored(p, s, t, t.(transactions := s.transactions), input); }
  }

  lemma TimedStored(p: RetryPolicy, s: State, t: State, u: State, input: CommitInput)
    requires AllTimed(p, s) && Stored(s, u, input, |input.events|) && u == t.(transactions := s.transactions)
    ensures AllTimed(p, t)
  {
    hide Placed, Logged;
    forall x | x in t.events
      ensures Timed(p, t, x)
    {
      if x in s.events { assert Timed(p, s, x); }
    }
  }

  lemma TimedReplay(p: RetryPolicy, s: State, id: string, operatorId: string, reasonCode: string, now: int)
    requires Inv(p, s) && AllTimed(p, s)
    ensures AllTimed(p, Replay(s, id, operatorId, reasonCode, now).0)
  {
    ReplayMeans(p, s, id, operatorId, reasonCode, now);
    if id in s.events { Facts(p, s, id); }
    hide Inv, Replay, IsAuditCode, CycleBudget;
    var t := Replay(s, id, operatorId, reasonCode, now).0;
    forall x | x in t.events
      ensures Timed(p, t, x)
    {
      assert x in s.events && Timed(p, s, x);
    }
  }

  lemma StepTimed(p: RetryPolicy, s: State, c: Command)
    requires p.Valid() && Inv(p, s) && AllTimed(p, s) && Enabled(s, c)
    ensures AllTimed(p, Step(p, s, c).0)
  {
    hide Inv, AllTimed, Commit, Claim, Heartbeat, StartDelivery, Acknowledge, FailDelivery, ReclaimEach, Replay, IsPick, IsReapOrder;
    match c
    case DoCommit(input) => TimedCommit(p, s, input);
    case DoClaim(workerId, attemptId, now, destination, pick) => TimedClaim(p, s, workerId, attemptId, now, destination, pick);
    case DoHeartbeat(h, now) => TimedHeartbeat(p, s, h, now);
    case DoStart(h, now) => TimedDelivery(p, s, h, Acknowledgement("", "", Applied), now);
    case DoAcknowledge(h, ack, now) => TimedDelivery(p, s, h, ack, now);
    case DoFail(h, failure, now) => TimedFail(p, s, h, failure, now);
    case DoReclaim(order, now) => if Safe(now) { TimedLoop(p, s, order, now); }
    case DoReplay(id, operatorId, reasonCode, now) => TimedReplay(p, s, id, operatorId, reasonCode, now);
  }

  /** In every state of every run a lease ends exactly one lease duration after the last accepted heartbeat
      of its attempt, or after the claim if there was none: that is when the reaper may take it. */
  lemma {:induction false} LeaseRunsFromHeartbeat(p: RetryPolicy, commands: seq<Command>, states: seq<State>, i: nat)
    requires p.Valid() && IsRun(p, commands, states) && i < |states|
    ensures AllTimed(p, states[i])
  {
    if i > 0 {
      hide Inv, AllTimed, Enabled, Step;
      LeaseRunsFromHeartbeat(p, commands, states, i - 1);
      EveryStateOk(p, commands, states, i - 1);
      StepTimed(p, states[i - 1], commands[i - 1]);
      assert states[i] == Step(p, states[i - 1], commands[i - 1]).0;
    }
  }
}
