/** Every operation of the Outbox keeps the invariant and takes nothing back. */
module OutboxSteps {
  import opened Texts
  import opened DurableWork
  import opened Outbox
  import opened OutboxInvariants

  ghost predicate Keeps(p: RetryPolicy, s: State, s': State)
  {
    Inv(p, s') && Grew(s, s')
  }

  lemma KeepsSelf(p: RetryPolicy, s: State)
    requires Inv(p, s)
    ensures Keeps(p, s, s)
  {
  }

  lemma IdsAreKeys(p: RetryPolicy, s: State)
    requires Inv(p, s)
    ensures IdsOk(s.events)
  {
    forall x | x in s.events
      ensures s.events[x].def.id == x
    {
      assert EventOk(p, x, s.events[x]);
    }
  }

  lemma TouchEvents(p: RetryPolicy, events: Events, id: string, e': Event)
    requires EventsOk(p, events) && id in events && EventOk(p, id, e') && EventGrew(events[id], e')
    ensures EventsOk(p, events[id := e']) && EventsGrew(events, events[id := e'])
  {
  }

  lemma Facts(p: RetryPolicy, s: State, id: string)
    requires Inv(p, s) && id in s.events
    ensures IdsOk(s.events) && EventOk(p, id, s.events[id])
    ensures Advanced(s.events[id]) ==> PredecessorsDelivered(s.events, s.events[id])
    ensures s.events[id].lease.Some? ==>
      var aid := s.events[id].lease.value.handle.attemptId;
      aid in s.attempts && s.attempts[aid].workId == id && AttemptOk(s.events[id], aid, s.attempts[aid])
  {
    IdsAreKeys(p, s);
  }

  /** The lease holder of event `id` moves it to `e'`, its attempt to `a'`, and logs `r` if told to. */
  lemma HolderStep(p: RetryPolicy, s: State, id: string, e': Event, a': Attempt, log: bool, r: AuditRecord)
    requires Inv(p, s) && id in s.events && s.events[id].lease.Some?
    requires EventOk(p, id, e') && EventGrew(s.events[id], e') && e'.totalAttempts == s.events[id].totalAttempts
    requires HasAttempt(s, id)
    requires var aid := s.events[id].lease.value.handle.attemptId;
      AttemptGrew(s.attempts[aid], a') && AttemptOk(e', aid, a') && (e'.lease.Some? ==> Holds(e', aid))
    requires log ==> r.workId == id && r.sequence == |s.audit| + 1
    requires log ==> (r.kind == DeliveryAcknowledged <==> e'.state == Delivered)
    requires !log ==> e'.state != Delivered
    ensures Keeps(p, s, s.(events := s.events[id := e'],
                           attempts := s.attempts[s.events[id].lease.value.handle.attemptId := a'],
                           audit := if log then s.audit + [r] else s.audit))
  {
    hide EventsOk, AttemptsOk, CountsOk, OrderOk, PositionsOk, TransactionsOk, AuditOk, EventsGrew, CycleBudget;
    var e := s.events[id];
    var aid := e.lease.value.handle.attemptId;
    Facts(p, s, id);
    TouchEvents(p, s.events, id, e');
    TouchAttempts(s.events, s.attempts, id, e', aid, a');
    KeepOrder(s.events, id, e');
    KeepIndexes(s.events, id, e', s.positions, s.transactions);
    if log { TouchAudit(s.events, id, e', s.audit, r); } else { TouchAuditSilently(s.events, id, e', s.audit); }
  }

  /** An admitted caller holds the one lease of its event, and its attempt is the active one. */
  lemma Admitted(p: RetryPolicy, s: State, h: LeaseHandle, now: int, phases: set<EventState>)
    requires Inv(p, s)
    ensures Admit(s, h, now, phases).Ok? ==>
      h.workId in s.events && HasAttempt(s, h.workId) && InFlight(s.events[h.workId]) &&
      h == s.events[h.workId].lease.value.handle && h.attemptId in s.attempts &&
      s.attempts[h.attemptId].outcome == Active && s.attempts[h.attemptId].workId == h.workId &&
      AttemptOk(s.events[h.workId], h.attemptId, s.attempts[h.attemptId]) && EventOk(p, h.workId, s.events[h.workId])
  {
    if Admit(s, h, now, phases).Ok? {
      var e := s.events[h.workId];
      assert EventOk(p, h.workId, e);
      assert LeasesMatch(s.events, s.attempts);
      assert AttemptOk(e, h.attemptId, s.attempts[h.attemptId]);
    }
  }

  lemma HeartbeatKeeps(p: RetryPolicy, s: State, h: LeaseHandle, now: int)
    requires p.Valid() && Inv(p, s)
    ensures Keeps(p, s, Heartbeat(p, s, h, now).0)
  {
    hide Inv, Keeps, CycleBudget;
    KeepsSelf(p, s);
    Admitted(p, s, h, now, {Leased, Delivering});
    if Admit(s, h, now, {Leased, Delivering}).Ok? {
      var e, a, lease := s.events[h.workId], s.attempts[h.attemptId], s.events[h.workId].lease.value;
      var expiry := AddDuration(now, p.leaseDurationMs);
      if expiry.Err? {
        HolderStep(p, s, h.workId, e.(lease := Some(lease.(heartbeatAt := now))), a, false, LogRecord(s, h, Heartbeats, now));
        assert s.attempts[h.attemptId := a] == s.attempts;
      } else {
        HolderStep(p, s, h.workId, e.(lease := Some(lease.(heartbeatAt := now, expiresAt := expiry.value)), lastObservedAt := now),
                   a.(lastHeartbeatAt := now), true, LogRecord(s, h, Heartbeats, now));
      }
    }
  }

  function LogRecord(s: State, h: LeaseHandle, kind: AuditKind, now: int): AuditRecord
  {
    AuditRecord(|s.audit| + 1, kind, h.workId, Some(h.attemptId), Worker, h.workerId, now)
  }

  lemma StartKeeps(p: RetryPolicy, s: State, h: LeaseHandle, now: int)
    requires Inv(p, s)
    ensures Keeps(p, s, StartDelivery(s, h, now).0)
  {
    hide Inv, Keeps, CycleBudget;
    KeepsSelf(p, s);
    Admitted(p, s, h, now, {Leased});
    if Admit(s, h, now, {Leased}).Ok? {
      var e, a := s.events[h.workId], s.attempts[h.attemptId];
      HolderStep(p, s, h.workId, e.(state := Delivering, stateChangedAt := now, lastObservedAt := now),
                 a.(deliveryStartedAt := Some(now), observation := SentNoAck), true,
                 LogRecord(s, h, DeliveryStarted, now));
    }
  }

  lemma AcknowledgeKeeps(p: RetryPolicy, s: State, h: LeaseHandle, ack: Acknowledgement, now: int)
    requires Inv(p, s)
    ensures Keeps(p, s, Acknowledge(s, h, ack, now).0)
  {
    hide Inv, Keeps, CycleBudget;
    KeepsSelf(p, s);
    Admitted(p, s, h, now, {Delivering});
    if Acknowledge(s, h, ack, now).1.Events? {
      var e, a := s.events[h.workId], s.attempts[h.attemptId];
      var e' := e.(state := Delivered, stateChangedAt := now, lastObservedAt := now, lease := None,
                   deliveredAt := Some(now), disposition := Some(ack.disposition));
      var a' := a.(finishedAt := Some(now), outcome := Succeeded, acknowledgedAt := Some(now),
                   acknowledgedEventId := Some(ack.eventId), consumerId := Some(ack.consumerId),
                   disposition := Some(ack.disposition), observation := Acknowledged);
      HolderStep(p, s, h.workId, e', a', true, LogRecord(s, h, DeliveryAcknowledged, now));
    }
  }

  lemma FinishKeeps(p: RetryPolicy, s: State, id: string, failure: FailureCause, now: int,
                    actor: Actor, actorId: string, retried: AttemptOutcome)
    requires Inv(p, s) && HasAttempt(s, id) && retried != Active
    ensures Keeps(p, s, FinishFailure(p, s, id, failure, now, actor, actorId, retried).0)
  {
    hide Inv, Keeps, CycleBudget;
    KeepsSelf(p, s);
    var aid := s.events[id].lease.value.handle.attemptId;
    FinishFacts(p, s, id, failure, now, actor, actorId, retried);
    var next := FinishFailure(p, s, id, failure, now, actor, actorId, retried);
    var retry := CanRetry(p, s.events[id], failure);
    var r := AuditRecord(|s.audit| + 1, if retry then RetryPlanned else DeadLetters, id, Some(aid), actor, actorId, now);
    hide EventOk, AttemptOk, EventGrew, AttemptGrew, CanRetry, RetryAt;
    HolderStep(p, s, id, next.0.events[id], next.0.attempts[aid], next.1.Events?, r);
  }

  lemma FinishFacts(p: RetryPolicy, s: State, id: string, failure: FailureCause, now: int,
                    actor: Actor, actorId: string, retried: AttemptOutcome)
    requires Inv(p, s) && HasAttempt(s, id) && retried != Active
    ensures var next := FinishFailure(p, s, id, failure, now, actor, actorId, retried).0;
      var e, e', aid := s.events[id], next.events[id], s.events[id].lease.value.handle.attemptId;
      EventOk(p, id, e') && EventGrew(e, e') && e'.totalAttempts == e.totalAttempts && e'.lease.None? && e'.state != Delivered &&
      aid in next.attempts && AttemptGrew(s.attempts[aid], next.attempts[aid]) && AttemptOk(e', aid, next.attempts[aid])
  {
    hide Inv, RetryAt, CycleBudget, Log;
    Facts(p, s, id);
  }

  lemma FailKeeps(p: RetryPolicy, s: State, h: LeaseHandle, failure: FailureCause, now: int)
    requires Inv(p, s)
    ensures Keeps(p, s, FailDelivery(p, s, h, failure, now).0)
  {
    hide Inv, Keeps, CycleBudget;
    KeepsSelf(p, s);
    Admitted(p, s, h, now, {Leased, Delivering});
    if ValidFailure(failure) && Admit(s, h, now, {Leased, Delivering}).Ok? {
      FinishKeeps(p, s, h.workId, failure, now, Worker, h.workerId, RetryScheduled);
    }
  }

  lemma LogLeaseLost(p: RetryPolicy, s: State, id: string, now: int)
    requires Inv(p, s) && HasAttempt(s, id)
    ensures Keeps(p, s, s.(audit := Log(s.audit, LeaseLost, id, Some(s.events[id].lease.value.handle.attemptId),
                                        System, "lease-reaper", now)))
  {
    hide Inv, Keeps, CycleBudget;
    KeepsSelf(p, s);
    var e := s.events[id];
    var aid := e.lease.value.handle.attemptId;
    Facts(p, s, id);
    HolderStep(p, s, id, e, s.attempts[aid], true,
               AuditRecord(|s.audit| + 1, LeaseLost, id, Some(aid), System, "lease-reaper", now));
    assert s.events[id := e] == s.events && s.attempts[aid := s.attempts[aid]] == s.attempts;
  }

  lemma ReclaimOneKeeps(p: RetryPolicy, s: State, id: string, now: int)
    requires Inv(p, s)
    ensures Keeps(p, s, ReclaimOne(p, s, id, now).0)
  {
    hide Inv, Grew;
    KeepsSelf(p, s);
    if LeaseIsOver(s, id, now) && s.events[id].lastObservedAt <= now && HasAttempt(s, id) {
      var aid := s.events[id].lease.value.handle.attemptId;
      LogLeaseLost(p, s, id, now);
      var logged := s.(audit := Log(s.audit, LeaseLost, id, Some(aid), System, "lease-reaper", now));
      FinishKeeps(p, logged, id, ExpiryCause(s.attempts[aid].deliveryStartedAt.Some?), now, System, "lease-reaper", Expired);
      GrewTransitive(s, logged, ReclaimOne(p, s, id, now).0);
    }
  }

  lemma {:induction false} ReclaimKeeps(p: RetryPolicy, s: State, order: seq<string>, now: int)
    requires Inv(p, s)
    ensures Keeps(p, s, ReclaimEach(p, s, order, now).0)
    decreases |order|
  {
    hide Inv, Grew;
    KeepsSelf(p, s);
    if order != [] {
      var one := ReclaimOne(p, s, order[0], now);
      ReclaimOneKeeps(p, s, order[0], now);
      if one.1.Events? {
        ReclaimKeeps(p, one.0, order[1..], now);
        GrewTransitive(s, one.0, ReclaimEach(p, one.0, order[1..], now).0);
      }
    }
  }

  lemma ReplayKeeps(p: RetryPolicy, s: State, id: string, operatorId: string, reasonCode: string, now: int)
    requires p.Valid() && Inv(p, s)
    ensures Keeps(p, s, Replay(s, id, operatorId, reasonCode, now).0)
  {
    hide EventsOk, AttemptsOk, CountsOk, OrderOk, PositionsOk, TransactionsOk, AuditOk, EventsGrew, CycleBudget;
    KeepsSelf(p, s);
    var next := Replay(s, id, operatorId, reasonCode, now);
    if next.1.Events? {
      var e, e' := s.events[id], next.0.events[id];
      Facts(p, s, id);
      NextCycle(e.replayCycle, p.maximumAttemptsPerCycle);
      TouchEvents(p, s.events, id, e');
      TouchIdle(s.events, s.attempts, id, e');
      KeepOrder(s.events, id, e');
      KeepIndexes(s.events, id, e', s.positions, s.transactions);
      TouchAudit(s.events, id, e', s.audit, AuditRecord(|s.audit| + 1, Replayed, id, None, Operator, operatorId, now));
    }
  }

  lemma ClaimKeeps(p: RetryPolicy, s: State, workerId: string, attemptId: string, now: int,
                   destination: Option<string>, pick: Option<string>)
    requires p.Valid() && Inv(p, s) && IsPick(s, now, destination, pick)
    ensures Keeps(p, s, Claim(p, s, workerId, attemptId, now, destination, pick).0)
  {
    hide EventsOk, AttemptsOk, CountsOk, OrderOk, PositionsOk, TransactionsOk, AuditOk, EventsGrew, EventOk, AttemptOk, EventGrew;
    KeepsSelf(p, s);
    var next := Claim(p, s, workerId, attemptId, now, destination, pick);
    if next.1.Granted? {
      var id := pick.value;
      var e' := next.0.events[id];
      Facts(p, s, id);
      ClaimFacts(p, s, workerId, attemptId, now, destination, id);
      TouchEvents(p, s.events, id, e');
      AddAttempt(s.events, s.attempts, id, e', attemptId, next.0.attempts[attemptId]);
      KeepOrder(s.events, id, e');
      KeepIndexes(s.events, id, e', s.positions, s.transactions);
      TouchAudit(s.events, id, e', s.audit, AuditRecord(|s.audit| + 1, Claimed, id, Some(attemptId), Worker, workerId, now));
    }
  }

  lemma ClaimFacts(p: RetryPolicy, s: State, workerId: string, attemptId: string, now: int, destination: Option<string>, id: string)
    requires p.Valid() && Inv(p, s) && Claimable(s, id, now, destination) && Claim(p, s, workerId, attemptId, now, destination, Some(id)).1.Granted?
    ensures var t := Claim(p, s, workerId, attemptId, now, destination, Some(id)).0; var e, e' := s.events[id], t.events[id];
      EventOk(p, id, e') && EventGrew(e, e') && Holds(e', attemptId) && AttemptOk(e', attemptId, t.attempts[attemptId]) &&
      e'.totalAttempts == e.totalAttempts + 1 == t.attempts[attemptId].fencingToken && e.lease.None? && e.state != Delivered && e'.state != Delivered
  {
    hide Inv, CycleBudget, Log, PredecessorsDelivered;
    Facts(p, s, id);
  }
}
