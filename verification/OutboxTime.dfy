/** Database time in the Outbox: when a rejected call leaves a trace, when a claim can meet a time
    regression, and what the lease reaper leaves behind. Both faults need `databaseNow` plus the
    lease or the backoff to exceed 2^53 - 1. */
module OutboxTime {
  import opened Texts
  import opened DurableWork
  import opened Outbox
  import opened OutboxInvariants
  import opened OutboxSteps
  import opened OutboxRuns

  /** A retry that cannot be scheduled: the retry time leaves the safe integers. */
  predicate Overflows(p: RetryPolicy, e: Event, failure: FailureCause, now: int)
  {
    CanRetry(p, e, failure) && RetryAt(now, e.attemptsInCycle, p).Err?
  }

  /** The reaper meets an expired lease whose retry cannot be scheduled. */
  ghost predicate ReaperOverflows(p: RetryPolicy, s: State, now: int)
  {
    exists id :: LeaseIsOver(s, id, now) && Overflows(p, s.events[id], ExpiryCause(false), now)
  }

  /** A caller can read from the state and its arguments that the call will fail half way. */
  ghost predicate Leaks(p: RetryPolicy, s: State, c: Command)
  {
    match c
    case DoHeartbeat(h, now) =>
      Admit(s, h, now, {Leased, Delivering}).Ok? && AddDuration(now, p.leaseDurationMs).Err? &&
      s.events[h.workId].lease.value.heartbeatAt != now
    case DoFail(h, failure, now) =>
      ValidFailure(failure) && Admit(s, h, now, {Leased, Delivering}).Ok? && Overflows(p, s.events[h.workId], failure, now)
    case DoReclaim(_, now) => IsTime(now) && ReaperOverflows(p, s, now)
    case _ => false
  }

  // ---------------------------------------------------------------- the reaper

  /** Event `e` under an expired lease, and what one turn of the reaper makes of it. */
  predicate Reaped(p: RetryPolicy, e: Event, now: int, e': Event, r: Reply)
  {
    e'.lease.None? && e'.lastObservedAt == now && (e'.state == RetryWait || e'.state == DeadLetter) &&
    if Overflows(p, e, ExpiryCause(false), now)
    then r == Rejected(InvalidArgument) && e'.state == RetryWait && e'.availableAt < now
    else r.Events? && (e'.state == RetryWait ==> now < e'.availableAt)
  }

  lemma FinishReaps(p: RetryPolicy, s: State, id: string, sent: bool, now: int)
    requires p.Valid() && HasAttempt(s, id) && s.events[id].availableAt < now
    ensures var (t, r) := FinishFailure(p, s, id, ExpiryCause(sent), now, System, "lease-reaper", Expired);
      t.events.Keys == s.events.Keys && (forall x :: x in s.events && x != id ==> t.events[x] == s.events[x]) &&
      |t.audit| >= |s.audit| && Reaped(p, s.events[id], now, t.events[id], r)
  {
    RetryAtIsLater(now, s.events[id].attemptsInCycle, p);
    hide RetryAt;
  }

  lemma ReclaimOneOutcome(p: RetryPolicy, s: State, id: string, now: int)
    requires p.Valid() && Inv(p, s)
    ensures var (t, r) := ReclaimOne(p, s, id, now);
      t.events.Keys == s.events.Keys && (forall x :: x in s.events && x != id ==> t.events[x] == s.events[x]) &&
      (!LeaseIsOver(s, id, now) ==> t == s && r == Events([])) &&
      (LeaseIsOver(s, id, now) ==>
         |t.audit| > |s.audit| && Reaped(p, s.events[id], now, t.events[id], r) && t.events[id].lease.None? &&
         (r.Events? <==> !Overflows(p, s.events[id], ExpiryCause(false), now)) && (r.Events? || r == Rejected(InvalidArgument)))
  {
    hide Inv, FinishFailure;
    if LeaseIsOver(s, id, now) {
      Facts(p, s, id);
      var aid := s.events[id].lease.value.handle.attemptId;
      var logged := s.(audit := Log(s.audit, LeaseLost, id, Some(aid), System, "lease-reaper", now));
      FinishReaps(p, logged, id, s.attempts[aid].deliveryStartedAt.Some?, now);
    }
  }

  /** No expired lease of `order` stops the reaper. */
  ghost predicate Clear(p: RetryPolicy, s: State, order: seq<string>, now: int)
  {
    forall id :: id in order && LeaseIsOver(s, id, now) ==> !Overflows(p, s.events[id], ExpiryCause(false), now)
  }

  ghost predicate NoneOver(s: State, order: seq<string>, now: int)
  {
    forall id :: id in order ==> !LeaseIsOver(s, id, now)
  }

  lemma ClearStep(p: RetryPolicy, s: State, t: State, order: seq<string>, now: int)
    requires order != [] && NoRepeats(order) && t.events.Keys == s.events.Keys
    requires forall x :: x in s.events && x != order[0] ==> t.events[x] == s.events[x]
    ensures order[0] !in order[1..] && NoRepeats(order[1..])
    ensures Clear(p, s, order, now) <==>
      Clear(p, t, order[1..], now) && (LeaseIsOver(s, order[0], now) ==> !Overflows(p, s.events[order[0]], ExpiryCause(false), now))
  {
    hide Overflows;
    assert order == [order[0]] + order[1..];
    assert order[0] !in order[1..];
    forall id | id in order[1..]
      ensures LeaseIsOver(s, id, now) <==> LeaseIsOver(t, id, now)
      ensures LeaseIsOver(s, id, now) ==> t.events[id] == s.events[id]
    {
    }
  }

  /** The reaper worked through `order` from `s` to `t` and answered `r`. */
  ghost predicate Outcome(p: RetryPolicy, s: State, order: seq<string>, now: int, t: State, r: Reply)
  {
    (r.Events? || r == Rejected(InvalidArgument)) && (r.Events? <==> Clear(p, s, order, now)) &&
    (r.Events? ==> NoneOver(t, order, now)) && (r.Rejected? ==> |t.audit| > |s.audit|) && |t.audit| >= |s.audit| &&
    SameOutside(s, t, order)
  }

  ghost predicate SameOutside(s: State, t: State, order: seq<string>)
  {
    t.events.Keys == s.events.Keys && forall x :: x in s.events && x !in order ==> t.events[x] == s.events[x]
  }

  lemma SameOutsideStep(s: State, t: State, u: State, order: seq<string>)
    requires order != [] && t.events.Keys == s.events.Keys
    requires forall x :: x in s.events && x != order[0] ==> t.events[x] == s.events[x]
    requires u == t || SameOutside(t, u, order[1..])
    ensures SameOutside(s, u, order)
  {
    assert order == [order[0]] + order[1..];
  }

  lemma ReclaimUnfold(p: RetryPolicy, s: State, order: seq<string>, now: int)
    requires order != []
    ensures var one := ReclaimOne(p, s, order[0], now);
      ReclaimEach(p, s, order, now) ==
      if !one.1.Events? then one
      else
        var rest := ReclaimEach(p, one.0, order[1..], now);
        (rest.0, if rest.1.Events? then Events(one.1.events + rest.1.events) else rest.1)
  {
    hide ReclaimOne;
  }

  /** What one turn does to the event at the head of the order. */
  ghost predicate Turn(p: RetryPolicy, s: State, id: string, now: int, t: State, r: Reply)
  {
    t.events.Keys == s.events.Keys && (forall x :: x in s.events && x != id ==> t.events[x] == s.events[x]) &&
    (!LeaseIsOver(s, id, now) ==> t == s && r == Events([])) &&
    (LeaseIsOver(s, id, now) ==>
       |t.audit| > |s.audit| && t.events[id].lease.None? && (r.Events? <==> !Overflows(p, s.events[id], ExpiryCause(false), now)) &&
       (r.Events? || r == Rejected(InvalidArgument)))
  }

  lemma TurnHappens(p: RetryPolicy, s: State, id: string, now: int)
    requires p.Valid() && Inv(p, s)
    ensures Turn(p, s, id, now, ReclaimOne(p, s, id, now).0, ReclaimOne(p, s, id, now).1)
  {
    hide Inv, ReclaimOne, Reaped, Overflows;
    ReclaimOneOutcome(p, s, id, now);
  }

  lemma StoppedAt(p: RetryPolicy, s: State, order: seq<string>, now: int, t: State, r: Reply)
    requires order != [] && NoRepeats(order) && Turn(p, s, order[0], now, t, r) && !r.Events?
    ensures Outcome(p, s, order, now, t, r)
  {
    hide Clear, Overflows, SameOutside, NoneOver, NoRepeats, LeaseIsOver;
    ClearStep(p, s, t, order, now);
    SameOutsideStep(s, t, t, order);
  }

  lemma WentOn(p: RetryPolicy, s: State, order: seq<string>, now: int, t: State, r: Reply, u: State, rest: Reply, all: Reply)
    requires order != [] && NoRepeats(order) && Turn(p, s, order[0], now, t, r) && r.Events? && Outcome(p, t, order[1..], now, u, rest)
    requires if rest.Events? then all.Events? else all == rest
    ensures Outcome(p, s, order, now, u, all)
  {
    hide Clear, Overflows, SameOutside, NoneOver, NoRepeats, LeaseIsOver;
    ClearStep(p, s, t, order, now);
    SameOutsideStep(s, t, u, order);
    HeadNotOver(t, u, order, now);
  }

  lemma NothingToReap(p: RetryPolicy, s: State, now: int)
    ensures Outcome(p, s, [], now, s, Events([]))
  {
  }

  /** The reaper works through `order` unless a retry overflows; if it finishes, no lease it saw
      is still expired. It never meets a time regression. */
  lemma {:induction false} ReclaimOutcome(p: RetryPolicy, s: State, order: seq<string>, now: int)
    requires p.Valid() && Inv(p, s) && NoRepeats(order)
    ensures Outcome(p, s, order, now, ReclaimEach(p, s, order, now).0, ReclaimEach(p, s, order, now).1)
    decreases |order|
  {
    hide Inv, Grew, ReclaimOne, Outcome, Turn;
    if order == [] {
      NothingToReap(p, s, now);
    } else {
      ReclaimUnfold(p, s, order, now);
      hide ReclaimEach;
      var one := ReclaimOne(p, s, order[0], now);
      TurnHappens(p, s, order[0], now);
      ReclaimOneKeeps(p, s, order[0], now);
      if one.1.Events? {
        var rest := ReclaimEach(p, one.0, order[1..], now);
        ReclaimOutcome(p, one.0, order[1..], now);
        WentOn(p, s, order, now, one.0, one.1, rest.0, rest.1, ReclaimEach(p, s, order, now).1);
      } else {
        StoppedAt(p, s, order, now, one.0, one.1);
      }
    }
  }

  lemma HeadNotOver(s: State, t: State, order: seq<string>, now: int)
    requires order != [] && order[0] !in order[1..] && SameOutside(s, t, order[1..])
    requires LeaseIsOver(s, order[0], now) ==> s.events[order[0]].lease.None?
    ensures NoneOver(t, order[1..], now) ==> NoneOver(t, order, now)
  {
    assert order == [order[0]] + order[1..];
    assert !LeaseIsOver(t, order[0], now);
  }

  lemma ReapOrderFacts(s: State, order: seq<string>)
    requires IsReapOrder(s, order)
    ensures NoRepeats(order)
  {
    forall i, j | 0 <= i < j < |order|
      ensures order[i] != order[j]
    {
      ClaimedFirstOrder(s.events[order[i]], s.events[order[j]]);
    }
  }

  /** `compareEvents` is a strict order, total on events with different ids. */
  lemma ClaimedFirstOrder(a: Event, b: Event)
    ensures !(ClaimedFirst(a, b) && ClaimedFirst(b, a))
    ensures a.def.id != b.def.id ==> ClaimedFirst(a, b) || ClaimedFirst(b, a)
  {
    hide StreamKey;
    LessTotal(StreamKey(StreamOf(a)), StreamKey(StreamOf(b)));
    BeforeCases(a.def, b.def);
    BeforeAsymmetric(a.def, b.def);
    hide Before;
  }

  /** The claim has one answer, whatever order the events are stored in. */
  lemma PickIsUnique(p: RetryPolicy, s: State, now: int, destination: Option<string>, x: Option<string>, y: Option<string>)
    requires Inv(p, s) && IsPick(s, now, destination, x) && IsPick(s, now, destination, y)
    ensures x == y
  {
    IdsAreKeys(p, s);
    hide Inv, ClaimedFirst, PredecessorsDelivered;
    if x.Some? && y.Some? { ClaimedFirstOrder(s.events[x.value], s.events[y.value]); }
  }

  /** When the reaper succeeds at `now`, no lease that expires at or before `now` is left; it is
      rejected exactly when a retry would overflow, and never for a time regression. */
  lemma ReapedClean(p: RetryPolicy, s: State, order: seq<string>, now: int)
    requires p.Valid() && Inv(p, s) && IsReapOrder(s, order) && IsTime(now)
    ensures var (t, r) := Reclaim(p, s, order, now);
      (r.Events? || r == Rejected(InvalidArgument)) && (r.Rejected? <==> ReaperOverflows(p, s, now)) &&
      (r.Events? ==> forall id :: id in t.events && t.events[id].lease.Some? && InFlight(t.events[id]) ==>
                       now < t.events[id].lease.value.expiresAt)
  {
    ReapOrderFacts(s, order);
    ReclaimOutcome(p, s, order, now);
    hide Inv, Overflows, ReclaimEach;
    var (t, r) := Reclaim(p, s, order, now);
    if r.Events? {
      forall id | id in t.events && t.events[id].lease.Some? && InFlight(t.events[id])
        ensures now < t.events[id].lease.value.expiresAt
      {
        assert id in s.events && id in order;
        assert !LeaseIsOver(t, id, now);
      }
    }
  }

  /** A rejected call leaves the state exactly as it was unless it leaks, and a leaking call
      always changes it. */
  lemma RejectedChangesNothing(p: RetryPolicy, s: State, c: Command)
    requires p.Valid() && Inv(p, s) && Enabled(s, c) && Step(p, s, c).1.Rejected?
    ensures Step(p, s, c).0 == s <==> !Leaks(p, s, c)
  {
    hide Inv, Commit, Claim, Heartbeat, StartDelivery, Acknowledge, FailDelivery, Reclaim, Replay, Admit, ReaperOverflows, IsReapOrder;
    match c
    case DoHeartbeat(h, now) => HeartbeatLeak(p, s, h, now);
    case DoFail(h, failure, now) => FailLeak(p, s, h, failure, now);
    case DoReclaim(order, now) => ReclaimLeak(p, s, order, now);
    case DoCommit(input) => CommitClean(s, input);
    case DoClaim(workerId, attemptId, now, destination, pick) => ClaimClean(p, s, workerId, attemptId, now, destination, pick);
    case DoStart(h, now) => HolderClean(s, h, Acknowledgement("", "", Applied), now);
    case DoAcknowledge(h, ack, now) => HolderClean(s, h, ack, now);
    case DoReplay(id, operatorId, reasonCode, now) => ReplayClean(s, id, operatorId, reasonCode, now);
  }

  lemma ReclaimLeak(p: RetryPolicy, s: State, order: seq<string>, now: int)
    requires p.Valid() && Inv(p, s) && IsReapOrder(s, order) && Reclaim(p, s, order, now).1.Rejected?
    ensures Reclaim(p, s, order, now).0 == s <==> !(IsTime(now) && ReaperOverflows(p, s, now))
  {
    hide Inv, Overflows, ReclaimEach, IsReapOrder, Clear, NoneOver, SameOutside, ReaperOverflows;
    if IsTime(now) {
      ReapedClean(p, s, order, now);
      ReapOrderFacts(s, order);
      ReclaimOutcome(p, s, order, now);
    }
  }

  lemma CommitClean(s: State, input: CommitInput)
    ensures Commit(s, input).1.Rejected? ==> Commit(s, input).0 == s
  {
    hide Signature, BatchError, StoreFirst;
  }

  lemma ClaimClean(p: RetryPolicy, s: State, workerId: string, attemptId: string, now: int, destination: Option<string>, pick: Option<string>)
    ensures var r := Claim(p, s, workerId, attemptId, now, destination, pick); r.1.Rejected? ==> r.0 == s
  {
  }

  lemma HolderClean(s: State, h: LeaseHandle, ack: Acknowledgement, now: int)
    ensures var r := StartDelivery(s, h, now); r.1.Rejected? ==> r.0 == s
    ensures var r := Acknowledge(s, h, ack, now); r.1.Rejected? ==> r.0 == s
  {
    hide CheckLease;
  }

  lemma ReplayClean(s: State, id: string, operatorId: string, reasonCode: string, now: int)
    ensures var r := Replay(s, id, operatorId, reasonCode, now); r.1.Rejected? ==> r.0 == s
  {
    hide IsAuditCode;
  }

  lemma HeartbeatLeak(p: RetryPolicy, s: State, h: LeaseHandle, now: int)
    requires Inv(p, s) && Heartbeat(p, s, h, now).1.Rejected?
    ensures Heartbeat(p, s, h, now).0 == s <==> !Leaks(p, s, DoHeartbeat(h, now))
  {
    hide Inv;
    Admitted(p, s, h, now, {Leased, Delivering});
    if Admit(s, h, now, {Leased, Delivering}).Ok? && AddDuration(now, p.leaseDurationMs).Err? {
      var e := s.events[h.workId];
      var t := Heartbeat(p, s, h, now).0;
      hide CheckLease, Admit, AddDuration;
      assert t.events[h.workId] == e.(lease := Some(e.lease.value.(heartbeatAt := now)));
      if e.lease.value.heartbeatAt == now {
        assert t.events == s.events;
      }
    }
  }

  lemma FailLeak(p: RetryPolicy, s: State, h: LeaseHandle, failure: FailureCause, now: int)
    requires Inv(p, s) && FailDelivery(p, s, h, failure, now).1.Rejected?
    ensures FailDelivery(p, s, h, failure, now).0 == s <==> !Leaks(p, s, DoFail(h, failure, now))
  {
    hide Inv, RetryAt;
    Admitted(p, s, h, now, {Leased, Delivering});
    if ValidFailure(failure) && Admit(s, h, now, {Leased, Delivering}).Ok? {
      assert FailDelivery(p, s, h, failure, now).0.events[h.workId].lease.None?;
    }
  }

  // ---------------------------------------------------------------- time regressions

  /** A waiting event was last observed no later than it becomes available. */
  ghost predicate TimeOk(events: Events)
  {
    forall id :: id in events && (events[id].state == Pending || events[id].state == RetryWait) ==>
      events[id].lastObservedAt <= events[id].availableAt
  }

  /** The call leaves an event waiting with an availability in the past of its last observation. */
  ghost predicate LeavesStaleTime(p: RetryPolicy, s: State, c: Command)
  {
    match c
    case DoFail(h, failure, now) => Leaks(p, s, c) && s.events[h.workId].availableAt < now
    case DoReclaim(_, _) => Leaks(p, s, c)
    case _ => false
  }

  lemma ReclaimOneTime(p: RetryPolicy, s: State, id: string, now: int)
    requires p.Valid() && Inv(p, s) && TimeOk(s.events)
    ensures TimeOk(ReclaimOne(p, s, id, now).0.events) <==> ReclaimOne(p, s, id, now).1.Events?
  {
    hide Inv, ReclaimOne, Overflows;
    ReclaimOneOutcome(p, s, id, now);
    if LeaseIsOver(s, id, now) {
      var (t, r) := ReclaimOne(p, s, id, now);
      assert Reaped(p, s.events[id], now, t.events[id], r) && id in t.events;
      if r.Events? { assert TimeOk(t.events); }
    }
  }

  lemma {:induction false} ReclaimTime(p: RetryPolicy, s: State, order: seq<string>, now: int)
    requires p.Valid() && Inv(p, s) && TimeOk(s.events)
    ensures TimeOk(ReclaimEach(p, s, order, now).0.events) <==> ReclaimEach(p, s, order, now).1.Events?
    decreases |order|
  {
    if order != [] {
      ReclaimUnfold(p, s, order, now);
      hide Inv, Grew, ReclaimEach, ReclaimOne, TimeOk;
      var one := ReclaimOne(p, s, order[0], now);
      ReclaimOneTime(p, s, order[0], now);
      ReclaimOneKeeps(p, s, order[0], now);
      if one.1.Events? {
        ReclaimTime(p, one.0, order[1..], now);
      }
    }
  }

  lemma {:induction false} StoreTime(s: State, input: CommitInput, k: nat)
    requires TimeOk(s.events) && k <= |input.events|
    ensures TimeOk(StoreFirst(s, input, k).events)
  {
    if k > 0 { StoreTime(s, input, k - 1); }
  }

  lemma FailTime(p: RetryPolicy, s: State, h: LeaseHandle, failure: FailureCause, now: int)
    requires p.Valid() && Inv(p, s) && TimeOk(s.events)
    ensures TimeOk(FailDelivery(p, s, h, failure, now).0.events) <==> !LeavesStaleTime(p, s, DoFail(h, failure, now))
  {
    hide Inv, RetryAt;
    Admitted(p, s, h, now, {Leased, Delivering});
    if ValidFailure(failure) && Admit(s, h, now, {Leased, Delivering}).Ok? {
      RetryAtIsLater(now, s.events[h.workId].attemptsInCycle, p);
      var t := FailDelivery(p, s, h, failure, now).0;
      var e' := t.events[h.workId];
      hide FinishFailure, Admit;
      assert t.events == s.events[h.workId := e'];
    }
  }

  /** A call keeps the time invariant exactly when it does not leave a stale time. */
  lemma TimeStep(p: RetryPolicy, s: State, c: Command)
    requires p.Valid() && Inv(p, s) && Enabled(s, c) && TimeOk(s.events)
    ensures TimeOk(Step(p, s, c).0.events) <==> !LeavesStaleTime(p, s, c)
  {
    hide Inv, Commit, Claim, Heartbeat, StartDelivery, Acknowledge, FailDelivery, ReclaimEach, Replay;
    hide ReaperOverflows, TimeOk, IsReapOrder;
    match c
    case DoCommit(input) => CommitTime(s, input);
    case DoFail(h, failure, now) => FailTime(p, s, h, failure, now);
    case DoReclaim(order, now) =>
      if IsTime(now) {
        ReclaimTime(p, s, order, now);
        ReapedClean(p, s, order, now);
      }
    case DoClaim(workerId, attemptId, now, destination, pick) => ClaimTime(p, s, workerId, attemptId, now, destination, pick);
    case DoReplay(id, operatorId, reasonCode, now) => ReplayTime(s, id, operatorId, reasonCode, now);
    case DoHeartbeat(h, now) => HeartbeatTime(p, s, h, now);
    case DoStart(h, now) => StartTime(s, h, now);
    case DoAcknowledge(h, ack, now) => AcknowledgeTime(s, h, ack, now);
  }

  lemma TouchTime(events: Events, id: string, e': Event)
    requires TimeOk(events) && (e'.state == Pending || e'.state == RetryWait ==> e'.lastObservedAt <= e'.availableAt)
    ensures TimeOk(events[id := e'])
  {
  }

  lemma CommitTime(s: State, input: CommitInput)
    requires TimeOk(s.events)
    ensures TimeOk(Commit(s, input).0.events)
  {
    hide StoreFirst, TimeOk, BatchError, Signature;
    StoreTime(s, input, |input.events|);
  }

  lemma ClaimTime(p: RetryPolicy, s: State, workerId: string, attemptId: string, now: int,
                  destination: Option<string>, pick: Option<string>)
    requires TimeOk(s.events)
    ensures TimeOk(Claim(p, s, workerId, attemptId, now, destination, pick).0.events)
  {
    hide TimeOk;
    var r := Claim(p, s, workerId, attemptId, now, destination, pick);
    if r.1.Granted? { TouchTime(s.events, pick.value, r.1.event); }
  }

  lemma ReplayTime(s: State, id: string, operatorId: string, reasonCode: string, now: int)
    requires TimeOk(s.events)
    ensures TimeOk(Replay(s, id, operatorId, reasonCode, now).0.events)
  {
    hide TimeOk;
    var r := Replay(s, id, operatorId, reasonCode, now);
    if r.1.Events? { TouchTime(s.events, id, r.1.events[0]); }
  }

  lemma HeartbeatTime(p: RetryPolicy, s: State, h: LeaseHandle, now: int)
    requires TimeOk(s.events)
    ensures TimeOk(Heartbeat(p, s, h, now).0.events)
  {
    hide TimeOk, CheckLease;
    var r := Heartbeat(p, s, h, now);
    if h.workId in s.events && InFlight(s.events[h.workId]) { TouchTime(s.events, h.workId, r.0.events[h.workId]); }
  }

  lemma StartTime(s: State, h: LeaseHandle, now: int)
    requires TimeOk(s.events)
    ensures TimeOk(StartDelivery(s, h, now).0.events)
  {
    hide TimeOk, CheckLease;
    var r := StartDelivery(s, h, now);
    if r.1.Events? { TouchTime(s.events, h.workId, r.1.events[0]); }
  }

  lemma AcknowledgeTime(s: State, h: LeaseHandle, ack: Acknowledgement, now: int)
    requires TimeOk(s.events)
    ensures TimeOk(Acknowledge(s, h, ack, now).0.events)
  {
    hide TimeOk, CheckLease;
    var r := Acknowledge(s, h, ack, now);
    if r.1.Events? { TouchTime(s.events, h.workId, r.1.events[0]); }
  }

  /** While no call has left a stale time, no claim meets a time regression, even if database time
      itself goes backwards between calls. */
  lemma {:induction false} ClaimNeverRegresses(p: RetryPolicy, commands: seq<Command>, states: seq<State>, i: nat)
    requires p.Valid() && IsRun(p, commands, states) && i < |states|
    requires forall k :: 0 <= k < i ==> !LeavesStaleTime(p, states[k], commands[k])
    ensures TimeOk(states[i].events)
    ensures forall workerId, attemptId, now, destination, pick :: IsPick(states[i], now, destination, pick) ==>
      Claim(p, states[i], workerId, attemptId, now, destination, pick).1 != Rejected(DatabaseTimeRegression)
  {
    hide Inv, Step, LeavesStaleTime, Enabled;
    if i > 0 {
      ClaimNeverRegresses(p, commands, states, i - 1);
      EveryStateOk(p, commands, states, i - 1);
      TimeStep(p, states[i - 1], commands[i - 1]);
      assert states[i] == Step(p, states[i - 1], commands[i - 1]).0;
    }
    forall workerId, attemptId, now, destination, pick | IsPick(states[i], now, destination, pick)
      ensures Claim(p, states[i], workerId, attemptId, now, destination, pick).1 != Rejected(DatabaseTimeRegression)
    {
      hide IsRun;
      if pick.Some? { assert Claimable(states[i], pick.value, now, destination); }
    }
  }

  /** Keeping `databaseNow` plus the longest backoff in the safe range is enough. */
  lemma SafeTimesDoNotLeak(p: RetryPolicy, s: State, c: Command)
    requires p.Valid() && Inv(p, s)
    requires c.DoFail? || c.DoReclaim? ==> c.now + p.maximumBackoffMs <= MAX_SAFE_INTEGER
    ensures !LeavesStaleTime(p, s, c)
  {
    hide AttemptsOk, CountsOk, OrderOk, AuditOk, PositionsOk, TransactionsOk;
    match c
    case DoFail(h, failure, now) =>
      Admitted(p, s, h, now, {Leased, Delivering});
      if Admit(s, h, now, {Leased, Delivering}).Ok? {
        BackoffBounds(s.events[h.workId].attemptsInCycle, p);
      }
    case DoReclaim(order, now) =>
      forall id | IsTime(now) && LeaseIsOver(s, id, now)
        ensures !Overflows(p, s.events[id], ExpiryCause(false), now)
      {
        assert EventOk(p, id, s.events[id]);
        BackoffBounds(s.events[id].attemptsInCycle, p);
      }
    case _ =>
  }

  // A run in which the retry of event "e" overflows.

  const OnlyEvent := NewEvent("e", "x", "c", 0, 0, "o", "d", "t", "v", "g", "u")
  const OnlyCommit := CommitInput("T", "D", "P", "C", 0, [OnlyEvent])
  const OnlyHandle := LeaseHandle(OutboxWork, "e", "a", "w", 1)

  lemma AfterCommit(s: State)
    requires s == Commit(Empty, OnlyCommit).0
    ensures s.events == map["e" := NewRecord(OnlyCommit, OnlyEvent)] && s.attempts == map[]
  {
    LetterNotBlank("T"); LetterNotBlank("D"); LetterNotBlank("P"); LetterNotBlank("C");
    LetterNotBlank("e"); LetterNotBlank("x"); LetterNotBlank("c"); LetterNotBlank("o"); LetterNotBlank("d");
    LetterNotBlank("t"); LetterNotBlank("v"); LetterNotBlank("g"); LetterNotBlank("u");
    hide Blank, Signature;
    assert ValidInput(OnlyCommit) && ValidNewEvent(OnlyEvent);
    assert EventError(Empty, OnlyCommit, [], OnlyEvent).None?;
    assert OnlyCommit.events[..0] == [] && OnlyCommit.events[0] == OnlyEvent;
    assert BatchError(Empty, OnlyCommit, 1).None?;
    assert BatchError(Empty, OnlyCommit, 0).None?;
    assert StoreFirst(Empty, OnlyCommit, 1) == Store(StoreFirst(Empty, OnlyCommit, 0), NewRecord(OnlyCommit, OnlyEvent));
  }

  lemma OnlyPick(s: State, now: int)
    requires s.events.Keys == {"e"} && s.events["e"].state in {Pending, RetryWait} && s.events["e"].availableAt <= now
    requires s.events["e"].def == OnlyEvent
    ensures IsPick(s, now, None, Some("e"))
  {
    BeforeIrreflexive(OnlyEvent);
    assert Claimable(s, "e", now, None);
  }

  lemma AfterClaim(s: State, t: State)
    requires s.events == map["e" := NewRecord(OnlyCommit, OnlyEvent)] && s.attempts == map[]
    requires t == Claim(WidePolicy, s, "w", "a", 0, None, Some("e")).0
    ensures HasAttempt(t, "e") && t.events.Keys == {"e"} && t.events["e"].def == OnlyEvent && t.events["e"].state == Leased
    ensures t.events["e"].lease == Some(ActiveLease(OnlyHandle, 0, 0, MAX_SAFE_INTEGER))
    ensures t.events["e"].availableAt == t.events["e"].lastObservedAt == 0 && t.events["e"].attemptsInCycle == 1
    ensures t.attempts.Keys == {"a"}
  {
    LetterNotBlank("w");
    LetterNotBlank("a");
  }

  lemma AfterFailure(s: State, t: State)
    requires HasAttempt(s, "e") && s.events.Keys == {"e"} && s.events["e"].def == OnlyEvent && s.events["e"].state == Leased
    requires s.events["e"].lease == Some(ActiveLease(OnlyHandle, 0, 0, MAX_SAFE_INTEGER))
    requires s.events["e"].availableAt == s.events["e"].lastObservedAt == 0 && s.events["e"].attemptsInCycle == 1
    requires t == FailDelivery(WidePolicy, s, OnlyHandle, OnlyFailure, LateTime).0
    ensures t.events.Keys == {"e"} && t.events["e"].def == OnlyEvent && t.events["e"].state == RetryWait
    ensures t.events["e"].availableAt == 0 && t.events["e"].lastObservedAt == LateTime && t.attempts.Keys == s.attempts.Keys
  {
    LetterNotBlank("F");
    LetterNotBlank("f");
    assert Admit(s, OnlyHandle, LateTime, {Leased, Delivering}).Ok?;
    assert Pow2(0) == 1;
    assert RetryAt(LateTime, 1, WidePolicy).Err?;
  }

  /** Without that bound a claim can fail on an event whose retry overflowed: the event waits with
      its old availability but remembers the later observation. */
  lemma ClaimCanRegress() returns (commands: seq<Command>, states: seq<State>)
    ensures WidePolicy.Valid() && IsRun(WidePolicy, commands, states) && IsPick(states[|states| - 1], 1, None, Some("e"))
    ensures Claim(WidePolicy, states[|states| - 1], "w", "b", 1, None, Some("e")).1 == Rejected(DatabaseTimeRegression)
  {
    commands := [DoCommit(OnlyCommit), DoClaim("w", "a", 0, None, Some("e")), DoFail(OnlyHandle, OnlyFailure, LateTime)];
    hide Commit, FailDelivery, IsPick;
    var s1 := Commit(Empty, OnlyCommit).0;
    AfterCommit(s1);
    OnlyPick(s1, 0);
    var s2 := Claim(WidePolicy, s1, "w", "a", 0, None, Some("e")).0;
    AfterClaim(s1, s2);
    var s3 := FailDelivery(WidePolicy, s2, OnlyHandle, OnlyFailure, LateTime).0;
    AfterFailure(s2, s3);
    OnlyPick(s3, 1);
    states := [Empty, s1, s2, s3];
    LetterNotBlank("w");
    LetterNotBlank("b");
  }
}
