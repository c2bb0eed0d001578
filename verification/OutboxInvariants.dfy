/** The invariant of every Outbox state, and what no step takes back. */
module OutboxInvariants {
  import opened Texts
  import opened DurableWork
  import opened Outbox

  type Events = map<string, Event>
  type Attempts = map<string, Attempt>

  // ---------------------------------------------------------------- the invariant

  predicate EventOk(p: RetryPolicy, id: string, e: Event)
  {
    e.def.id == id &&
    (InFlight(e) <==> e.lease.Some?) &&
    (e.lease.Some? ==>
       var h := e.lease.value.handle;
       h.workKind == OutboxWork && h.workId == id && h.fencingToken == e.totalAttempts &&
       e.availableAt <= e.lastObservedAt < e.lease.value.expiresAt) &&
    (e.state == Delivered ==> e.deliveredAt.Some? && e.disposition.Some?) &&
    0 <= e.attemptsInCycle <= p.maximumAttemptsPerCycle &&
    (InFlight(e) ==> 1 <= e.attemptsInCycle) &&
    (e.state == Pending || e.state == RetryWait ==> e.attemptsInCycle < p.maximumAttemptsPerCycle) &&
    e.nextFencingToken == e.totalAttempts + 1 &&
    0 <= e.replayCycle == e.replayCount &&
    0 <= e.totalAttempts <= CycleBudget(e.replayCycle, p.maximumAttemptsPerCycle) + e.attemptsInCycle
  }

  ghost predicate EventsOk(p: RetryPolicy, events: Events)
  {
    forall id :: id in events ==> EventOk(p, id, events[id])
  }

  /** The attempt that holds the lease of its event. */
  predicate Holds(e: Event, aid: string)
  {
    e.lease.Some? && e.lease.value.handle.attemptId == aid
  }

  predicate AttemptOk(e: Event, aid: string, a: Attempt)
  {
    1 <= a.fencingToken == a.totalAttempt <= e.totalAttempts &&
    (a.outcome == Active <==> Holds(e, aid)) &&
    (a.outcome == Active ==>
       a.fencingToken == e.lease.value.handle.fencingToken && a.workerId == e.lease.value.handle.workerId &&
       (a.deliveryStartedAt.Some? <==> e.state == Delivering))
  }

  ghost predicate AttemptsMatch(events: Events, attempts: Attempts)
  {
    forall a :: a in attempts ==> attempts[a].workId in events && AttemptOk(events[attempts[a].workId], a, attempts[a])
  }

  ghost predicate LeasesMatch(events: Events, attempts: Attempts)
  {
    forall id :: id in events && events[id].lease.Some? ==>
      var aid := events[id].lease.value.handle.attemptId;
      aid in attempts && attempts[aid].workId == id
  }

  ghost predicate TokensDiffer(attempts: Attempts)
  {
    forall a, b :: a in attempts && b in attempts && a != b && attempts[a].workId == attempts[b].workId ==>
      attempts[a].fencingToken != attempts[b].fencingToken
  }

  ghost predicate AttemptsOk(events: Events, attempts: Attempts)
  {
    AttemptsMatch(events, attempts) && LeasesMatch(events, attempts) && TokensDiffer(attempts)
  }

  function AttemptsOf(attempts: Attempts, id: string): set<string>
  {
    set a | a in attempts && attempts[a].workId == id
  }

  ghost predicate CountsOk(events: Events, attempts: Attempts)
  {
    forall id :: id in events ==> events[id].totalAttempts == |AttemptsOf(attempts, id)|
  }

  predicate Advanced(e: Event)
  {
    InFlight(e) || e.state == Delivered
  }

  ghost predicate OrderOk(events: Events)
  {
    forall id :: id in events && Advanced(events[id]) ==> PredecessorsDelivered(events, events[id])
  }

  ghost predicate PositionsOk(events: Events, positions: map<Position, string>)
  {
    (forall id :: id in events ==> PositionOf(events[id]) in positions && positions[PositionOf(events[id])] == id) &&
    (forall q :: q in positions ==> positions[q] in events && PositionOf(events[positions[q]]) == q)
  }

  ghost predicate TransactionsOk(events: Events, transactions: map<string, Transaction>)
  {
    forall t :: t in transactions ==> ListedUnder(events, t, transactions[t].eventIds)
  }

  ghost predicate ListedUnder(events: Events, t: string, ids: seq<string>)
  {
    forall i :: 0 <= i < |ids| ==> ids[i] in events && events[ids[i]].transactionId == t
  }

  /** One record of the log: its number, its event, and for a delivery its place in the order. */
  ghost predicate RecordOk(events: Events, i: int, r: AuditRecord)
  {
    r.sequence == i + 1 && r.workId in events &&
    (r.kind == DeliveryStarted || r.kind == DeliveryAcknowledged ==> PredecessorsDelivered(events, events[r.workId])) &&
    (r.kind == DeliveryAcknowledged ==> events[r.workId].state == Delivered)
  }

  /** Two records in this order do not take the stream back. */
  ghost predicate InOrder(events: Events, r: AuditRecord, q: AuditRecord)
    requires r.workId in events && q.workId in events
  {
    var e, f := events[r.workId], events[q.workId];
    StreamOf(e) == StreamOf(f) ==>
      (r.kind == DeliveryAcknowledged && (q.kind == DeliveryAcknowledged || q.kind == DeliveryStarted) ==>
         Before(e.def, f.def)) &&
      (r.kind == DeliveryStarted && (q.kind == DeliveryAcknowledged || q.kind == DeliveryStarted) ==>
         e.def == f.def || Before(e.def, f.def))
  }

  ghost predicate RecordsOk(events: Events, audit: seq<AuditRecord>)
  {
    forall i :: 0 <= i < |audit| ==> RecordOk(events, i, audit[i])
  }

  ghost predicate AuditOk(events: Events, audit: seq<AuditRecord>)
  {
    RecordsOk(events, audit) &&
    (forall i, j :: 0 <= i < j < |audit| ==> InOrder(events, audit[i], audit[j])) &&
    (forall id :: id in events && events[id].state == Delivered ==> AckedIn(audit, id))
  }

  ghost predicate AckedIn(audit: seq<AuditRecord>, id: string)
  {
    exists i :: 0 <= i < |audit| && audit[i].kind == DeliveryAcknowledged && audit[i].workId == id
  }

  ghost predicate Inv(p: RetryPolicy, s: State)
  {
    EventsOk(p, s.events) && AttemptsOk(s.events, s.attempts) && CountsOk(s.events, s.attempts) &&
    OrderOk(s.events) && PositionsOk(s.events, s.positions) &&
    TransactionsOk(s.events, s.transactions) && AuditOk(s.events, s.audit)
  }

  // ---------------------------------------------------------------- what no step takes back

  predicate EventGrew(e: Event, e': Event)
  {
    e'.def == e.def && e'.projectId == e.projectId && e'.transactionId == e.transactionId &&
    (e.state == Delivered ==> e' == e) && e.totalAttempts <= e'.totalAttempts && e.replayCycle <= e'.replayCycle
  }

  predicate AttemptGrew(a: Attempt, a': Attempt)
  {
    a'.workId == a.workId && a'.fencingToken == a.fencingToken && a'.workerId == a.workerId &&
    (a.outcome != Active ==> a' == a)
  }

  ghost predicate EventsGrew(events: Events, events': Events)
  {
    (forall id :: id in events ==> id in events' && EventGrew(events[id], events'[id])) &&
    (forall id, x :: id in events && x in events' && x !in events && StreamOf(events'[x]) == StreamOf(events[id]) ==>
       Before(events[id].def, events'[x].def))
  }

  /** Attempts stay, a finished one unchanged, and a new one outranks all earlier ones of its event. */
  ghost predicate AttemptsGrew(s: State, s': State)
  {
    (forall a :: a in s.attempts ==> a in s'.attempts && AttemptGrew(s.attempts[a], s'.attempts[a])) &&
    (forall a :: a in s'.attempts && a !in s.attempts && s'.attempts[a].workId in s.events ==>
       s.events[s'.attempts[a].workId].totalAttempts < s'.attempts[a].fencingToken)
  }

  ghost predicate Grew(s: State, s': State)
  {
    EventsGrew(s.events, s'.events) &&
    AttemptsGrew(s, s') &&
    (forall t :: t in s.transactions ==> t in s'.transactions && s'.transactions[t] == s.transactions[t]) &&
    s.audit <= s'.audit
  }

  lemma EventsGrewTransitive(s: Events, t: Events, u: Events)
    requires EventsGrew(s, t) && EventsGrew(t, u)
    ensures EventsGrew(s, u)
  {
    forall id, x | id in s && x in u && x !in s && StreamOf(u[x]) == StreamOf(s[id])
      ensures Before(s[id].def, u[x].def)
    {
      assert EventGrew(s[id], t[id]);
      if x in t { assert EventGrew(t[x], u[x]); }
    }
    forall id | id in s
      ensures id in u && EventGrew(s[id], u[id])
    {
      assert EventGrew(s[id], t[id]) && EventGrew(t[id], u[id]);
    }
  }

  lemma AttemptsGrewTransitive(s: State, t: State, u: State)
    requires forall id :: id in s.events ==> id in t.events && s.events[id].totalAttempts <= t.events[id].totalAttempts
    requires AttemptsGrew(s, t) && AttemptsGrew(t, u)
    ensures AttemptsGrew(s, u)
  {
    forall a | a in s.attempts
      ensures a in u.attempts && AttemptGrew(s.attempts[a], u.attempts[a])
    {
      assert AttemptGrew(s.attempts[a], t.attempts[a]) && AttemptGrew(t.attempts[a], u.attempts[a]);
    }
    forall a | a in u.attempts && a !in s.attempts && u.attempts[a].workId in s.events
      ensures s.events[u.attempts[a].workId].totalAttempts < u.attempts[a].fencingToken
    {
      if a in t.attempts { assert AttemptGrew(t.attempts[a], u.attempts[a]); }
    }
  }

  lemma GrewTransitive(s: State, t: State, u: State)
    requires Grew(s, t) && Grew(t, u)
    ensures Grew(s, u)
  {
    hide EventsGrew, AttemptsGrew;
    EventsGrewTransitive(s.events, t.events, u.events);
    TotalsGrew(s.events, t.events);
    AttemptsGrewTransitive(s, t, u);
  }

  lemma TotalsGrew(s: Events, t: Events)
    requires EventsGrew(s, t)
    ensures forall id :: id in s ==> id in t && s[id].totalAttempts <= t[id].totalAttempts
  {
    assert forall id :: id in s ==> EventGrew(s[id], t[id]);
  }

  // ---------------------------------------------------------------- order facts

  lemma BeforeTotal(a: NewEvent, b: NewEvent)
    requires a.id != b.id
    ensures Before(a, b) || Before(b, a)
    ensures !(Before(a, b) && Before(b, a))
  {
    LessTotal(a.id, b.id);
  }

  lemma BeforeCases(a: NewEvent, b: NewEvent)
    ensures a.id == b.id || Before(a, b) || Before(b, a)
  {
    LessTotal(a.id, b.id);
  }

  lemma BeforeTransitive(a: NewEvent, b: NewEvent, c: NewEvent)
    requires Before(a, b) && Before(b, c)
    ensures Before(a, c)
  {
    if Less(a.id, b.id) && Less(b.id, c.id) { LessTransitive(a.id, b.id, c.id); }
  }

  lemma BeforeIrreflexive(a: NewEvent)
    ensures !Before(a, a)
  {
    LessTotal(a.id, a.id);
  }

  // ---------------------------------------------------------------- one event changes

  /** Delivery only adds up: replacing one record keeps every delivered predecessor delivered. */
  lemma StillDelivered(events: Events, id: string, e': Event, x: Event)
    requires id in events && EventGrew(events[id], e') && PredecessorsDelivered(events, x)
    ensures PredecessorsDelivered(events[id := e'], x)
  {
  }

  lemma KeepOrder(events: Events, id: string, e': Event)
    requires OrderOk(events) && id in events && EventGrew(events[id], e')
    requires Advanced(e') ==> PredecessorsDelivered(events, events[id])
    ensures OrderOk(events[id := e'])
  {
    var events' := events[id := e'];
    forall x | x in events' && Advanced(events'[x])
      ensures PredecessorsDelivered(events', events'[x])
    {
      assert PredecessorsDelivered(events, events[x]);
      StillDelivered(events, id, e', events[x]);
      assert StreamOf(events'[x]) == StreamOf(events[x]) && events'[x].def == events[x].def;
    }
  }

  lemma KeepIndexes(events: Events, id: string, e': Event, positions: map<Position, string>, transactions: map<string, Transaction>)
    requires PositionsOk(events, positions) && TransactionsOk(events, transactions)
    requires id in events && EventGrew(events[id], e')
    ensures PositionsOk(events[id := e'], positions) && TransactionsOk(events[id := e'], transactions)
  {
    var events' := events[id := e'];
    assert forall x :: x in events' ==> PositionOf(events'[x]) == PositionOf(events[x]);
    forall t | t in transactions
      ensures ListedUnder(events', t, transactions[t].eventIds)
    {
      assert ListedUnder(events, t, transactions[t].eventIds);
    }
  }

  /** The log keeps its meaning when one event changes without being delivered. */
  lemma KeepAudit(events: Events, id: string, e': Event, audit: seq<AuditRecord>)
    requires RecordsOk(events, audit)
    requires id in events && EventGrew(events[id], e')
    ensures RecordsOk(events[id := e'], audit)
    ensures forall i, j :: 0 <= i < j < |audit| && InOrder(events, audit[i], audit[j]) ==>
              InOrder(events[id := e'], audit[i], audit[j])
  {
    var events' := events[id := e'];
    assert forall x :: x in events ==> StreamOf(events'[x]) == StreamOf(events[x]) && events'[x].def == events[x].def;
    forall i | 0 <= i < |audit|
      ensures RecordOk(events', i, audit[i])
    {
      var r := audit[i];
      assert RecordOk(events, i, r);
      if r.kind == DeliveryStarted || r.kind == DeliveryAcknowledged {
        StillDelivered(events, id, e', events[r.workId]);
        assert PredecessorsDelivered(events', events'[r.workId]);
      }
    }
    forall i, j | 0 <= i < j < |audit| && InOrder(events, audit[i], audit[j])
      ensures InOrder(events', audit[i], audit[j])
    {
      assert RecordOk(events, i, audit[i]) && RecordOk(events, j, audit[j]);
    }
  }

  ghost predicate IdsOk(events: Events)
  {
    forall x :: x in events ==> events[x].def.id == x
  }

  /** A delivery of an undelivered event comes after every delivery logged for its stream. */
  lemma NewestInOrder(events: Events, audit: seq<AuditRecord>, r: AuditRecord, i: int)
    requires RecordsOk(events, audit) && 0 <= i < |audit| && IdsOk(events)
    requires r.workId in events && events[r.workId].state != Delivered
    requires r.kind == DeliveryStarted || r.kind == DeliveryAcknowledged
    ensures audit[i].workId in events && InOrder(events, audit[i], r)
  {
    assert RecordOk(events, i, audit[i]);
    var f, e := events[audit[i].workId], events[r.workId];
    if StreamOf(f) == StreamOf(e) && (audit[i].kind == DeliveryStarted || audit[i].kind == DeliveryAcknowledged) {
      if audit[i].workId != r.workId {
        assert !Precedes(e, f);
        BeforeTotal(f.def, e.def);
      }
    }
  }

  /** One event changes and one record about it is logged. */
  lemma TouchAudit(events: Events, id: string, e': Event, audit: seq<AuditRecord>, r: AuditRecord)
    requires AuditOk(events, audit) && IdsOk(events)
    requires id in events && EventGrew(events[id], e') && events[id].state != Delivered
    requires r.workId == id && r.sequence == |audit| + 1
    requires r.kind == DeliveryStarted || r.kind == DeliveryAcknowledged ==> PredecessorsDelivered(events, events[id])
    requires r.kind == DeliveryAcknowledged <==> e'.state == Delivered
    ensures AuditOk(events[id := e'], audit + [r])
  {
    var events', audit' := events[id := e'], audit + [r];
    KeepAudit(events, id, e', audit);
    StillDeliveredSelf(events, id, e', r);
    assert RecordsOk(events', audit') by {
      assert RecordOk(events', |audit|, r);
      assert forall i :: 0 <= i < |audit| ==> audit'[i] == audit[i];
    }
    forall i, j | 0 <= i < j < |audit'|
      ensures InOrder(events', audit'[i], audit'[j])
    {
      assert RecordOk(events', i, audit'[i]);
      if j < |audit| {
        assert InOrder(events, audit[i], audit[j]);
      } else if r.kind == DeliveryStarted || r.kind == DeliveryAcknowledged {
        NewestInOrder(events, audit, r, i);
        SameOrder(events, id, e', audit[i], r);
      }
    }
    forall x | x in events' && events'[x].state == Delivered
      ensures AckedIn(audit', x)
    {
      if x == id {
        assert audit'[|audit|] == r;
      } else {
        assert AckedIn(audit, x);
        var i :| 0 <= i < |audit| && audit[i].kind == DeliveryAcknowledged && audit[i].workId == x;
        assert audit'[i] == audit[i];
      }
    }
  }

  lemma StillDeliveredSelf(events: Events, id: string, e': Event, r: AuditRecord)
    requires id in events && EventGrew(events[id], e') && r.workId == id
    requires r.kind == DeliveryStarted || r.kind == DeliveryAcknowledged ==> PredecessorsDelivered(events, events[id])
    ensures r.kind == DeliveryStarted || r.kind == DeliveryAcknowledged ==> PredecessorsDelivered(events[id := e'], e')
  {
    if r.kind == DeliveryStarted || r.kind == DeliveryAcknowledged {
      StillDelivered(events, id, e', events[id]);
    }
  }

  lemma SameOrder(events: Events, id: string, e': Event, r: AuditRecord, q: AuditRecord)
    requires id in events && EventGrew(events[id], e')
    requires r.workId in events && q.workId in events && InOrder(events, r, q)
    ensures InOrder(events[id := e'], r, q)
  {
  }

  lemma TouchAuditSilently(events: Events, id: string, e': Event, audit: seq<AuditRecord>)
    requires AuditOk(events, audit)
    requires id in events && EventGrew(events[id], e') && events[id].state != Delivered && e'.state != Delivered
    ensures AuditOk(events[id := e'], audit)
  {
    KeepAudit(events, id, e', audit);
  }

  /** The lease holder's attempt and its event change together. */
  lemma TouchAttempts(events: Events, attempts: Attempts, id: string, e': Event, aid: string, a': Attempt)
    requires AttemptsOk(events, attempts) && CountsOk(events, attempts)
    requires id in events && Holds(events[id], aid) && aid in attempts
    requires a'.workId == id && a'.fencingToken == attempts[aid].fencingToken
    requires e'.totalAttempts == events[id].totalAttempts && AttemptOk(e', aid, a')
    requires e'.lease.Some? ==> Holds(e', aid)
    ensures AttemptsOk(events[id := e'], attempts[aid := a']) && CountsOk(events[id := e'], attempts[aid := a'])
  {
    var events', attempts' := events[id := e'], attempts[aid := a'];
    assert attempts[aid].workId == id;
    forall b | b in attempts'
      ensures attempts'[b].workId in events' && AttemptOk(events'[attempts'[b].workId], b, attempts'[b])
    {
      if b != aid {
        assert AttemptOk(events[attempts[b].workId], b, attempts[b]);
      }
    }
    TouchCounts(events, attempts, id, e', aid, a');
  }

  lemma TouchCounts(events: Events, attempts: Attempts, id: string, e': Event, aid: string, a': Attempt)
    requires CountsOk(events, attempts) && id in events && e'.totalAttempts == events[id].totalAttempts
    requires aid in attempts && a'.workId == attempts[aid].workId
    ensures CountsOk(events[id := e'], attempts[aid := a'])
  {
    forall x | x in events
      ensures AttemptsOf(attempts[aid := a'], x) == AttemptsOf(attempts, x)
    {
    }
  }

  lemma TouchIdle(events: Events, attempts: Attempts, id: string, e': Event)
    requires AttemptsOk(events, attempts) && CountsOk(events, attempts)
    requires id in events && e'.totalAttempts == events[id].totalAttempts
    requires events[id].lease.None? && e'.lease.None?
    ensures AttemptsOk(events[id := e'], attempts) && CountsOk(events[id := e'], attempts)
  {
    var events' := events[id := e'];
    forall b | b in attempts
      ensures attempts[b].workId in events' && AttemptOk(events'[attempts[b].workId], b, attempts[b])
    {
      assert AttemptOk(events[attempts[b].workId], b, attempts[b]);
    }
  }

  lemma AddAttempt(events: Events, attempts: Attempts, id: string, e': Event, aid: string, a: Attempt)
    requires AttemptsOk(events, attempts) && CountsOk(events, attempts)
    requires id in events && events[id].lease.None? && aid !in attempts
    requires a.workId == id && a.fencingToken == e'.totalAttempts == events[id].totalAttempts + 1
    requires AttemptOk(e', aid, a) && Holds(e', aid)
    ensures AttemptsOk(events[id := e'], attempts[aid := a]) && CountsOk(events[id := e'], attempts[aid := a])
  {
    assert AttemptsMatch(events[id := e'], attempts[aid := a]) by {
      assert AttemptsMatch(events, attempts);
      forall b | b in attempts && attempts[b].workId == id
        ensures AttemptOk(e', b, attempts[b])
      {
        assert AttemptOk(events[id], b, attempts[b]);
      }
    }
    assert LeasesMatch(events[id := e'], attempts[aid := a]);
    AddToken(events, attempts, id, aid, a);
    AddCount(events, attempts, id, e', aid, a);
  }

  lemma AddToken(events: Events, attempts: Attempts, id: string, aid: string, a: Attempt)
    requires AttemptsMatch(events, attempts) && TokensDiffer(attempts)
    requires id in events && a.workId == id && a.fencingToken == events[id].totalAttempts + 1
    ensures TokensDiffer(attempts[aid := a])
  {
    forall b | b in attempts && attempts[b].workId == id
      ensures attempts[b].fencingToken < a.fencingToken
    {
      assert AttemptOk(events[id], b, attempts[b]);
    }
  }

  lemma AddCount(events: Events, attempts: Attempts, id: string, e': Event, aid: string, a: Attempt)
    requires CountsOk(events, attempts) && id in events && e'.totalAttempts == events[id].totalAttempts + 1
    requires aid !in attempts && a.workId == id
    ensures CountsOk(events[id := e'], attempts[aid := a])
  {
    forall x | x in events
      ensures |AttemptsOf(attempts[aid := a], x)| == |AttemptsOf(attempts, x)| + (if x == id then 1 else 0)
    {
      CountOne(attempts, aid, a, x);
    }
    hide AttemptsOf;
  }

  lemma CountOne(attempts: Attempts, aid: string, a: Attempt, x: string)
    requires aid !in attempts
    ensures |AttemptsOf(attempts[aid := a], x)| == |AttemptsOf(attempts, x)| + (if x == a.workId then 1 else 0)
  {
    var before, after := AttemptsOf(attempts, x), AttemptsOf(attempts[aid := a], x);
    assert aid !in before;
    if x == a.workId {
      assert after == before + {aid};
    } else {
      assert after == before;
    }
  }
}
