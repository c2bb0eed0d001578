/** What holds over whole runs of the Outbox, from the empty state, for every sequence of calls. */
module OutboxRuns {
  import opened Texts
  import opened DurableWork
  import opened Outbox
  import opened OutboxInvariants
  import opened OutboxSteps
  import opened OutboxCommit

  // ---------------------------------------------------------------- runs keep the invariant

  lemma StepKeeps(p: RetryPolicy, s: State, c: Command)
    requires p.Valid() && Inv(p, s) && Enabled(s, c)
    ensures Keeps(p, s, Step(p, s, c).0)
  {
    hide Inv, Keeps, IsReapOrder;
    KeepsSelf(p, s);
    match c
    case DoCommit(input) => CommitKeeps(p, s, input);
    case DoClaim(workerId, attemptId, now, destination, pick) => ClaimKeeps(p, s, workerId, attemptId, now, destination, pick);
    case DoHeartbeat(h, now) => HeartbeatKeeps(p, s, h, now);
    case DoStart(h, now) => StartKeeps(p, s, h, now);
    case DoAcknowledge(h, ack, now) => AcknowledgeKeeps(p, s, h, ack, now);
    case DoFail(h, failure, now) => FailKeeps(p, s, h, failure, now);
    case DoReclaim(order, now) => ReclaimKeeps(p, s, order, now);
    case DoReplay(id, operatorId, reasonCode, now) => ReplayKeeps(p, s, id, operatorId, reasonCode, now);
  }

  /** Everything `assertInvariants` tests, and the attempt and order facts beside it, holds after
      every call of every run. */
  lemma {:induction false} EveryStateOk(p: RetryPolicy, commands: seq<Command>, states: seq<State>, i: nat)
    requires p.Valid() && IsRun(p, commands, states) && i < |states|
    ensures Inv(p, states[i])
  {
    if i > 0 {
      hide Inv, Grew, Enabled, Step;
      EveryStateOk(p, commands, states, i - 1);
      StepKeeps(p, states[i - 1], commands[i - 1]);
      assert states[i] == Step(p, states[i - 1], commands[i - 1]).0;
    }
  }

  /** Nothing is taken back: events, transactions and log stay, a delivered event and a finished
      attempt never change again, and later attempts carry larger fencing tokens. */
  lemma {:induction false} NothingTakenBack(p: RetryPolicy, commands: seq<Command>, states: seq<State>, i: nat, j: nat)
    requires p.Valid() && IsRun(p, commands, states) && i <= j < |states|
    ensures Grew(states[i], states[j])
    decreases j
  {
    hide Inv, Grew, Enabled, Step;
    EveryStateOk(p, commands, states, i);
    if i == j {
      KeepsSelf(p, states[i]);
    } else {
      NothingTakenBack(p, commands, states, i, j - 1);
      EveryStateOk(p, commands, states, j - 1);
      StepKeeps(p, states[j - 1], commands[j - 1]);
      assert states[j] == Step(p, states[j - 1], commands[j - 1]).0;
      GrewTransitive(states[i], states[j - 1], states[j]);
    }
  }

  // ---------------------------------------------------------------- delivery order

  /** The ids acknowledged for `stream`, in the order the log records them. */
  ghost function Acknowledged(s: State, stream: Stream, n: nat): seq<string>
    requires n <= |s.audit|
  {
    if n == 0 then []
    else
      var r := s.audit[n - 1];
      Acknowledged(s, stream, n - 1) +
      (if r.kind == DeliveryAcknowledged && r.workId in s.events && StreamOf(s.events[r.workId]) == stream
       then [r.workId] else [])
  }

  ghost predicate Ascending(s: State, ids: seq<string>)
  {
    (forall i :: 0 <= i < |ids| ==> ids[i] in s.events) &&
    forall i, j :: 0 <= i < j < |ids| ==> Before(s.events[ids[i]].def, s.events[ids[j]].def)
  }

  /** `line` is the whole stream: every committed event of it, by stream position. */
  ghost predicate IsLine(s: State, stream: Stream, line: seq<string>)
  {
    Ascending(s, line) && forall id :: id in line <==> id in s.events && StreamOf(s.events[id]) == stream
  }

  lemma {:induction false} AcknowledgedSource(s: State, stream: Stream, n: nat, k: nat)
    requires n <= |s.audit| && k < |Acknowledged(s, stream, n)|
    ensures exists i :: 0 <= i < n && s.audit[i].kind == DeliveryAcknowledged && s.audit[i].workId == Acknowledged(s, stream, n)[k]
    ensures var id := Acknowledged(s, stream, n)[k]; id in s.events && StreamOf(s.events[id]) == stream
  {
    if k < |Acknowledged(s, stream, n - 1)| { AcknowledgedSource(s, stream, n - 1, k); }
  }

  lemma {:induction false} AcknowledgedAscends(p: RetryPolicy, s: State, stream: Stream, n: nat)
    requires Inv(p, s) && n <= |s.audit|
    ensures Ascending(s, Acknowledged(s, stream, n))
  {
    hide Inv;
    if n > 0 {
      AcknowledgedAscends(p, s, stream, n - 1);
      var ids := Acknowledged(s, stream, n - 1);
      var r := s.audit[n - 1];
      if Acknowledged(s, stream, n) != ids {
        forall k | 0 <= k < |ids|
          ensures Before(s.events[ids[k]].def, s.events[r.workId].def)
        {
          NewestAcknowledged(p, s, stream, n, k);
        }
        hide Before;
        assert Acknowledged(s, stream, n) == ids + [r.workId];
      }
    }
  }

  lemma NewestAcknowledged(p: RetryPolicy, s: State, stream: Stream, n: nat, k: nat)
    requires Inv(p, s) && 0 < n <= |s.audit| && k < |Acknowledged(s, stream, n - 1)|
    requires Acknowledged(s, stream, n) != Acknowledged(s, stream, n - 1)
    ensures s.audit[n - 1].workId in s.events && Acknowledged(s, stream, n - 1)[k] in s.events
    ensures Before(s.events[Acknowledged(s, stream, n - 1)[k]].def, s.events[s.audit[n - 1].workId].def)
  {
    hide EventsOk, AttemptsOk, CountsOk, OrderOk, PositionsOk, TransactionsOk, Before, PredecessorsDelivered, AckedIn;
    AcknowledgedSource(s, stream, n - 1, k);
    var r := s.audit[n - 1];
    var i :| 0 <= i < n - 1 && s.audit[i].kind == DeliveryAcknowledged && s.audit[i].workId == Acknowledged(s, stream, n - 1)[k];
    assert RecordOk(s.events, i, s.audit[i]) && RecordOk(s.events, n - 1, r);
    assert InOrder(s.events, s.audit[i], r);
  }

  lemma {:induction false} AcknowledgedComplete(s: State, stream: Stream, n: nat, i: nat)
    requires i < n <= |s.audit| && s.audit[i].kind == DeliveryAcknowledged
    requires s.audit[i].workId in s.events && StreamOf(s.events[s.audit[i].workId]) == stream
    ensures s.audit[i].workId in Acknowledged(s, stream, n)
  {
    if i < n - 1 { AcknowledgedComplete(s, stream, n - 1, i); }
  }

  /** Acknowledged exactly when DELIVERED. */
  lemma AcknowledgedIsDelivered(p: RetryPolicy, s: State, stream: Stream, id: string)
    requires Inv(p, s)
    ensures id in Acknowledged(s, stream, |s.audit|) <==>
            id in s.events && StreamOf(s.events[id]) == stream && s.events[id].state == Delivered
  {
    hide EventsOk, AttemptsOk, CountsOk, OrderOk, PositionsOk, TransactionsOk;
    var ids := Acknowledged(s, stream, |s.audit|);
    if id in ids {
      var k :| 0 <= k < |ids| && ids[k] == id;
      AcknowledgedSource(s, stream, |s.audit|, k);
      var i :| 0 <= i < |s.audit| && s.audit[i].kind == DeliveryAcknowledged && s.audit[i].workId == id;
      assert RecordOk(s.events, i, s.audit[i]);
    }
    if id in s.events && StreamOf(s.events[id]) == stream && s.events[id].state == Delivered {
      var i :| 0 <= i < |s.audit| && s.audit[i].kind == DeliveryAcknowledged && s.audit[i].workId == id;
      AcknowledgedComplete(s, stream, |s.audit|, i);
    }
  }

  /** An ascending list whose members are closed downwards in an ascending line starts the line. */
  lemma {:induction false} ClosedIsPrefix(s: State, ids: seq<string>, line: seq<string>, n: nat)
    requires Ascending(s, ids) && Ascending(s, line)
    requires forall x :: x in ids ==> x in line
    requires forall x, y :: x in ids && y in line && Before(s.events[y].def, s.events[x].def) ==> y in ids
    requires n <= |ids|
    ensures n <= |line| && ids[..n] == line[..n]
  {
    if n > 0 {
      ClosedIsPrefix(s, ids, line, n - 1);
      NextInLine(s, ids, line, n - 1);
      assert ids[..n] == ids[..n - 1] + [ids[n - 1]] && line[..n] == line[..n - 1] + [line[n - 1]];
    }
  }

  lemma NextInLine(s: State, ids: seq<string>, line: seq<string>, n: nat)
    requires Ascending(s, ids) && Ascending(s, line)
    requires forall x :: x in ids ==> x in line
    requires forall x, y :: x in ids && y in line && Before(s.events[y].def, s.events[x].def) ==> y in ids
    requires n < |ids| && n <= |line| && ids[..n] == line[..n]
    ensures n < |line| && ids[n] == line[n]
  {
    hide Before;
    var x := ids[n];
    assert x in ids && x in line;
    var i :| 0 <= i < |line| && line[i] == x;
    assert forall k :: 0 <= k < n ==> ids[..n][k] == ids[k] && line[..n][k] == line[k];
    BeforeIrreflexive(s.events[x].def);
    if i > n {
      var y := line[n];
      assert y in line && Before(s.events[y].def, s.events[x].def);
      var k :| 0 <= k < |ids| && ids[k] == y;
      BeforeIrreflexive(s.events[y].def);
      BeforeAsymmetric(s.events[x].def, s.events[y].def);
    }
  }

  lemma BeforeAsymmetric(a: NewEvent, b: NewEvent)
    ensures !(Before(a, b) && Before(b, a))
  {
    LessTotal(a.id, b.id);
  }

  /** At every moment of every run, the events acknowledged for a stream are exactly the first
      ones of that stream's committed events in (changeSetSequence, eventOrdinal, id) order, each
      once and in that order. */
  lemma DeliveredInOrder(p: RetryPolicy, commands: seq<Command>, states: seq<State>, i: nat, stream: Stream, line: seq<string>)
    requires p.Valid() && IsRun(p, commands, states) && i < |states| && IsLine(states[i], stream, line)
    ensures Acknowledged(states[i], stream, |states[i].audit|) <= line
    ensures forall id :: id in Acknowledged(states[i], stream, |states[i].audit|) <==>
              id in states[i].events && StreamOf(states[i].events[id]) == stream && states[i].events[id].state == Delivered
  {
    EveryStateOk(p, commands, states, i);
    PrefixHolds(p, states[i], stream, line);
  }

  lemma PrefixHolds(p: RetryPolicy, s: State, stream: Stream, line: seq<string>)
    requires Inv(p, s) && IsLine(s, stream, line)
    ensures Acknowledged(s, stream, |s.audit|) <= line
    ensures forall id :: id in Acknowledged(s, stream, |s.audit|) <==>
              id in s.events && StreamOf(s.events[id]) == stream && s.events[id].state == Delivered
  {
    var ids := Acknowledged(s, stream, |s.audit|);
    AcknowledgedAscends(p, s, stream, |s.audit|);
    forall id
      ensures id in ids <==> id in s.events && StreamOf(s.events[id]) == stream && s.events[id].state == Delivered
    {
      AcknowledgedIsDelivered(p, s, stream, id);
    }
    hide EventsOk, AttemptsOk, CountsOk, PositionsOk, TransactionsOk, AuditOk;
    forall x, y | x in ids && y in line && Before(s.events[y].def, s.events[x].def)
      ensures y in ids
    {
      assert PredecessorsDelivered(s.events, s.events[x]);
      assert Precedes(s.events[y], s.events[x]);
    }
    ClosedIsPrefix(s, ids, line, |ids|);
    assert ids[..|ids|] == ids;
  }

  /** Every stream has such a line. */
  lemma LineExists(p: RetryPolicy, s: State, stream: Stream)
    requires Inv(p, s)
    ensures exists line :: IsLine(s, stream, line)
  {
    IdsAreKeys(p, s);
    var members := set id | id in s.events && StreamOf(s.events[id]) == stream;
    var line := SortMembers(s, members);
    assert IsLine(s, stream, line);
  }

  lemma {:induction false} SortMembers(s: State, members: set<string>) returns (line: seq<string>)
    requires IdsOk(s.events) && members <= s.events.Keys
    ensures Ascending(s, line) && forall id :: id in line <==> id in members
    decreases |members|
  {
    if members == {} {
      line := [];
    } else {
      var x :| x in members;
      var rest := SortMembers(s, members - {x});
      line := InsertMember(s, rest, x);
    }
  }

  lemma {:induction false} InsertMember(s: State, line: seq<string>, x: string) returns (r: seq<string>)
    requires IdsOk(s.events) && Ascending(s, line) && x in s.events && x !in line
    ensures Ascending(s, r) && forall id :: id in r <==> id in line || id == x
  {
    if line == [] {
      r := [x];
    } else {
      var y := line[0];
      assert y in line;
      BeforeTotal(s.events[x].def, s.events[y].def);
      var tail := line[1..];
      assert line == [y] + tail;
      if Before(s.events[x].def, s.events[y].def) {
        r := [x] + line;
        forall j | 0 <= j < |line|
          ensures Before(s.events[x].def, s.events[line[j]].def)
        {
          if j > 0 { BeforeTransitive(s.events[x].def, s.events[y].def, s.events[line[j]].def); }
        }
      } else {
        var rest := InsertMember(s, tail, x);
        r := [y] + rest;
        forall j | 0 <= j < |rest|
          ensures Before(s.events[y].def, s.events[rest[j]].def)
        {
          assert rest[j] in rest;
          if rest[j] != x {
            var k :| 0 <= k < |tail| && tail[k] == rest[j];
            assert line[k + 1] == tail[k];
          }
        }
      }
    }
  }

  /** Delivery attempts never go back: once an event's delivery has started, no earlier event of
      its stream is started or acknowledged, and after an acknowledgement only later ones are. */
  lemma DeliveryNeverGoesBack(p: RetryPolicy, commands: seq<Command>, states: seq<State>, n: nat, i: nat, j: nat)
    requires p.Valid() && IsRun(p, commands, states) && n < |states| && i < j < |states[n].audit|
    requires states[n].audit[i].kind in {DeliveryStarted, DeliveryAcknowledged}
    requires states[n].audit[j].kind in {DeliveryStarted, DeliveryAcknowledged}
    ensures var s := states[n]; var x, y := s.audit[i].workId, s.audit[j].workId;
      x in s.events && y in s.events &&
      (StreamOf(s.events[x]) == StreamOf(s.events[y]) ==>
        !Before(s.events[y].def, s.events[x].def) &&
        (s.audit[i].kind == DeliveryAcknowledged ==> Before(s.events[x].def, s.events[y].def)))
  {
    EveryStateOk(p, commands, states, n);
    hide EventsOk, AttemptsOk, CountsOk, OrderOk, PositionsOk, TransactionsOk;
    var s := states[n];
    assert RecordOk(s.events, i, s.audit[i]) && RecordOk(s.events, j, s.audit[j]);
    assert InOrder(s.events, s.audit[i], s.audit[j]);
    BeforeAsymmetric(s.events[s.audit[i].workId].def, s.events[s.audit[j].workId].def);
    BeforeIrreflexive(s.events[s.audit[i].workId].def);
  }

  /** No stream has two events in flight. */
  lemma OneInFlight(p: RetryPolicy, commands: seq<Command>, states: seq<State>, n: nat, x: string, y: string)
    requires p.Valid() && IsRun(p, commands, states) && n < |states|
    requires x in states[n].events && y in states[n].events
    requires InFlight(states[n].events[x]) && InFlight(states[n].events[y])
    requires StreamOf(states[n].events[x]) == StreamOf(states[n].events[y])
    ensures x == y
  {
    EveryStateOk(p, commands, states, n);
    IdsAreKeys(p, states[n]);
    hide EventsOk, AttemptsOk, CountsOk, AuditOk, PositionsOk, TransactionsOk;
    BeforeCases(states[n].events[x].def, states[n].events[y].def);
  }

  // ---------------------------------------------------------------- stale workers

  /** Whatever the holder of `h` tries on `s` is refused and leaves `s` as it was. */
  ghost predicate Powerless(p: RetryPolicy, s: State, h: LeaseHandle)
  {
    forall now, ack, failure :: Refuses(p, s, h, now, ack, failure)
  }

  ghost predicate Refuses(p: RetryPolicy, s: State, h: LeaseHandle, now: int, ack: Acknowledgement, failure: FailureCause)
  {
    (var r := Heartbeat(p, s, h, now); r.0 == s && r.1.Rejected?) &&
    (var r := StartDelivery(s, h, now); r.0 == s && r.1.Rejected?) &&
    (var r := Acknowledge(s, h, ack, now); r.0 == s && r.1.Rejected?) &&
    (var r := FailDelivery(p, s, h, failure, now); r.0 == s && r.1.Rejected?)
  }

  /** Once an attempt is over, its handle is refused for the rest of the run. */
  lemma StaleWorkerRefused(p: RetryPolicy, commands: seq<Command>, states: seq<State>, i: nat, j: nat, h: LeaseHandle)
    requires p.Valid() && IsRun(p, commands, states) && i <= j < |states|
    requires h.attemptId in states[i].attempts && states[i].attempts[h.attemptId].outcome != Active
    ensures Powerless(p, states[j], h)
  {
    NothingTakenBack(p, commands, states, i, j);
    EveryStateOk(p, commands, states, j);
    assert AttemptGrew(states[i].attempts[h.attemptId], states[j].attempts[h.attemptId]);
    hide Inv, Grew;
    forall now: int, phases: set<EventState>
      ensures Admit(states[j], h, now, phases).Err?
    {
      Admitted(p, states[j], h, now, phases);
    }
    hide Admit, IsRun, AttemptGrew;
    NeverAdmitted(p, states[j], h);
  }

  lemma NeverAdmitted(p: RetryPolicy, s: State, h: LeaseHandle)
    requires forall now, phases :: Admit(s, h, now, phases).Err?
    ensures Powerless(p, s, h)
  {
    hide CheckLease, FinishFailure, AddDuration, Log;
    forall now, ack: Acknowledgement, failure: FailureCause
      ensures Refuses(p, s, h, now, ack, failure)
    {
      assert Admit(s, h, now, {Leased, Delivering}).Err? && Admit(s, h, now, {Leased}).Err? && Admit(s, h, now, {Delivering}).Err?;
    }
  }

  /** Two handles accepted for the same event at the same state are the same handle. */
  lemma OneValidHandle(p: RetryPolicy, s: State, g: LeaseHandle, h: LeaseHandle, t: int, u: int, first: set<EventState>, second: set<EventState>)
    requires Inv(p, s) && g.workId == h.workId
    requires Admit(s, g, t, first).Ok? && Admit(s, h, u, second).Ok?
    ensures g == h && !LeaseIsOver(s, h.workId, u)
  {
    hide Inv;
    Admitted(p, s, g, t, first);
    Admitted(p, s, h, u, second);
  }

  /** A later attempt on the same event carries a larger fencing token. */
  lemma FencingTokensIncrease(p: RetryPolicy, commands: seq<Command>, states: seq<State>, i: nat, j: nat, a: string, b: string)
    requires p.Valid() && IsRun(p, commands, states) && i <= j < |states|
    requires a in states[i].attempts && b in states[j].attempts && b !in states[i].attempts
    requires states[i].attempts[a].workId == states[j].attempts[b].workId
    ensures states[i].attempts[a].fencingToken < states[j].attempts[b].fencingToken
  {
    NothingTakenBack(p, commands, states, i, j);
    EveryStateOk(p, commands, states, i);
    hide EventsOk, CountsOk, OrderOk, AuditOk, PositionsOk, TransactionsOk, EventsGrew;
    assert AttemptOk(states[i].events[states[i].attempts[a].workId], a, states[i].attempts[a]);
  }

  // ---------------------------------------------------------------- idempotent commit

  /** Once a transaction is committed, presenting its id again never changes the state: it returns
      the committed events exactly when the digest and the multiset of event definitions agree,
      in whatever order they come, and is a conflict otherwise. */
  lemma RepeatedCommit(p: RetryPolicy, commands: seq<Command>, states: seq<State>, i: nat, j: nat,
                       first: CommitInput, again: CommitInput)
    requires p.Valid() && IsRun(p, commands, states) && i < j < |states|
    requires commands[i] == DoCommit(first) && Commit(states[i], first).1.Events?
    requires first.transactionId !in states[i].transactions
    requires again.transactionId == first.transactionId && ValidInput(again)
    ensures Commit(states[j], again) ==
      (states[j],
       if again.digest == first.digest && multiset(again.events) == multiset(first.events)
       then Fetch(states[j].events, Ids(first.events)) else Rejected(IdempotencyConflict))
    ensures Fetch(states[j].events, Ids(first.events)).Events?
  {
    var next := Commit(states[i], first).0;
    var id := first.transactionId;
    assert states[i + 1] == next;
    assert id in next.transactions && next.transactions[id].digest == first.digest &&
           next.transactions[id].signature == Signature(first.events) && next.transactions[id].eventIds == Ids(first.events);
    NothingTakenBack(p, commands, states, i + 1, j);
    EveryStateOk(p, commands, states, j);
    hide EventsOk, AttemptsOk, CountsOk, OrderOk, AuditOk, PositionsOk, EventsGrew, AttemptsGrew, Signature;
    assert states[j].transactions[id] == next.transactions[id];
    assert ListedUnder(states[j].events, id, Ids(first.events));
    SignatureIsMultiset(again.events, first.events);
  }
}
