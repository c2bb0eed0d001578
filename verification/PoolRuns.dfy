/** Conservation and order in the handler host pool, under every interleaving of events. */
module PoolRuns {
  import opened Texts
  import opened Pool

  // ---------------------------------------------------------------- where a request is

  /** The requests that workers hold. */
  function Actives(workers: seq<Worker>): multiset<nat>
  {
    if workers == [] then multiset{} else Held(workers[0]) + Actives(workers[1..])
  }

  function Held(w: Worker): multiset<nat>
  {
    if w.active.Some? then multiset{w.active.value} else multiset{}
  }

  function Ids(settled: seq<Settlement>): (r: seq<nat>)
    ensures |r| == |settled| && forall i :: 0 <= i < |settled| ==> r[i] == settled[i].id
  {
    seq(|settled|, i requires 0 <= i < |settled| => settled[i].id)
  }

  /** Every accepted request, counted where it is: queued, held by a worker, or settled. */
  ghost predicate Conserved(s: State)
  {
    multiset(s.queue) + Actives(s.workers) + multiset(Ids(s.settled)) == multiset(s.accepted)
  }

  predicate Ascending(xs: seq<nat>, below: nat)
  {
    (forall i, j :: 0 <= i < j < |xs| ==> xs[i] < xs[j]) && forall i :: 0 <= i < |xs| ==> xs[i] <= below
  }

  /** Requests are dispatched in the order they were accepted, and those that wait came later. */
  ghost predicate Ordered(s: State)
  {
    Ascending(s.accepted, s.sequence) && Ascending(s.dispatched + s.queue, s.sequence) &&
    forall x :: x in s.dispatched ==> x in s.accepted
  }

  ghost predicate OwnAnswer(s: State, x: Settlement)
  {
    match x.outcome
    case Resolved(m, _) => m == x.id && x.id in s.dispatched
    case HandlerFailed(m, _) => m == x.id && x.id in s.dispatched
    case Refused(_) => true
  }

  /** A worker's answer settles the request it names, and only requests that were dispatched. */
  ghost predicate Answered(s: State)
  {
    (forall i :: 0 <= i < |s.settled| ==> OwnAnswer(s, s.settled[i])) &&
    forall i :: 0 <= i < |s.workers| && s.workers[i].active.Some? ==> s.workers[i].active.value in s.dispatched
  }

  /** A worker that could take a request and is not being killed. */
  predicate Idle(w: Worker)
  {
    w.inPool && Available(w) && !w.doomed
  }

  /** Nothing waits beside an idle worker, nor in a pool that does not run. */
  ghost predicate Busy(s: State)
  {
    s.queue != [] ==> Running(s) && forall i :: 0 <= i < |s.workers| ==> !Idle(s.workers[i])
  }

  /** A worker whose startup was rejected before it was ready has left the pool. */
  predicate StartupOk(w: Worker)
  {
    w.startup != Rejects && (!w.ready && w.startup != Waiting ==> !w.inPool)
  }

  ghost predicate StartupsOk(s: State)
  {
    forall i :: 0 <= i < |s.workers| ==> StartupOk(s.workers[i])
  }

  ghost predicate Inv(s: State)
  {
    Conserved(s) && Ordered(s) && Answered(s) && Busy(s)
  }

  // ---------------------------------------------------------------- counting

  lemma Shift(a: multiset<nat>, b: multiset<nat>, c: multiset<nat>, d: multiset<nat>, e: multiset<nat>)
    requires b + c == d + e
    ensures (a + b) + c == (a + d) + e
  {
    assert (a + b) + c == a + (b + c);
  }

  lemma Cancel(x: multiset<nat>, y: multiset<nat>, z: multiset<nat>)
    requires x + z == y + z
    ensures x == y
  {
    assert x == (x + z) - z && y == (y + z) - z;
  }

  lemma {:induction false} ActivesUpdate(workers: seq<Worker>, i: nat, w: Worker)
    requires i < |workers|
    ensures Actives(workers[i := w]) + Held(workers[i]) == Actives(workers) + Held(w)
  {
    hide Held;
    var rest, after := workers[1..], workers[i := w];
    if i == 0 {
      assert after[1..] == rest;
    } else {
      assert after[1..] == rest[i - 1 := w];
      ActivesUpdate(rest, i - 1, w);
      Shift(Held(workers[0]), Actives(rest[i - 1 := w]), Held(workers[i]), Actives(rest), Held(w));
    }
  }

  /** Changing anything but the request of a worker does not move requests. */
  lemma ActivesSame(workers: seq<Worker>, i: nat, w: Worker)
    requires i < |workers| && w.active == workers[i].active
    ensures Actives(workers[i := w]) == Actives(workers)
  {
    hide Actives;
    ActivesUpdate(workers, i, w);
    Cancel(Actives(workers[i := w]), Actives(workers), Held(w));
  }

  lemma ActivesRelease(workers: seq<Worker>, i: nat)
    requires i < |workers| && workers[i].active.Some?
    ensures Actives(workers[i := workers[i].(active := None)]) + multiset{workers[i].active.value} == Actives(workers)
  {
    hide Actives;
    ActivesUpdate(workers, i, workers[i].(active := None));
  }

  lemma ActivesTake(workers: seq<Worker>, i: nat, id: nat)
    requires i < |workers| && workers[i].active.None?
    ensures Actives(workers[i := workers[i].(active := Some(id), timedOut := false)]) == Actives(workers) + multiset{id}
  {
    hide Actives;
    ActivesUpdate(workers, i, workers[i].(active := Some(id), timedOut := false));
  }

  lemma {:induction false} ActivesMap(a: seq<Worker>, b: seq<Worker>)
    requires |a| == |b| && forall i :: 0 <= i < |a| ==> a[i].active == b[i].active
    ensures Actives(a) == Actives(b)
  {
    if a != [] { ActivesMap(a[1..], b[1..]); }
  }

  lemma {:induction false} ActivesAppend(workers: seq<Worker>, w: Worker)
    ensures Actives(workers + [w]) == Actives(workers) + Held(w)
  {
    hide Held;
    if workers == [] {
      assert (workers + [w])[1..] == [];
    } else {
      assert (workers + [w])[1..] == workers[1..] + [w];
      ActivesAppend(workers[1..], w);
    }
  }

  lemma IdsAppend(settled: seq<Settlement>, more: seq<Settlement>)
    ensures multiset(Ids(settled + more)) == multiset(Ids(settled)) + multiset(Ids(more))
  {
    assert Ids(settled + more) == Ids(settled) + Ids(more);
  }

  // ---------------------------------------------------------------- one worker changes

  /** Steps that leave every request where it is. */
  lemma WorkerChange(s: State, i: nat, w: Worker)
    requires Inv(s) && i < |s.workers| && w.active == s.workers[i].active && (Idle(w) ==> Idle(s.workers[i]))
    ensures Inv(s.(workers := s.workers[i := w]))
  {
    hide Actives, Ids, Ascending, OwnAnswer, Idle, Conserved;
    var t := s.(workers := s.workers[i := w]);
    ActivesSame(s.workers, i, w);
    SameCount(s, t);
    OwnAnswersStay(s, t);
  }

  lemma OwnAnswersStay(s: State, t: State)
    requires s.dispatched <= t.dispatched && s.settled <= t.settled
    requires forall i :: 0 <= i < |s.settled| ==> OwnAnswer(s, s.settled[i])
    ensures forall i :: 0 <= i < |s.settled| ==> OwnAnswer(t, t.settled[i])
  {
    forall i | 0 <= i < |s.settled|
      ensures OwnAnswer(t, t.settled[i])
    {
      assert OwnAnswer(s, s.settled[i]);
    }
  }

  lemma DoomKeeps(s: State, i: nat)
    requires Inv(s) && i < |s.workers|
    ensures Inv(Doom(s, i))
  {
    WorkerChange(s, i, s.workers[i].(doomed := true));
    hide Inv;
  }

  // ---------------------------------------------------------------- settling

  /** All but the rule that nothing waits beside an idle worker. */
  ghost predicate Kept(s: State)
  {
    Conserved(s) && Ordered(s) && Answered(s) && (s.queue != [] ==> Running(s))
  }

  ghost predicate NamesItself(id: nat, outcome: Outcome)
  {
    match outcome
    case Resolved(m, _) => m == id
    case HandlerFailed(m, _) => m == id
    case Refused(_) => true
  }

  lemma SettleKeeps(s: State, i: nat, outcome: Outcome)
    requires Kept(s) && i < |s.workers| && (s.workers[i].active.Some? ==> NamesItself(s.workers[i].active.value, outcome))
    ensures Kept(Settle(s, i, outcome))
  {
    hide Actives, Ids, Ascending, OwnAnswer, Answered, NamesItself, Conserved;
    var w := s.workers[i];
    if w.active.Some? {
      var t := Settle(s, i, outcome);
      var x := Settlement(w.active.value, outcome);
      ActivesRelease(s.workers, i);
      IdsAppend(s.settled, [x]);
      assert Ids([x]) == [x.id];
      SettledCount(s, t, x.id);
      SettleAnswers(s, i, outcome);
    }
  }

  lemma SettleAnswers(s: State, i: nat, outcome: Outcome)
    requires Answered(s) && i < |s.workers| && s.workers[i].active.Some? && NamesItself(s.workers[i].active.value, outcome)
    ensures Answered(Settle(s, i, outcome))
  {
    var t := Settle(s, i, outcome);
    OwnAnswersStay(s, t);
    assert OwnAnswer(t, t.settled[|s.settled|]);
    hide OwnAnswer;
  }

  lemma SettledCount(s: State, t: State, id: nat)
    requires Conserved(s) && t.queue == s.queue && t.accepted == s.accepted
    requires Actives(t.workers) + multiset{id} == Actives(s.workers)
    requires multiset(Ids(t.settled)) == multiset(Ids(s.settled)) + multiset{id}
    ensures Conserved(t)
  {
    hide Actives, Ids;
  }

  /** Requests refused together when the pool stops or fails. */
  lemma FlushKeeps(s: State)
    requires Kept(s)
    ensures Kept(Flush(s)) && Flush(s).queue == []
  {
    hide Actives, Ids, Ascending, Answered, Conserved;
    var t := Flush(s);
    IdsAppend(s.settled, Refusals(s.queue));
    assert Ids(Refusals(s.queue)) == s.queue;
    FlushCount(s, t);
    FlushAnswers(s);
    OrderedPrefix(s);
    assert t.dispatched + t.queue == s.dispatched;
  }

  lemma FlushCount(s: State, t: State)
    requires Conserved(s) && t.queue == [] && t.accepted == s.accepted && t.workers == s.workers
    requires multiset(Ids(t.settled)) == multiset(Ids(s.settled)) + multiset(s.queue)
    ensures Conserved(t)
  {
    hide Actives, Ids;
  }

  lemma FlushAnswers(s: State)
    requires Answered(s)
    ensures Answered(Flush(s))
  {
    var t := Flush(s);
    OwnAnswersStay(s, t);
    forall i | 0 <= i < |t.settled|
      ensures OwnAnswer(t, t.settled[i])
    {
      if i >= |s.settled| { assert t.settled[i] == Refusals(s.queue)[i - |s.settled|]; }
    }
  }

  lemma OrderedPrefix(s: State)
    requires Ordered(s)
    ensures Ascending(s.dispatched, s.sequence)
  {
    var all := s.dispatched + s.queue;
    assert forall i :: 0 <= i < |s.dispatched| ==> s.dispatched[i] == all[i];
  }

  // ---------------------------------------------------------------- dispatching

  lemma AssignKeeps(s: State, i: nat)
    requires Kept(s) && i < |s.workers| && s.queue != [] && s.workers[i].active.None?
    ensures Kept(Assign(s, i))
  {
    hide Actives, Ids, Ascending, Answered, Conserved;
    var t := Assign(s, i);
    ActivesTake(s.workers, i, s.queue[0]);
    assert s.queue == [s.queue[0]] + s.queue[1..];
    assert multiset(s.queue) == multiset{s.queue[0]} + multiset(s.queue[1..]);
    AssignCount(s, t, s.queue[0]);
    AssignAnswers(s, i);
    QueueAccepted(s);
    assert t.dispatched + t.queue == s.dispatched + s.queue;
  }

  lemma QueueAccepted(s: State)
    requires Conserved(s)
    ensures forall x :: x in s.queue ==> x in s.accepted
  {
    hide Actives, Ids;
    forall x | x in s.queue
      ensures x in s.accepted
    {
      assert multiset(s.queue)[x] <= multiset(s.accepted)[x];
    }
  }

  lemma AssignAnswers(s: State, i: nat)
    requires Answered(s) && i < |s.workers| && s.queue != []
    ensures Answered(Assign(s, i))
  {
    hide OwnAnswer;
    var t := Assign(s, i);
    OwnAnswersStay(s, t);
    assert t.dispatched[|s.dispatched|] == s.queue[0];
    forall k | 0 <= k < |t.workers| && t.workers[k].active.Some?
      ensures t.workers[k].active.value in t.dispatched
    {
      if k != i { assert s.workers[k].active.value in s.dispatched; }
    }
  }

  lemma AssignCount(s: State, t: State, id: nat)
    requires Conserved(s) && t.settled == s.settled && t.accepted == s.accepted
    requires Actives(t.workers) == Actives(s.workers) + multiset{id} && multiset(s.queue) == multiset{id} + multiset(t.queue)
    ensures Conserved(t)
  {
    hide Actives, Ids;
  }

  /** Worker `k` is not idle. */
  ghost predicate NoneIdle(s: State, to: nat)
  {
    forall k :: 0 <= k < to && k < |s.workers| ==> !Idle(s.workers[k])
  }

  /** After a drain, requests wait only if no worker is free. */
  lemma {:induction false} DrainFromKeeps(s: State, i: nat)
    requires Kept(s) && NoneIdle(s, i) && Running(s)
    ensures Kept(DrainFrom(s, i)) && Running(DrainFrom(s, i))
    ensures DrainFrom(s, i).queue != [] ==> NoneIdle(DrainFrom(s, i), |DrainFrom(s, i).workers|)
    decreases if i <= |s.workers| then |s.workers| - i else 0
  {
    hide Kept;
    if i < |s.workers| && s.queue != [] {
      if !s.workers[i].inPool || !Available(s.workers[i]) {
        DrainFromKeeps(s, i + 1);
      } else {
        AssignKeeps(s, i);
        DrainFromKeeps(Assign(s, i), i + 1);
      }
    }
  }

  lemma DrainKeeps(s: State)
    requires Kept(s) && Running(s)
    ensures Inv(Drain(s))
  {
    hide Conserved, Ordered, Answered, Idle;
    DrainFromKeeps(s, 0);
  }

  lemma InvIsKept(s: State)
    requires Inv(s)
    ensures Kept(s)
  {
    hide Conserved, Ordered, Answered, Idle;
  }

  /** A drain after any step of a running pool; a pool that does not run has nothing to drain. */
  lemma DrainSettles(s: State)
    requires Kept(s)
    ensures Inv(Drain(s))
  {
    hide Conserved, Ordered, Answered, Idle;
    if Running(s) { DrainKeeps(s); }
  }

  // ---------------------------------------------------------------- every event

  /** The records of a run only grow. */
  ghost predicate Grew(s: State, t: State)
  {
    s.accepted <= t.accepted && s.dispatched <= t.dispatched && s.settled <= t.settled
  }

  lemma {:induction false} DrainFromGrew(s: State, i: nat)
    ensures Grew(s, DrainFrom(s, i))
    decreases if i <= |s.workers| then |s.workers| - i else 0
  {
    if i < |s.workers| && s.queue != [] {
      if !s.workers[i].inPool || !Available(s.workers[i]) { DrainFromGrew(s, i + 1); } else { DrainFromGrew(Assign(s, i), i + 1); }
    }
  }

  ghost predicate Good(s: State, t: State)
  {
    Inv(t) && Grew(s, t)
  }

  lemma GoodSelf(s: State)
    requires Inv(s)
    ensures Good(s, s)
  {
    hide Inv;
  }

  lemma InvokeGood(s: State, valid: bool)
    requires Inv(s)
    ensures Good(s, Invoke(s, valid))
  {
    hide Drain, Actives, Ids, Idle, OwnAnswer;
    if Running(s) && !s.fatal {
      var id := s.sequence + 1;
      var t := s.(sequence := id);
      var u := t.(queue := s.queue + [id], accepted := s.accepted + [id]);
      AcceptKeeps(s);
      DrainSettles(u);
      DrainGrew(u);
      hide Ascending;
    }
  }

  lemma DrainGrew(s: State)
    ensures Grew(s, Drain(s))
  {
    DrainFromGrew(s, 0);
    hide DrainFrom;
  }

  /** Counting a request that is not accepted, and queueing one that is. */
  lemma AcceptKeeps(s: State)
    requires Inv(s)
    ensures var t := s.(sequence := s.sequence + 1); Inv(t) && (Running(s) ==> Kept(t.(queue := s.queue + [t.sequence], accepted := s.accepted + [t.sequence])))
  {
    hide Actives, Ids, Idle, OwnAnswer;
    var t := s.(sequence := s.sequence + 1);
    var u := t.(queue := s.queue + [t.sequence], accepted := s.accepted + [t.sequence]);
    assert u.dispatched + u.queue == (s.dispatched + s.queue) + [t.sequence];
    AscendingPush(s.accepted, s.sequence);
    AscendingPush(s.dispatched + s.queue, s.sequence);
    AcceptCount(s, u, t.sequence);
    hide Ascending, Conserved;
    OwnAnswersStay(s, t);
    OwnAnswersStay(s, u);
    assert Conserved(t) by { SameCount(s, t); }
  }

  lemma SameCount(s: State, t: State)
    requires Conserved(s) && t.queue == s.queue && t.accepted == s.accepted && t.settled == s.settled && Actives(t.workers) == Actives(s.workers)
    ensures Conserved(t)
  {
  }

  lemma AcceptCount(s: State, t: State, id: nat)
    requires Conserved(s) && t.queue == s.queue + [id] && t.accepted == s.accepted + [id] && t.settled == s.settled && t.workers == s.workers
    ensures Conserved(t)
  {
    hide Actives, Ids;
  }

  lemma AscendingPush(xs: seq<nat>, below: nat)
    requires Ascending(xs, below)
    ensures Ascending(xs, below + 1) && Ascending(xs + [below + 1], below + 1)
  {
  }

  lemma FailProtocolGood(s: State, i: nat)
    requires Inv(s) && i < |s.workers|
    ensures Good(s, FailProtocol(s, i))
  {
    hide Conserved, Ordered, Answered;
    InvIsKept(s);
    SettleKeeps(s, i, Refused(ProtocolMismatch));
    var t := Settle(s, i, Refused(ProtocolMismatch));
    DoomAfter(s, i, t);
  }

  /** The worker that failed is doomed, so it does not count as idle. */
  lemma DoomAfter(s: State, i: nat, t: State)
    requires Inv(s) && i < |s.workers| && t == Settle(s, i, Refused(ProtocolMismatch)) && Kept(t)
    ensures Inv(Doom(t, i))
  {
    hide Actives, Ids, Ascending, OwnAnswer;
    var u := Doom(t, i);
    ActivesSame(t.workers, i, t.workers[i].(doomed := true));
    OwnAnswersStay(t, u);
    SameCount(t, u);
    hide Conserved;
    forall k | 0 <= k < |u.workers| && u.queue != []
      ensures !Idle(u.workers[k])
    {
      if k != i { assert u.workers[k] == s.workers[k]; }
    }
  }

  lemma AnswerGood(s: State, i: nat, outcome: Outcome)
    requires Inv(s) && i < |s.workers| && s.workers[i].active.Some? && NamesItself(s.workers[i].active.value, outcome)
    ensures Good(s, Drain(Settle(s, i, outcome)))
  {
    hide Conserved, Ordered, Answered, Idle, NamesItself, Drain;
    InvIsKept(s);
    SettleKeeps(s, i, outcome);
    DrainSettles(Settle(s, i, outcome));
    DrainGrew(Settle(s, i, outcome));
  }

  lemma ReadyGood(s: State, i: nat)
    requires Inv(s) && i < |s.workers| && !s.workers[i].ready
    ensures var w := s.workers[i]; var t := s.(workers := s.workers[i := w.(ready := true, startup := if w.startup == Waiting then Resolves else w.startup)]);
      Good(s, Drain(t)) && (w.doomed || w.exited || !w.inPool ==> Good(s, t))
  {
    hide Conserved, Ordered, Answered, Drain;
    var w := s.workers[i];
    var v := w.(ready := true, startup := if w.startup == Waiting then Resolves else w.startup);
    var t := s.(workers := s.workers[i := v]);
    KeptWorker(s, i, v);
    DrainSettles(t);
    DrainGrew(t);
    if w.doomed || w.exited || !w.inPool { WorkerChange(s, i, v); }
    hide Idle, Inv;
  }

  lemma KeptWorker(s: State, i: nat, w: Worker)
    requires Inv(s) && i < |s.workers| && w.active == s.workers[i].active
    ensures Kept(s.(workers := s.workers[i := w]))
  {
    hide Actives, Ids, Ascending, OwnAnswer, Idle;
    var t := s.(workers := s.workers[i := w]);
    ActivesSame(s.workers, i, w);
    SameCount(s, t);
    hide Conserved;
    OwnAnswersStay(s, t);
  }

  lemma ReceiveGood(s: State, i: nat, m: Message)
    requires Inv(s) && StartupsOk(s) && i < |s.workers|
    ensures Good(s, Receive(s, i, m))
  {
    hide Inv, Drain, Settle, FailProtocol, Good;
    FailProtocolGood(s, i);
    var w := s.workers[i];
    match m
    case Garbage =>
    case ReadyMessage(pid) =>
      assert StartupOk(w);
      if !w.ready { ReadyGood(s, i); }
    case ResultMessage(id, payload) =>
      if w.active == Some(id) { AnswerGood(s, i, Resolved(id, payload)); }
    case ErrorMessage(id, code) =>
      if w.active == Some(id) { AnswerGood(s, i, HandlerFailed(id, code)); }
  }

  lemma TimeoutGood(s: State, i: nat, id: nat)
    requires Inv(s) && i < |s.workers|
    ensures Good(s, Timeout(s, i, id))
  {
    hide Conserved, Ordered, Answered, Busy;
    var w := s.workers[i].(timedOut := true);
    WorkerChange(s, i, w);
    DoomKeeps(s.(workers := s.workers[i := w]), i);
    hide Inv;
  }

  lemma StartupTimeoutGood(s: State, i: nat)
    requires Inv(s) && i < |s.workers|
    ensures Good(s, StartupTimeout(s, i))
  {
    hide Conserved, Ordered, Answered, Busy;
    var w := s.workers[i].(startup := Rejects);
    WorkerChange(s, i, w);
    DoomKeeps(s.(workers := s.workers[i := w]), i);
    hide Inv;
  }

  lemma SpawnKeeps(s: State, pid: nat, initial: bool)
    requires Inv(s)
    ensures Inv(Spawn(s, pid, initial))
  {
    hide Actives, Ids, Ascending, OwnAnswer;
    var t := Spawn(s, pid, initial);
    ActivesAppend(s.workers, Fresh(pid, initial));
    SameCount(s, t);
    hide Conserved;
    OwnAnswersStay(s, t);
    assert !Idle(Fresh(pid, initial));
  }

  function Leaving(w: Worker): Worker
  {
    w.(exited := true, ready := false, inPool := false, startup := if w.startup == Waiting then Rejects else w.startup)
  }

  lemma LeavingGood(s: State, i: nat, outcome: Outcome)
    requires Inv(s) && i < |s.workers| && outcome.Refused?
    ensures Good(s, Settle(s.(workers := s.workers[i := Leaving(s.workers[i])]), i, outcome))
  {
    hide Conserved, Ordered, Answered, Busy, Kept;
    var left := s.(workers := s.workers[i := Leaving(s.workers[i])]);
    WorkerChange(s, i, Leaving(s.workers[i]));
    InvIsKept(left);
    SettleKeeps(left, i, outcome);
    SettledOut(left, i, outcome);
    hide Inv, Idle;
  }

  lemma ExitGood(s: State, i: nat, pid: nat)
    requires Inv(s) && i < |s.workers|
    ensures Good(s, Exit(s, i, pid))
  {
    hide Inv, Settle, Spawn;
    var w := s.workers[i];
    if !w.exited {
      var why := Refused(if w.timedOut then HandlerTimeout else HostExited);
      LeavingGood(s, i, why);
      var t := Settle(s.(workers := s.workers[i := Leaving(w)]), i, why);
      SpawnKeeps(t, pid, false);
      SpawnGrew(t, pid, false);
    }
  }

  lemma SpawnGrew(s: State, pid: nat, initial: bool)
    ensures Grew(s, Spawn(s, pid, initial))
  {
  }

  /** Settling the request of a worker that has left makes no worker idle. */
  lemma SettledOut(s: State, i: nat, outcome: Outcome)
    requires Inv(s) && i < |s.workers| && !s.workers[i].inPool && Kept(Settle(s, i, outcome))
    ensures Inv(Settle(s, i, outcome))
  {
    hide Conserved, Ordered, Answered;
    var t := Settle(s, i, outcome);
    forall k | 0 <= k < |t.workers| && t.queue != []
      ensures !Idle(t.workers[k])
    {
      if k != i { assert t.workers[k] == s.workers[k]; }
    }
  }

  lemma StopGood(s: State)
    requires Inv(s)
    ensures Good(s, BeginStop(s))
  {
    hide Actives, Ids, Ascending, OwnAnswer;
    if s.started || s.stopping {
      InvIsKept(s);
      FlushKeeps(s);
      var f := Flush(s);
      var t := BeginStop(s);
      ActivesMap(s.workers, t.workers);
      SameCount(f, t);
      hide Conserved, Idle;
      OwnAnswersStay(f, t);
    }
  }

  lemma EndStopGood(s: State)
    requires Inv(s)
    ensures Good(s, EndStop(s))
  {
    hide Actives, Ids, Ascending, OwnAnswer;
    var t := EndStop(s);
    if t != s {
      ActivesMap(s.workers, t.workers);
      SameCount(s, t);
      hide Conserved, Idle;
      OwnAnswersStay(s, t);
    }
  }

  lemma StartupFailureGood(s: State, i: nat)
    requires Inv(s) && i < |s.workers|
    ensures Good(s, StartupFailure(s, i))
  {
    hide Conserved, Ordered, Answered, BeginStop, Flush;
    var w := s.workers[i];
    if w.startup == Rejects {
      var v := w.(startup := Handled, inPool := false);
      var left := s.(workers := s.workers[i := v]);
      WorkerChange(s, i, v);
      StopGood(left);
      InvIsKept(left);
      FlushKeeps(left);
      FatalGood(left);
      hide Idle;
    }
  }

  lemma FatalGood(s: State)
    requires Kept(Flush(s)) && Flush(s).queue == []
    ensures Good(s, Flush(s).(fatal := true))
  {
    hide Actives, Ids, Ascending, OwnAnswer;
    var f := Flush(s);
    var t := f.(fatal := true);
    SameCount(f, t);
    hide Conserved, Idle;
    OwnAnswersStay(f, t);
  }

  lemma {:induction false} SpawnAllGood(s: State, pids: seq<nat>)
    requires Inv(s)
    ensures Good(s, SpawnAll(s, pids))
    decreases |pids|
  {
    hide Inv;
    if pids != [] {
      SpawnKeeps(s, pids[0], true);
      SpawnAllGood(Spawn(s, pids[0], true), pids[1..]);
    }
  }

  lemma StartGood(s: State, pids: seq<nat>)
    requires Inv(s)
    ensures Good(s, Start(s, pids))
  {
    hide SpawnAll, Actives, Ids, Ascending, OwnAnswer;
    if !s.started && !s.stopping {
      var t := s.(fatal := false, started := true);
      SameCount(s, t);
      hide Conserved, Idle;
      OwnAnswersStay(s, t);
      assert Inv(t);
      SpawnAllGood(t, pids);
    }
  }

  // ---------------------------------------------------------------- startups

  lemma StartupUpdate(s: State, i: nat, w: Worker)
    requires StartupsOk(s) && i < |s.workers| && StartupOk(w)
    ensures StartupsOk(s.(workers := s.workers[i := w]))
  {
    hide StartupOk;
  }

  lemma {:induction false} StartupsDrain(s: State, i: nat)
    requires StartupsOk(s)
    ensures StartupsOk(DrainFrom(s, i))
    decreases if i <= |s.workers| then |s.workers| - i else 0
  {
    if i < |s.workers| && s.queue != [] {
      if !s.workers[i].inPool || !Available(s.workers[i]) {
        StartupsDrain(s, i + 1);
      } else {
        StartupsAssign(s, i);
        StartupsDrain(Assign(s, i), i + 1);
      }
    }
  }

  lemma StartupsAssign(s: State, i: nat)
    requires StartupsOk(s) && i < |s.workers| && s.queue != []
    ensures StartupsOk(Assign(s, i))
  {
    assert StartupOk(s.workers[i]);
  }

  lemma StartupsSettle(s: State, i: nat, outcome: Outcome)
    requires StartupsOk(s) && i < |s.workers|
    ensures StartupsOk(Settle(s, i, outcome)) && StartupsOk(Doom(s, i))
  {
    assert StartupOk(s.workers[i]);
  }

  lemma StartupsFailProtocol(s: State, i: nat)
    requires StartupsOk(s) && i < |s.workers|
    ensures StartupsOk(FailProtocol(s, i))
  {
    hide StartupsOk;
    StartupsSettle(s, i, Refused(ProtocolMismatch));
    StartupsSettle(Settle(s, i, Refused(ProtocolMismatch)), i, Refused(ProtocolMismatch));
  }

  lemma StartupsReceive(s: State, i: nat, m: Message)
    requires StartupsOk(s) && i < |s.workers|
    ensures StartupsOk(Receive(s, i, m))
  {
    assert StartupOk(s.workers[i]);
    hide StartupsOk, DrainFrom, Settle, FailProtocol;
    StartupsFailProtocol(s, i);
    match m
    case Garbage =>
    case ReadyMessage(pid) =>
      var w := s.workers[i];
      var v := w.(ready := true, startup := if w.startup == Waiting then Resolves else w.startup);
      StartupUpdate(s, i, v);
      StartupsDrain(s.(workers := s.workers[i := v]), 0);
    case ResultMessage(id, payload) =>
      StartupsSettle(s, i, Resolved(id, payload));
      StartupsDrain(Settle(s, i, Resolved(id, payload)), 0);
    case ErrorMessage(id, code) =>
      StartupsSettle(s, i, HandlerFailed(id, code));
      StartupsDrain(Settle(s, i, HandlerFailed(id, code)), 0);
  }

  lemma StartupsTooLate(s: State, i: nat)
    requires StartupsOk(s) && i < |s.workers|
    ensures StartupsOk(StartupFailure(StartupTimeout(s, i), i))
  {
    hide StopWorkers, Refusals;
    assert StartupOk(s.workers[i]);
    var t := StartupTimeout(s, i);
    assert forall k :: 0 <= k < |s.workers| && k != i ==> t.workers[k] == s.workers[k];
    HandledStartups(t, i);
  }

  /** All startups are in order but that of worker `i`, which is being handled. */
  lemma HandledStartups(s: State, i: nat)
    requires i < |s.workers| && (s.workers[i].startup == Rejects || StartupOk(s.workers[i]))
    requires forall k :: 0 <= k < |s.workers| && k != i ==> StartupOk(s.workers[k])
    ensures StartupsOk(StartupFailure(s, i))
  {
    hide Refusals;
  }

  lemma StartupsExit(s: State, i: nat, pid: nat)
    requires StartupsOk(s) && i < |s.workers|
    ensures StartupsOk(StartupFailure(Exit(s, i, pid), i))
  {
    hide StopWorkers, Refusals;
    assert StartupOk(s.workers[i]);
    var t := Exit(s, i, pid);
    assert forall k :: 0 <= k < |s.workers| && k != i ==> t.workers[k] == s.workers[k];
    assert forall k :: |s.workers| <= k < |t.workers| ==> t.workers[k] == Fresh(pid, false);
    HandledStartups(t, i);
  }

  lemma StartupsWorker(s: State, i: nat, what: WorkerEvent)
    requires StartupsOk(s) && i < |s.workers|
    ensures StartupsOk(WorkerStep(s, i, what))
  {
    hide Receive, StartupFailure, Exit, StartupTimeout;
    assert StartupOk(s.workers[i]);
    match what
    case Says(m) => StartupsReceive(s, i, m);
    case TimesOut(id) =>
    case StartsTooLate => StartupsTooLate(s, i);
    case IsKilled =>
    case Exits(pid) => StartupsExit(s, i, pid);
  }

  lemma {:induction false} StartupsSpawn(s: State, pids: seq<nat>)
    requires StartupsOk(s)
    ensures StartupsOk(SpawnAll(s, pids))
    decreases |pids|
  {
    if pids != [] { StartupsSpawn(Spawn(s, pids[0], true), pids[1..]); }
  }

  lemma StartupsKept(s: State, e: Event)
    requires StartupsOk(s) && Enabled(s, e)
    ensures StartupsOk(Step(s, e))
  {
    hide WorkerStep, SpawnAll, DrainFrom;
    match e
    case DoStart(pids) => StartupsSpawn(s.(fatal := false, started := true), pids);
    case DoInvoke(valid) =>
      var id := s.sequence + 1;
      StartupsDrain(s.(sequence := id, queue := s.queue + [id], accepted := s.accepted + [id]), 0);
    case OnWorker(i, what) => StartupsWorker(s, i, what);
    case _ =>
  }

  // ---------------------------------------------------------------- runs

  lemma StepKeeps(s: State, e: Event)
    requires Inv(s) && StartupsOk(s) && Enabled(s, e)
    ensures Good(s, Step(s, e)) && StartupsOk(Step(s, e))
  {
    hide Inv, StartupsOk, Good, Start, Invoke, Receive, Timeout, StartupTimeout, Doom, Exit, StartupFailure, BeginStop, EndStop;
    StartupsKept(s, e);
    match e
    case DoStart(pids) => StartGood(s, pids);
    case DoInvoke(valid) => InvokeGood(s, valid);
    case DoStop => StopGood(s);
    case DoEndStop => EndStopGood(s);
    case OnWorker(i, what) =>
      match what
      case Says(m) => ReceiveGood(s, i, m);
      case TimesOut(id) => TimeoutGood(s, i, id);
      case StartsTooLate => TooLateGood(s, i);
      case IsKilled => KillGood(s, i);
      case Exits(pid) => LeavesGood(s, i, pid);
  }

  lemma TooLateGood(s: State, i: nat)
    requires Inv(s) && i < |s.workers|
    ensures Good(s, StartupFailure(StartupTimeout(s, i), i))
  {
    hide Inv, StartupTimeout, StartupFailure;
    StartupTimeoutGood(s, i);
    StartupFailureGood(StartupTimeout(s, i), i);
  }

  lemma LeavesGood(s: State, i: nat, pid: nat)
    requires Inv(s) && i < |s.workers|
    ensures Good(s, StartupFailure(Exit(s, i, pid), i))
  {
    hide Inv, Exit, StartupFailure;
    ExitGood(s, i, pid);
    StartupFailureGood(Exit(s, i, pid), i);
  }

  lemma KillGood(s: State, i: nat)
    requires Inv(s) && i < |s.workers|
    ensures Good(s, Doom(s, i))
  {
    DoomKeeps(s, i);
    hide Inv;
  }

  lemma {:induction false} EveryStateOk(size: nat, events: seq<Event>, states: seq<State>, i: nat)
    requires IsRun(size, events, states) && i < |states|
    ensures Inv(states[i]) && StartupsOk(states[i])
  {
    if i > 0 {
      hide Inv, StartupsOk, Step, Grew, Enabled;
      EveryStateOk(size, events, states, i - 1);
      StepKeeps(states[i - 1], events[i - 1]);
      assert states[i] == Step(states[i - 1], events[i - 1]);
    }
  }

  /** In how many places request `id` is. */
  ghost function Places(s: State, id: nat): nat
  {
    multiset(s.queue)[id] + Actives(s.workers)[id] + multiset(Ids(s.settled))[id]
  }

  /** An accepted request is in exactly one place - the queue, one worker, or settled - exactly once;
      any other is nowhere. */
  lemma ExactlyOnePlace(size: nat, events: seq<Event>, states: seq<State>, i: nat, id: nat)
    requires IsRun(size, events, states) && i < |states|
    ensures Places(states[i], id) == if id in states[i].accepted then 1 else 0
  {
    hide Actives, Ids, Answered, Busy, StartupsOk;
    EveryStateOk(size, events, states, i);
    AscendingOnce(states[i].accepted, states[i].sequence, id);
  }

  lemma {:induction false} AscendingOnce(xs: seq<nat>, below: nat, id: nat)
    requires Ascending(xs, below)
    ensures multiset(xs)[id] == if id in xs then 1 else 0
  {
    if xs != [] {
      assert xs == [xs[0]] + xs[1..];
      AscendingOnce(xs[1..], below, id);
      assert forall j :: 0 <= j < |xs| - 1 ==> xs[1..][j] == xs[j + 1];
    }
  }

  /** What is accepted, dispatched and settled stays so: a request never settles a second time. */
  lemma {:induction false} NothingTakenBack(size: nat, events: seq<Event>, states: seq<State>, i: nat, j: nat)
    requires IsRun(size, events, states) && i <= j < |states|
    ensures Grew(states[i], states[j])
    decreases j
  {
    hide Inv, StartupsOk, Step, Enabled;
    if i < j {
      NothingTakenBack(size, events, states, i, j - 1);
      EveryStateOk(size, events, states, j - 1);
      StepKeeps(states[j - 1], events[j - 1]);
      assert states[j] == Step(states[j - 1], events[j - 1]);
    }
  }

  /** `xs` is `ys` with some elements left out. */
  predicate IsSubsequence(xs: seq<nat>, ys: seq<nat>)
  {
    xs == [] || (ys != [] && (if xs[0] == ys[0] then IsSubsequence(xs[1..], ys[1..]) else IsSubsequence(xs, ys[1..])))
  }

  lemma {:induction false} AscendingSubsequence(xs: seq<nat>, ys: seq<nat>, below: nat)
    requires Ascending(xs, below) && Ascending(ys, below) && forall x :: x in xs ==> x in ys
    ensures IsSubsequence(xs, ys)
    decreases |ys|
  {
    if xs != [] {
      assert xs[0] in ys;
      assert ys == [ys[0]] + ys[1..];
      if xs[0] == ys[0] {
        forall x | x in xs[1..]
          ensures x in ys[1..]
        {
          var j :| 0 <= j < |xs[1..]| && xs[1..][j] == x;
          assert xs[0] < xs[j + 1] && x in xs;
        }
        AscendingSubsequence(xs[1..], ys[1..], below);
      } else {
        forall x | x in xs
          ensures x in ys[1..]
        {
          FirstIsLeast(ys, below, xs[0]);
          FirstIsLeast(xs, below, x);
        }
        AscendingSubsequence(xs, ys[1..], below);
      }
    }
  }

  lemma FirstIsLeast(xs: seq<nat>, below: nat, x: nat)
    requires Ascending(xs, below) && x in xs
    ensures xs[0] <= x
  {
  }

  /** First in, first out: requests reach the workers in the order they were accepted, each at most
      once, and those that still wait come after them, in that order too. */
  lemma FirstInFirstOut(size: nat, events: seq<Event>, states: seq<State>, i: nat)
    requires IsRun(size, events, states) && i < |states|
    ensures IsSubsequence(states[i].dispatched + states[i].queue, states[i].accepted)
    ensures forall a, b :: 0 <= a < b < |states[i].accepted| ==> states[i].accepted[a] != states[i].accepted[b]
  {
    hide Answered, Busy, StartupsOk, Conserved, IsSubsequence;
    EveryStateOk(size, events, states, i);
    QueueAccepted(states[i]);
    AscendingSubsequence(states[i].dispatched + states[i].queue, states[i].accepted, states[i].sequence);
  }

  /** A host's answer settles only the request that it names, which had been dispatched. */
  lemma AnswersTheirOwn(size: nat, events: seq<Event>, states: seq<State>, i: nat, k: nat)
    requires IsRun(size, events, states) && i < |states| && k < |states[i].settled|
    ensures NamesItself(states[i].settled[k].id, states[i].settled[k].outcome)
    ensures !states[i].settled[k].outcome.Refused? ==> states[i].settled[k].id in states[i].dispatched
  {
    hide Conserved, Ordered, Busy, StartupsOk;
    EveryStateOk(size, events, states, i);
    assert OwnAnswer(states[i], states[i].settled[k]);
  }

  /** No request waits while a worker that is not being killed is free, nor in a stopped pool. */
  lemma NobodyWaitsInVain(size: nat, events: seq<Event>, states: seq<State>, i: nat)
    requires IsRun(size, events, states) && i < |states| && states[i].queue != []
    ensures Running(states[i]) && forall k :: 0 <= k < |states[i].workers| ==> !Idle(states[i].workers[k])
  {
    hide Conserved, Ordered, Answered, StartupsOk;
    EveryStateOk(size, events, states, i);
  }
}
