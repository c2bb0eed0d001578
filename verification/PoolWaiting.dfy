/** When a request waits although a worker is free: `#failProtocol` clears the worker's request and
    signals its process, but drains nothing. */
module PoolWaiting {
  import opened Texts
  import opened Pool
  import opened PoolRuns

  /** `#drain` would give this worker a request. */
  predicate Free(w: Worker)
  {
    w.inPool && Available(w)
  }

  /** Nothing waits beside a free worker. */
  ghost predicate Served(s: State)
  {
    s.queue != [] ==> NoneFree(s, |s.workers|)
  }

  ghost predicate NoneFree(s: State, to: nat)
  {
    forall i :: 0 <= i < to && i < |s.workers| ==> !Free(s.workers[i])
  }

  /** A message that `#handleMessage` answers with a protocol failure. */
  predicate Breaches(w: Worker, m: Message)
  {
    match m
    case Garbage => true
    case ReadyMessage(pid) => w.ready || pid != w.pid
    case ResultMessage(id, _) => w.active != Some(id)
    case ErrorMessage(id, _) => w.active != Some(id)
  }

  /** The event leaves a request waiting beside a free worker: a message that fails the protocol of a
      ready worker with a request, while others wait. */
  predicate Strands(s: State, e: Event)
  {
    s.queue != [] && e.OnWorker? && e.what.Says? && e.worker < |s.workers| &&
    var w := s.workers[e.worker];
    w.inPool && w.ready && !w.exited && !w.stopping && w.active.Some? && Breaches(w, e.what.message)
  }

  // ---------------------------------------------------------------- draining

  lemma {:induction false} DrainFromServes(s: State, i: nat)
    requires NoneFree(s, i)
    ensures Served(DrainFrom(s, i))
    decreases if i <= |s.workers| then |s.workers| - i else 0
  {
    if i < |s.workers| && s.queue != [] {
      if Free(s.workers[i]) { DrainFromServes(Assign(s, i), i + 1); } else { DrainFromServes(s, i + 1); }
    }
  }

  lemma DrainServes(s: State)
    requires s.queue != [] ==> Running(s)
    ensures Served(Drain(s))
  {
    hide DrainFrom;
    DrainFromServes(s, 0);
  }

  // ---------------------------------------------------------------- one worker

  lemma WorkerServes(s: State, i: nat, w: Worker)
    requires Served(s) && i < |s.workers|
    ensures Served(s.(workers := s.workers[i := w])) <==> (s.queue == [] || !Free(w))
  {
    hide Free;
    var t := s.(workers := s.workers[i := w]);
    assert t.workers[i] == w;
  }

  lemma FailServes(s: State, i: nat)
    requires Served(s) && i < |s.workers|
    ensures var w := s.workers[i];
      Served(FailProtocol(s, i)) <==> !(s.queue != [] && w.inPool && w.ready && !w.exited && !w.stopping && w.active.Some?)
  {
    var w := s.workers[i];
    var v := w.(active := None, doomed := w.doomed || !w.exited);
    FailIs(s, i, v);
    assert s.queue != [] ==> !Free(w);
    WorkerServes(s, i, v);
    hide FailProtocol;
    SameServed(FailProtocol(s, i), s.(workers := s.workers[i := v]));
  }

  lemma FailIs(s: State, i: nat, v: Worker)
    requires i < |s.workers| && v == s.workers[i].(active := None, doomed := s.workers[i].doomed || !s.workers[i].exited)
    ensures FailProtocol(s, i).workers == s.workers[i := v] && FailProtocol(s, i).queue == s.queue
  {
    SettleIs(s, i, Refused(ProtocolMismatch));
    var settled := Settle(s, i, Refused(ProtocolMismatch));
    DoomIs(settled, i);
    TwoUpdates(s.workers, i, s.workers[i].(active := None), v);
    hide Settle, Doom;
  }

  lemma SettleIs(s: State, i: nat, outcome: Outcome)
    requires i < |s.workers|
    ensures Settle(s, i, outcome).workers == s.workers[i := s.workers[i].(active := None)] && Settle(s, i, outcome).queue == s.queue
  {
    if s.workers[i].active.None? { assert s.workers[i := s.workers[i].(active := None)] == s.workers; }
  }

  lemma TwoUpdates(workers: seq<Worker>, i: nat, u: Worker, v: Worker)
    requires i < |workers|
    ensures workers[i := u][i := v] == workers[i := v]
  {
  }

  lemma SameServed(s: State, t: State)
    requires s.workers == t.workers && s.queue == t.queue
    ensures Served(s) <==> Served(t)
  {
    hide Free;
  }

  lemma ReceiveServes(s: State, i: nat, m: Message)
    requires Served(s) && Inv(s) && StartupsOk(s) && i < |s.workers|
    ensures Served(Receive(s, i, m)) <==> !Strands(s, OnWorker(i, Says(m)))
  {
    hide Conserved, Ordered, Answered, Idle, Drain, FailProtocol, Served, Settle;
    FailServes(s, i);
    var w := s.workers[i];
    assert StartupOk(w);
    WaitingRuns(s);
    match m
    case Garbage =>
    case ReadyMessage(pid) =>
      if !w.ready && pid == w.pid {
        var v := w.(ready := true, startup := if w.startup == Waiting then Resolves else w.startup);
        WorkerServes(s, i, v);
        DrainServes(s.(workers := s.workers[i := v]));
      }
    case ResultMessage(id, payload) =>
      SettleFrame(s, i, Resolved(id, payload));
      DrainServes(Settle(s, i, Resolved(id, payload)));
    case ErrorMessage(id, code) =>
      SettleFrame(s, i, HandlerFailed(id, code));
      DrainServes(Settle(s, i, HandlerFailed(id, code)));
  }

  lemma WaitingRuns(s: State)
    requires Inv(s)
    ensures s.queue != [] ==> Running(s)
  {
    hide Conserved, Ordered, Answered, Idle;
  }

  lemma SettleFrame(s: State, i: nat, outcome: Outcome)
    requires i < |s.workers|
    ensures var t := Settle(s, i, outcome); t.queue == s.queue && Running(t) == Running(s)
  {
  }

  lemma ExitServes(s: State, i: nat, pid: nat)
    requires Served(s) && i < |s.workers|
    ensures Served(Exit(s, i, pid))
  {
    var w := s.workers[i];
    if !w.exited {
      var t := Exit(s, i, pid);
      assert t.queue == s.queue && |t.workers| >= |s.workers| && !Free(t.workers[i]);
      forall k | 0 <= k < |t.workers| && t.queue != []
        ensures !Free(t.workers[k])
      {
        if k < |s.workers| && k != i { assert t.workers[k] == s.workers[k]; }
      }
    }
  }

  lemma OtherServes(s: State, i: nat, what: WorkerEvent)
    requires Served(s) && i < |s.workers| && !what.Says?
    ensures Served(WorkerStep(s, i, what))
  {
    hide Receive, StopWorkers, Served, Exit, StartupFailure;
    var w := s.workers[i];
    match what
    case TimesOut(id) =>
      SameFree(s, i, w.(timedOut := true, doomed := w.doomed || !w.exited));
      DoomIs(s.(workers := s.workers[i := w.(timedOut := true)]), i);
      TwoUpdates(s.workers, i, w.(timedOut := true), w.(timedOut := true, doomed := w.doomed || !w.exited));
    case StartsTooLate =>
      SameFree(s, i, w.(startup := Rejects, doomed := w.doomed || !w.exited));
      DoomIs(s.(workers := s.workers[i := w.(startup := Rejects)]), i);
      TwoUpdates(s.workers, i, w.(startup := Rejects), w.(startup := Rejects, doomed := w.doomed || !w.exited));
      FailsServes(StartupTimeout(s, i), i);
    case IsKilled =>
      SameFree(s, i, w.(doomed := w.doomed || !w.exited));
      DoomIs(s, i);
    case Exits(pid) =>
      ExitServes(s, i, pid);
      FailsServes(Exit(s, i, pid), i);
  }

  lemma DoomIs(s: State, i: nat)
    requires i < |s.workers|
    ensures Doom(s, i) == s.(workers := s.workers[i := s.workers[i].(doomed := s.workers[i].doomed || !s.workers[i].exited)])
  {
    assert s.workers[i := s.workers[i]] == s.workers;
  }

  lemma SameFree(s: State, i: nat, w: Worker)
    requires Served(s) && i < |s.workers| && (Free(w) ==> Free(s.workers[i]))
    ensures Served(s.(workers := s.workers[i := w]))
  {
    WorkerServes(s, i, w);
    hide Free;
  }

  lemma FailsServes(s: State, i: nat)
    requires Served(s) && i < |s.workers|
    ensures Served(StartupFailure(s, i))
  {
    hide StopWorkers;
    var w := s.workers[i];
    SameFree(s, i, w.(startup := Handled, inPool := false));
  }

  // ---------------------------------------------------------------- every event

  lemma {:induction false} SpawnAllQueue(s: State, pids: seq<nat>)
    ensures SpawnAll(s, pids).queue == s.queue
    decreases |pids|
  {
    if pids != [] { SpawnAllQueue(Spawn(s, pids[0], true), pids[1..]); }
  }

  /** Exactly the protocol failures of a busy worker leave a request waiting beside a free worker. */
  lemma StepServes(s: State, e: Event)
    requires Inv(s) && StartupsOk(s) && Served(s) && Enabled(s, e)
    ensures Served(Step(s, e)) <==> !Strands(s, e)
  {
    hide Inv, WorkerStep, SpawnAll, Drain, StopWorkers, LeaveAll, Free, StartupsOk, Breaches;
    WaitingRuns(s);
    match e
    case DoStart(pids) => SpawnAllQueue(s.(fatal := false, started := true), pids);
    case DoInvoke(valid) =>
      var id := s.sequence + 1;
      if Running(s) { DrainServes(s.(sequence := id, queue := s.queue + [id], accepted := s.accepted + [id])); }
    case OnWorker(i, what) =>
      if what.Says? {
        ReceiveServes(s, i, what.message);
        SaysIs(s, i, what.message);
      } else {
        OtherServes(s, i, what);
      }
    case DoStop =>
    case DoEndStop =>
  }

  lemma SaysIs(s: State, i: nat, m: Message)
    requires i < |s.workers|
    ensures WorkerStep(s, i, Says(m)) == Receive(s, i, m)
  {
    hide Receive;
  }

  /** In a run, requests never wait beside a free worker until an event strands one, and that event
      does leave one waiting. */
  lemma {:induction false} WaitsExactlyWhenStranded(size: nat, events: seq<Event>, states: seq<State>, i: nat)
    requires IsRun(size, events, states) && i < |events| && forall k :: 0 <= k < i ==> !Strands(states[k], events[k])
    ensures Served(states[i]) && (Served(states[i + 1]) <==> !Strands(states[i], events[i]))
  {
    hide Inv, Step, Enabled, Strands, StartupsOk, Served;
    EveryStateOk(size, events, states, i);
    if i == 0 {
      assert Served(New(size)) by { NewServes(size); }
    } else {
      WaitsExactlyWhenStranded(size, events, states, i - 1);
    }
    StepServes(states[i], events[i]);
    assert states[i + 1] == Step(states[i], events[i]);
  }

  lemma NewServes(size: nat)
    ensures Served(New(size))
  {
  }

  // ---------------------------------------------------------------- a run that leaves one waiting

  const Breach: seq<Event> :=
    [DoStart([1]), OnWorker(0, Says(ReadyMessage(1))), DoInvoke(true), DoInvoke(true), OnWorker(0, Says(Garbage))]

  const Spawned := Worker(1, false, false, false, false, Waiting, true, true, None, false)
  const Up := Spawned.(ready := true, startup := Resolves)

  function Running1(w: Worker, sequence: nat, queue: seq<nat>, accepted: seq<nat>, dispatched: seq<nat>, settled: seq<Settlement>): State
  {
    State(1, true, false, false, sequence, queue, [w], accepted, dispatched, settled)
  }

  const AfterStart := Running1(Spawned, 0, [], [], [], [])
  const AfterReady := Running1(Up, 0, [], [], [], [])
  const AfterFirst := Running1(Up.(active := Some(1)), 1, [], [1], [1], [])
  const AfterSecond := Running1(Up.(active := Some(1)), 2, [2], [1, 2], [1], [])
  const AfterBreach := Running1(Up.(doomed := true), 2, [2], [1, 2], [1], [Settlement(1, Refused(ProtocolMismatch))])

  lemma StartsAndReadies()
    ensures Step(New(1), Breach[0]) == AfterStart && Step(AfterStart, Breach[1]) == AfterReady
  {
    assert [1][1..] == [] && [] + [Spawned] == [Spawned];
    assert SpawnAll(New(1).(started := true), [1]) == SpawnAll(AfterStart, []);
    assert [Spawned][0 := Up] == [Up];
    assert DrainFrom(AfterReady, 0) == AfterReady;
  }

  lemma InvokesTwice()
    ensures Step(AfterReady, Breach[2]) == AfterFirst && Step(AfterFirst, Breach[3]) == AfterSecond
  {
    var queued := Running1(Up, 1, [1], [1], [], []);
    assert [] + [1] == [1] && [1][1..] == [] && [Up][0 := Up.(active := Some(1))] == [Up.(active := Some(1))];
    assert Assign(queued, 0) == AfterFirst;
    assert DrainFrom(AfterFirst, 1) == AfterFirst;
    assert DrainFrom(queued, 0) == AfterFirst;
    assert [] + [2] == [2] && [1] + [2] == [1, 2];
    assert DrainFrom(AfterSecond, 1) == AfterSecond;
    assert DrainFrom(AfterSecond, 0) == AfterSecond;
  }

  lemma BreachesOnce()
    ensures Step(AfterSecond, Breach[4]) == AfterBreach
  {
    var w := Up.(active := Some(1));
    assert [w][0 := Up] == [Up] && [Up][0 := Up.(doomed := true)] == [Up.(doomed := true)];
    assert [] + [Settlement(1, Refused(ProtocolMismatch))] == [Settlement(1, Refused(ProtocolMismatch))];
  }

  /** The second request waits although the only worker is free. */
  lemma RequestCanWait() returns (states: seq<State>)
    ensures IsRun(1, Breach, states) && states[5].queue == [2] && |states[5].workers| == 1 && Free(states[5].workers[0]) && !Served(states[5])
  {
    hide Step;
    StartsAndReadies();
    InvokesTwice();
    BreachesOnce();
    states := [New(1), AfterStart, AfterReady, AfterFirst, AfterSecond, AfterBreach];
    assert Free(AfterBreach.workers[0]);
  }
}
