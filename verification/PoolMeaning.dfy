/** What each event of the pool comes to: which requests it settles and how, which it hands to which
    worker, and what becomes of the workers. Over a run, a request is refused for a timeout exactly when
    its own timer went off. */
module PoolMeaning {
  import opened Texts
  import opened Pool
  import opened PoolRuns

  // ---------------------------------------------------------------- handing out requests

  predicate TakesWork(w: Worker)
  {
    w.inPool && w.ready && !w.exited && !w.stopping && w.active.None?
  }

  /** How many of the workers from `i` up to `j` take work. */
  function Takers(workers: seq<Worker>, i: nat, j: nat): nat
    requires i <= j <= |workers|
    decreases j - i
  {
    if i == j then 0 else Takers(workers, i, j - 1) + (if TakesWork(workers[j - 1]) then 1 else 0)
  }

  /** Worker `j` gets the request at its turn among the takers from `i` on, as long as there are requests. */
  function Handed(s: State, i: nat, j: nat): Worker
    requires i <= |s.workers| && j < |s.workers|
  {
    var w := s.workers[j];
    if i <= j && TakesWork(w) && Takers(s.workers, i, j) < |s.queue| then w.(active := Some(s.queue[Takers(s.workers, i, j)]), timedOut := false)
    else w
  }

  function Taken(s: State, i: nat): nat
    requires i <= |s.workers|
  {
    var n := Takers(s.workers, i, |s.workers|);
    if n <= |s.queue| then n else |s.queue|
  }

  /** The waiting requests go, oldest first, to the takers in their order, one each. */
  predicate HandsOut(s: State, i: nat, t: State)
    requires i <= |s.workers|
  {
    |t.workers| == |s.workers| && (forall j :: 0 <= j < |s.workers| ==> t.workers[j] == Handed(s, i, j)) &&
    t == s.(workers := t.workers, queue := s.queue[Taken(s, i)..], dispatched := s.dispatched + s.queue[..Taken(s, i)])
  }

  lemma {:induction false} TakersSplit(workers: seq<Worker>, i: nat, j: nat)
    requires i < j <= |workers|
    ensures Takers(workers, i, j) == (if TakesWork(workers[i]) then 1 else 0) + Takers(workers, i + 1, j)
    decreases j - i
  {
    hide TakesWork;
    if i + 1 < j { TakersSplit(workers, i, j - 1); }
  }

  lemma {:induction false} TakersAfter(before: seq<Worker>, after: seq<Worker>, i: nat, j: nat)
    requires i <= j <= |before| == |after| && forall k :: i <= k < j ==> after[k] == before[k]
    ensures Takers(after, i, j) == Takers(before, i, j)
    decreases j - i
  {
    hide TakesWork;
    if i < j { TakersAfter(before, after, i, j - 1); }
  }

  lemma {:induction false} HandsOutFrom(s: State, i: nat)
    requires i <= |s.workers|
    ensures HandsOut(s, i, DrainFrom(s, i))
    decreases |s.workers| - i
  {
    if i == |s.workers| || s.queue == [] {
      NothingHanded(s, i);
    } else if !TakesWork(s.workers[i]) {
      HandsOutFrom(s, i + 1);
      SkipsWorker(s, i, DrainFrom(s, i + 1));
    } else {
      HandsOutFrom(Assign(s, i), i + 1);
      TakesOne(s, i, DrainFrom(Assign(s, i), i + 1));
    }
  }

  lemma NothingHanded(s: State, i: nat)
    requires i <= |s.workers| && (i == |s.workers| || s.queue == [])
    ensures HandsOut(s, i, s)
  {
    hide TakesWork;
    assert Taken(s, i) == 0;
    assert s.queue[0..] == s.queue && s.dispatched + s.queue[..0] == s.dispatched;
  }

  lemma SkipsWorker(s: State, i: nat, t: State)
    requires i < |s.workers| && !TakesWork(s.workers[i]) && HandsOut(s, i + 1, t)
    ensures HandsOut(s, i, t)
  {
    hide TakesWork;
    TakersSplit(s.workers, i, |s.workers|);
    forall j | i < j < |s.workers|
      ensures Takers(s.workers, i, j) == Takers(s.workers, i + 1, j)
    {
      TakersSplit(s.workers, i, j);
    }
  }

  lemma TakesOne(s: State, i: nat, t: State)
    requires i < |s.workers| && s.queue != [] && TakesWork(s.workers[i]) && HandsOut(Assign(s, i), i + 1, t)
    ensures HandsOut(s, i, t)
  {
    var u := Assign(s, i);
    TakersSplit(s.workers, i, |s.workers|);
    TakersAfter(s.workers, u.workers, i + 1, |s.workers|);
    forall j | 0 <= j < |s.workers|
      ensures t.workers[j] == Handed(s, i, j)
    {
      if i < j {
        TakersSplit(s.workers, i, j);
        TakersAfter(s.workers, u.workers, i + 1, j);
      }
    }
    hide TakesWork;
    var n := Taken(u, i + 1);
    assert Taken(s, i) == n + 1;
    assert s.queue[1..][n..] == s.queue[n + 1..] && [s.queue[0]] + s.queue[1..][..n] == s.queue[..n + 1];
    assert (s.dispatched + [s.queue[0]]) + s.queue[1..][..n] == s.dispatched + ([s.queue[0]] + s.queue[1..][..n]);
  }

  /** `t` is `s` after its waiting requests were handed out, if the pool runs. */
  predicate DrainsTo(s: State, t: State)
  {
    if s.started && !s.stopping then HandsOut(s, 0, t) else t == s
  }

  lemma DrainMeans(s: State)
    ensures DrainsTo(s, Drain(s))
  {
    hide HandsOut, DrainFrom;
    HandsOutFrom(s, 0);
  }

  // ---------------------------------------------------------------- calls

  /** A running pool without a fatal error numbers the request and, if it is well formed, queues it. */
  lemma InvokeMeans(s: State, valid: bool)
    ensures var t := Invoke(s, valid);
      if !s.started || s.stopping || s.fatal then t == s
      else if !valid then t == s.(sequence := s.sequence + 1)
      else
        DrainsTo(s.(sequence := s.sequence + 1, queue := s.queue + [s.sequence + 1], accepted := s.accepted + [s.sequence + 1]), t)
  {
    hide Drain, HandsOut;
    if s.started && !s.stopping && !s.fatal && valid {
      DrainMeans(s.(sequence := s.sequence + 1, queue := s.queue + [s.sequence + 1], accepted := s.accepted + [s.sequence + 1]));
    }
  }

  /** Each of `ids`, in order, refused because no host is there. */
  predicate AllRefused(ids: seq<nat>, settlements: seq<Settlement>)
  {
    |settlements| == |ids| && forall k :: 0 <= k < |ids| ==> settlements[k] == Settlement(ids[k], Refused(HostExited))
  }

  /** The queue is refused, the pool stops, and every process still there is told to end. */
  predicate StopsTo(s: State, t: State)
  {
    if !s.started && !s.stopping then t == s
    else
      |t.workers| == |s.workers| &&
      (forall i :: 0 <= i < |s.workers| ==>
         t.workers[i] == if s.workers[i].inPool && !s.workers[i].exited then s.workers[i].(stopping := true, doomed := true) else s.workers[i]) &&
      t == s.(started := false, stopping := true, queue := [], workers := t.workers, settled := t.settled) &&
      |s.settled| <= |t.settled| && t.settled[..|s.settled|] == s.settled && AllRefused(s.queue, t.settled[|s.settled|..])
  }

  lemma StopMeans(s: State)
    ensures StopsTo(s, BeginStop(s))
  {
    RefusalsMean(s.settled, s.queue);
    hide Refusals;
  }

  lemma RefusalsMean(settled: seq<Settlement>, ids: seq<nat>)
    ensures (settled + Refusals(ids))[..|settled|] == settled && AllRefused(ids, (settled + Refusals(ids))[|settled|..])
  {
    assert (settled + Refusals(ids))[|settled|..] == Refusals(ids);
  }

  /** The stop is over once no process of the pool is left; then the pool is empty and may start again. */
  lemma EndStopMeans(s: State)
    ensures var t := EndStop(s);
      if s.stopping && forall i :: 0 <= i < |s.workers| ==> !s.workers[i].inPool || s.workers[i].exited then
        |t.workers| == |s.workers| && (forall i :: 0 <= i < |s.workers| ==> t.workers[i] == s.workers[i].(inPool := false)) &&
        t == s.(stopping := false, fatal := false, workers := t.workers)
      else t == s
  {
  }

  predicate IsNew(w: Worker, pid: nat, initial: bool)
  {
    w == Worker(pid, false, false, false, false, Waiting, initial, true, None, false)
  }

  lemma {:induction false} SpawnsMean(s: State, pids: seq<nat>)
    ensures var t := SpawnAll(s, pids);
      |t.workers| == |s.workers| + |pids| && t.workers[..|s.workers|] == s.workers && t == s.(workers := t.workers) &&
      forall i :: 0 <= i < |pids| ==> IsNew(t.workers[|s.workers| + i], pids[i], true)
    decreases |pids|
  {
    if pids != [] {
      var u := Spawn(s, pids[0], true);
      SpawnsMean(u, pids[1..]);
      var t := SpawnAll(s, pids);
      assert t.workers[..|s.workers|] == t.workers[..|u.workers|][..|s.workers|];
      assert t.workers[|s.workers|] == t.workers[..|u.workers|][|s.workers|];
      forall i | 0 <= i < |pids|
        ensures IsNew(t.workers[|s.workers| + i], pids[i], true)
      {
        if i > 0 { assert IsNew(t.workers[|u.workers| + (i - 1)], pids[1..][i - 1], true); }
      }
    }
  }

  /** A start spawns one new worker for each process and clears the fatal error. */
  lemma StartMeans(s: State, pids: seq<nat>)
    ensures var t := Start(s, pids);
      if s.started || s.stopping then t == s
      else
        t == s.(started := true, fatal := false, workers := t.workers) && |t.workers| == |s.workers| + |pids| &&
        t.workers[..|s.workers|] == s.workers && forall i :: 0 <= i < |pids| ==> IsNew(t.workers[|s.workers| + i], pids[i], true)
  {
    hide SpawnAll;
    SpawnsMean(s.(started := true, fatal := false), pids);
  }

  // ---------------------------------------------------------------- messages

  /** What worker `i` holds is settled as `outcome`, if it holds anything. */
  function Settling(s: State, i: nat, outcome: Outcome): seq<Settlement>
    requires i < |s.workers|
  {
    if s.workers[i].active.Some? then [Settlement(s.workers[i].active.value, outcome)] else []
  }

  /** A message out of place costs the worker its request and its process a signal. */
  predicate BreaksTo(s: State, i: nat, t: State)
    requires i < |s.workers|
  {
    var w := s.workers[i];
    t == s.(workers := s.workers[i := w.(active := None, doomed := w.doomed || !w.exited)],
            settled := s.settled + Settling(s, i, Refused(ProtocolMismatch)))
  }

  lemma BreachMeans(s: State, i: nat)
    requires i < |s.workers|
    ensures BreaksTo(s, i, FailProtocol(s, i))
  {
    var w := s.workers[i];
    SettleMeans(s, i, Refused(ProtocolMismatch));
    var settled := Settle(s, i, Refused(ProtocolMismatch));
    hide Settle, Settling;
    KillMeans(settled, i);
    hide Doom;
    TwoUpdates(s.workers, i, w.(active := None), w.(active := None, doomed := w.doomed || !w.exited));
  }

  lemma SettleMeans(s: State, i: nat, outcome: Outcome)
    requires i < |s.workers|
    ensures Settle(s, i, outcome) == s.(workers := s.workers[i := s.workers[i].(active := None)], settled := s.settled + Settling(s, i, outcome))
  {
    assert s.settled + [] == s.settled;
    if s.workers[i].active.None? { assert s.workers[i := s.workers[i].(active := None)] == s.workers; }
  }

  lemma TwoUpdates(workers: seq<Worker>, i: nat, u: Worker, v: Worker)
    requires i < |workers|
    ensures workers[i := u][i := v] == workers[i := v]
  {
  }

  /** A first READY with the worker's own process id makes it take work, an answer to the request it holds
      settles that request, and anything else is a breach. */
  lemma MessageMeans(s: State, i: nat, m: Message)
    requires i < |s.workers|
    ensures var t := Receive(s, i, m); var w := s.workers[i];
      match m
      case Garbage => BreaksTo(s, i, t)
      case ReadyMessage(pid) =>
        if w.ready || pid != w.pid then BreaksTo(s, i, t)
        else if w.startup == Waiting then DrainsTo(s.(workers := s.workers[i := w.(ready := true, startup := Resolves)]), t)
        else t == s.(workers := s.workers[i := w.(ready := true)])
      case ResultMessage(id, payload) =>
        if w.active != Some(id) then BreaksTo(s, i, t)
        else DrainsTo(s.(workers := s.workers[i := w.(active := None)], settled := s.settled + [Settlement(id, Resolved(id, payload))]), t)
      case ErrorMessage(id, code) =>
        if w.active != Some(id) then BreaksTo(s, i, t)
        else DrainsTo(s.(workers := s.workers[i := w.(active := None)], settled := s.settled + [Settlement(id, HandlerFailed(id, code))]), t)
  {
    hide Drain, HandsOut, BreaksTo, FailProtocol, DrainsTo;
    BreachMeans(s, i);
    var w := s.workers[i];
    match m
    case Garbage =>
    case ReadyMessage(pid) => DrainMeans(s.(workers := s.workers[i := w.(ready := true, startup := Resolves)]));
    case ResultMessage(id, payload) =>
      DrainMeans(s.(workers := s.workers[i := w.(active := None)], settled := s.settled + [Settlement(id, Resolved(id, payload))]));
    case ErrorMessage(id, code) =>
      DrainMeans(s.(workers := s.workers[i := w.(active := None)], settled := s.settled + [Settlement(id, HandlerFailed(id, code))]));
  }

  // ---------------------------------------------------------------- timers and exits

  /** The timer of the request a worker holds marks it and signals the process; any other timer does nothing. */
  lemma TimeoutMeans(s: State, i: nat, id: nat)
    requires i < |s.workers|
    ensures var w := s.workers[i];
      Timeout(s, i, id) ==
      if w.active != Some(id) then s else s.(workers := s.workers[i := w.(timedOut := true, doomed := w.doomed || !w.exited)])
  {
    var w := s.workers[i];
    assert s.workers[i := w.(timedOut := true)][i := w.(timedOut := true, doomed := true)] == s.workers[i := w.(timedOut := true, doomed := true)];
  }

  lemma KillMeans(s: State, i: nat)
    requires i < |s.workers|
    ensures Doom(s, i) == s.(workers := s.workers[i := s.workers[i].(doomed := s.workers[i].doomed || !s.workers[i].exited)])
  {
    assert s.workers[i := s.workers[i]] == s.workers;
  }

  /** A startup that failed: a worker of `start` stops the pool, a replacement makes the pool fatal and
      refuses what waits. */
  predicate StartupFailsTo(s: State, i: nat, t: State)
    requires i < |s.workers|
  {
    var left := s.(workers := s.workers[i := s.workers[i].(startup := Handled, inPool := false)]);
    if s.workers[i].initial then StopsTo(left, t)
    else
      t == left.(fatal := true, queue := [], settled := t.settled) && |s.settled| <= |t.settled| && t.settled[..|s.settled|] == s.settled &&
      AllRefused(s.queue, t.settled[|s.settled|..])
  }

  lemma FailureMeans(s: State, i: nat)
    requires i < |s.workers|
    ensures if s.workers[i].startup == Rejects then StartupFailsTo(s, i, StartupFailure(s, i)) else StartupFailure(s, i) == s
  {
    var left := s.(workers := s.workers[i := s.workers[i].(startup := Handled, inPool := false)]);
    StopMeans(left);
    RefusalsMean(s.settled, s.queue);
    hide StopsTo, BeginStop, Refusals;
  }

  /** A worker that is not ready in time is killed and its startup fails. */
  lemma TooLateMeans(s: State, i: nat)
    requires i < |s.workers| && s.workers[i].startup != Rejects
    ensures var w := s.workers[i]; var t := WorkerStep(s, i, StartsTooLate);
      if w.startup != Waiting then t == s
      else StartupFailsTo(s.(workers := s.workers[i := w.(startup := Rejects, doomed := w.doomed || !w.exited)]), i, t)
  {
    var w := s.workers[i];
    hide StartupFailsTo, StartupFailure;
    FailureMeans(s, i);
    if w.startup == Waiting {
      var late := s.(workers := s.workers[i := w.(startup := Rejects, doomed := w.doomed || !w.exited)]);
      assert StartupTimeout(s, i).workers == late.workers;
      FailureMeans(late, i);
    }
  }

  /** The state right after a process is gone: what its worker held is refused, for a timeout if its timer
      went off and otherwise for the exit, and a running pool spawns a replacement. */
  function Gone(s: State, i: nat, pid: nat): (t: State)
    requires i < |s.workers|
    ensures i < |t.workers|
  {
    var w := s.workers[i];
    s.(workers := s.workers[i := w.(exited := true, ready := false, inPool := false, active := None,
                                    startup := if w.startup == Waiting then Rejects else w.startup)] +
                  (if s.started && !s.stopping then [Worker(pid, false, false, false, false, Waiting, false, true, None, false)] else []),
       settled := s.settled + Settling(s, i, Refused(if w.timedOut then HandlerTimeout else HostExited)))
  }

  lemma GoneSettled(s: State, i: nat, left: Worker, why: Outcome)
    requires i < |s.workers| && left.active == s.workers[i].active
    ensures Settle(s.(workers := s.workers[i := left]), i, why) ==
      s.(workers := s.workers[i := left.(active := None)], settled := s.settled + Settling(s, i, why))
  {
    var marked := s.(workers := s.workers[i := left]);
    SettleMeans(marked, i, why);
    TwoUpdates(s.workers, i, left, left.(active := None));
    assert Settling(marked, i, why) == Settling(s, i, why);
    hide Settle, Settling;
  }

  lemma GoneMeans(s: State, i: nat, pid: nat)
    requires i < |s.workers| && !s.workers[i].exited
    ensures Exit(s, i, pid) == Gone(s, i, pid)
  {
    var w := s.workers[i];
    var left := w.(exited := true, ready := false, inPool := false, startup := if w.startup == Waiting then Rejects else w.startup);
    var marked := s.(workers := s.workers[i := left]);
    var why := Refused(if w.timedOut then HandlerTimeout else HostExited);
    GoneSettled(s, i, left, why);
    hide Settle, Settling;
    assert s.workers[i := left.(active := None)] + [] == s.workers[i := left.(active := None)];
  }

  /** An exit counts once; if the worker was not ready yet its startup fails too. */
  lemma ExitMeans(s: State, i: nat, pid: nat)
    requires i < |s.workers| && s.workers[i].startup != Rejects
    ensures var t := WorkerStep(s, i, Exits(pid));
      if s.workers[i].exited then t == s
      else if s.workers[i].startup == Waiting then StartupFailsTo(Gone(s, i, pid), i, t)
      else t == Gone(s, i, pid)
  {
    hide StartupFailsTo, StartupFailure;
    FailureMeans(s, i);
    if s.workers[i].exited {
      assert Exit(s, i, pid) == s;
    } else {
      GoneMeans(s, i, pid);
      FailureMeans(Gone(s, i, pid), i);
      GoneStartup(s, i, pid);
    }
    hide Gone, Exit;
  }

  lemma GoneStartup(s: State, i: nat, pid: nat)
    requires i < |s.workers| && s.workers[i].startup != Rejects
    ensures Gone(s, i, pid).workers[i].startup == Rejects <==> s.workers[i].startup == Waiting
  {
  }

  // ---------------------------------------------------------------- timeouts over a run

  /** Worker `i` before and after an event: it holds nothing, or what it held, marked if that timer went
      off just now, or a request that was never handed out before, unmarked. */
  predicate Moves(s: State, e: Event, i: nat, t: State)
    requires i < |t.workers|
  {
    var w := t.workers[i];
    w.active.None? || (w.active.value !in s.dispatched && !w.timedOut) ||
    (i < |s.workers| && w.active == s.workers[i].active && w.timedOut == (s.workers[i].timedOut || e == OnWorker(i, TimesOut(w.active.value))))
  }

  lemma WaitingIsNew(s: State, id: nat)
    requires Ordered(s) && id in s.queue
    ensures id !in s.dispatched
  {
    var line := s.dispatched + s.queue;
    var k :| 0 <= k < |s.queue| && s.queue[k] == id;
    assert line[|s.dispatched| + k] == id;
    forall j | 0 <= j < |s.dispatched|
      ensures s.dispatched[j] != id
    {
      assert line[j] == s.dispatched[j];
    }
  }

  /** Handing out changes a worker only by giving it a request that waited. */
  lemma DrainMoves(s: State, t: State, i: nat)
    requires DrainsTo(s, t) && i < |s.workers|
    ensures |t.workers| == |s.workers|
    ensures t.workers[i] == s.workers[i] || (t.workers[i].active.Some? && t.workers[i].active.value in s.queue && !t.workers[i].timedOut)
  {
    hide TakesWork, Takers, Taken;
    if s.started && !s.stopping { assert t.workers[i] == Handed(s, 0, i); }
  }

  lemma MessageMoves(s: State, k: nat, m: Message, i: nat)
    requires Ordered(s) && k < |s.workers| && i < |s.workers|
    ensures var t := Receive(s, k, m); |t.workers| == |s.workers| && Moves(s, OnWorker(k, Says(m)), i, t)
  {
    hide Receive, HandsOut, DrainsTo, Settling, Ordered;
    MessageMeans(s, k, m);
    var t, w := Receive(s, k, m), s.workers[k];
    match m
    case Garbage =>
    case ReadyMessage(pid) =>
      if !w.ready && pid == w.pid && w.startup == Waiting {
        HandedMoves(s, s.(workers := s.workers[k := w.(ready := true, startup := Resolves)]), OnWorker(k, Says(m)), i, t);
      }
    case ResultMessage(id, payload) =>
      if w.active == Some(id) {
        HandedMoves(s, s.(workers := s.workers[k := w.(active := None)], settled := s.settled + [Settlement(id, Resolved(id, payload))]), OnWorker(k, Says(m)), i, t);
      }
    case ErrorMessage(id, code) =>
      if w.active == Some(id) {
        HandedMoves(s, s.(workers := s.workers[k := w.(active := None)], settled := s.settled + [Settlement(id, HandlerFailed(id, code))]), OnWorker(k, Says(m)), i, t);
      }
  }

  lemma HandedMoves(s: State, u: State, e: Event, i: nat, t: State)
    requires Ordered(s) && DrainsTo(u, t) && i < |s.workers| == |u.workers| && u.queue == s.queue
    requires u.workers[i].active.None? || (u.workers[i].active == s.workers[i].active && u.workers[i].timedOut == s.workers[i].timedOut)
    requires e.OnWorker? ==> !e.what.TimesOut?
    ensures |t.workers| == |s.workers| && Moves(s, e, i, t)
  {
    hide DrainsTo, Ordered;
    DrainMoves(u, t, i);
    if t.workers[i] != u.workers[i] { WaitingIsNew(s, t.workers[i].active.value); }
  }

  lemma InvokeMoves(s: State, valid: bool, i: nat)
    requires Inv(s) && i < |s.workers|
    ensures |Invoke(s, valid).workers| == |s.workers| && Moves(s, DoInvoke(valid), i, Invoke(s, valid))
  {
    hide Conserved, Busy, Invoke, DrainsTo;
    InvokeMeans(s, valid);
    var t := Invoke(s, valid);
    if t != s && valid {
      var u := s.(sequence := s.sequence + 1, queue := s.queue + [s.sequence + 1], accepted := s.accepted + [s.sequence + 1]);
      DrainMoves(u, t, i);
      if t.workers[i] != s.workers[i] {
        var id := t.workers[i].active.value;
        if id in s.queue { WaitingIsNew(s, id); } else { NewestIsNew(s, id); }
      }
    }
  }

  lemma NewestIsNew(s: State, id: nat)
    requires Ordered(s) && id == s.sequence + 1
    ensures id !in s.dispatched
  {
    forall j | 0 <= j < |s.dispatched|
      ensures s.dispatched[j] != id
    {
      assert (s.dispatched + s.queue)[j] == s.dispatched[j];
    }
  }

  lemma StopMoves(s: State, t: State, i: nat)
    requires StopsTo(s, t) && i < |s.workers|
    ensures |t.workers| == |s.workers| && t.workers[i].active == s.workers[i].active && t.workers[i].timedOut == s.workers[i].timedOut
  {
    hide AllRefused;
  }

  lemma FailureMoves(s: State, k: nat, t: State, i: nat)
    requires k < |s.workers| && i < |s.workers| && StartupFailsTo(s, k, t)
    ensures |t.workers| == |s.workers| && t.workers[i].active == s.workers[i].active && t.workers[i].timedOut == s.workers[i].timedOut
  {
    hide AllRefused, StopsTo;
    if s.workers[k].initial { StopMoves(s.(workers := s.workers[k := s.workers[k].(startup := Handled, inPool := false)]), t, i); }
  }

  lemma TooLateMoves(s: State, k: nat, i: nat)
    requires StartupsOk(s) && k < |s.workers| && i < |s.workers|
    ensures var t := WorkerStep(s, k, StartsTooLate); |t.workers| == |s.workers| && Moves(s, OnWorker(k, StartsTooLate), i, t)
  {
    assert StartupOk(s.workers[k]);
    TooLateMeans(s, k);
    hide WorkerStep, StartupFailsTo, StartupsOk;
    var w := s.workers[k];
    if w.startup == Waiting {
      FailureMoves(s.(workers := s.workers[k := w.(startup := Rejects, doomed := w.doomed || !w.exited)]), k, WorkerStep(s, k, StartsTooLate), i);
    }
  }

  lemma ExitMoves(s: State, k: nat, pid: nat, i: nat)
    requires StartupsOk(s) && k < |s.workers| && i < |WorkerStep(s, k, Exits(pid)).workers|
    ensures Moves(s, OnWorker(k, Exits(pid)), i, WorkerStep(s, k, Exits(pid)))
  {
    assert StartupOk(s.workers[k]);
    ExitMeans(s, k, pid);
    hide WorkerStep, StartupFailsTo, StartupsOk, Settling;
    var t := WorkerStep(s, k, Exits(pid));
    if !s.workers[k].exited {
      var gone := Gone(s, k, pid);
      assert i < |gone.workers| ==> Moves(s, OnWorker(k, Exits(pid)), i, gone);
      if s.workers[k].startup == Waiting { SameLength(gone, k, t); FailureMoves(gone, k, t, i); }
    }
  }

  lemma SameLength(s: State, k: nat, t: State)
    requires k < |s.workers| && StartupFailsTo(s, k, t)
    ensures |t.workers| == |s.workers|
  {
    FailureMoves(s, k, t, k);
  }

  lemma StepMoves(s: State, e: Event, i: nat)
    requires Inv(s) && StartupsOk(s) && Enabled(s, e) && i < |Step(s, e).workers|
    ensures Moves(s, e, i, Step(s, e))
  {
    hide Conserved, Ordered, Answered, Busy, StartupsOk;
    match e
    case DoStart(pids) =>
      StartMeans(s, pids);
      hide Start;
      assert i < |s.workers| ==> Step(s, e).workers[..|s.workers|][i] == s.workers[i];
      assert i >= |s.workers| ==> IsNew(Step(s, e).workers[|s.workers| + (i - |s.workers|)], pids[i - |s.workers|], true);
    case DoInvoke(valid) => InvokesAlike(s, valid, i);
    case DoStop =>
      StopMeans(s);
      hide BeginStop, AllRefused;
    case DoEndStop =>
      EndStopMeans(s);
      hide EndStop;
    case OnWorker(k, what) => WorkerMoves(s, k, what, i);
  }

  lemma InvokesAlike(s: State, valid: bool, i: nat)
    requires Inv(s) && i < |Invoke(s, valid).workers|
    ensures Moves(s, DoInvoke(valid), i, Invoke(s, valid))
  {
    hide Inv;
    InvokeLength(s, valid);
    InvokeMoves(s, valid, i);
  }

  lemma InvokeLength(s: State, valid: bool)
    ensures |Invoke(s, valid).workers| == |s.workers|
  {
    InvokeMeans(s, valid);
    hide Invoke, Handed, Taken;
  }

  lemma ReceiveLength(s: State, k: nat, m: Message)
    requires k < |s.workers|
    ensures |Receive(s, k, m).workers| == |s.workers|
  {
    MessageMeans(s, k, m);
    hide Receive, Handed, Taken, Settling;
  }

  lemma TooLateLength(s: State, k: nat)
    requires StartupsOk(s) && k < |s.workers|
    ensures |WorkerStep(s, k, StartsTooLate).workers| == |s.workers|
  {
    hide StartupsOk, WorkerStep;
    TooLateMoves(s, k, k);
  }

  lemma WorkerMoves(s: State, k: nat, what: WorkerEvent, i: nat)
    requires Inv(s) && StartupsOk(s) && k < |s.workers| && i < |WorkerStep(s, k, what).workers|
    ensures Moves(s, OnWorker(k, what), i, WorkerStep(s, k, what))
  {
    hide Conserved, Ordered, Answered, Busy, StartupsOk, Receive, Timeout, StartupFailure, StartupTimeout, Exit, Doom;
    match what
    case Says(m) =>
      ReceiveLength(s, k, m);
      MessageMoves(s, k, m, i);
    case TimesOut(id) => TimeoutMeans(s, k, id);
    case StartsTooLate =>
      TooLateLength(s, k);
      TooLateMoves(s, k, i);
    case IsKilled => KillMeans(s, k);
    case Exits(pid) => ExitMoves(s, k, pid, i);
  }

  /** Before event `n`, the timer of request `id` went off while worker `i` held it. */
  ghost predicate Fired(events: seq<Event>, states: seq<State>, n: nat, i: nat, id: nat)
    requires n <= |events| < |states|
  {
    exists j :: 0 <= j < n && FiredAt(events, states, j, i, id)
  }

  ghost predicate FiredAt(events: seq<Event>, states: seq<State>, j: nat, i: nat, id: nat)
    requires j < |events| < |states|
  {
    events[j] == OnWorker(i, TimesOut(id)) && i < |states[j].workers| && states[j].workers[i].active == Some(id)
  }

  lemma FiredWasDispatched(size: nat, events: seq<Event>, states: seq<State>, n: nat, i: nat, id: nat)
    requires IsRun(size, events, states) && n <= |events| && Fired(events, states, n, i, id)
    ensures id in states[n].dispatched
  {
    hide Conserved, Ordered, Busy, StartupsOk, Step, Enabled;
    var j :| 0 <= j < n && FiredAt(events, states, j, i, id);
    EveryStateOk(size, events, states, j);
    assert id in states[j].dispatched;
    NothingTakenBack(size, events, states, j, n);
  }

  /** A worker's mark says whether the timer of the request it holds went off. */
  lemma {:induction false} MarkIsFired(size: nat, events: seq<Event>, states: seq<State>, n: nat, i: nat)
    requires IsRun(size, events, states) && n <= |events| && i < |states[n].workers| && states[n].workers[i].active.Some?
    ensures states[n].workers[i].timedOut <==> Fired(events, states, n, i, states[n].workers[i].active.value)
  {
    hide Inv, StartupsOk, Step, Enabled;
    if n > 0 {
      var id := states[n].workers[i].active.value;
      EveryStateOk(size, events, states, n - 1);
      assert states[n - 1 + 1] == Step(states[n - 1], events[n - 1]);
      StepMoves(states[n - 1], events[n - 1], i);
      assert Fired(events, states, n, i, id) <==> Fired(events, states, n - 1, i, id) || FiredAt(events, states, n - 1, i, id);
      if id !in states[n - 1].dispatched {
        if Fired(events, states, n - 1, i, id) { FiredWasDispatched(size, events, states, n - 1, i, id); }
        if i < |states[n - 1].workers| && states[n - 1].workers[i].active == Some(id) { HeldWasDispatched(states[n - 1], i, id); }
      } else {
        MarkIsFired(size, events, states, n - 1, i);
      }
    }
  }

  lemma HeldWasDispatched(s: State, i: nat, id: nat)
    requires Inv(s) && i < |s.workers| && s.workers[i].active == Some(id)
    ensures id in s.dispatched
  {
    hide Conserved, Ordered, Busy;
  }

  /** When a host process exits while its worker holds a request, that request is refused as a timeout if
      and only if its own timer went off before, and otherwise for the exit. */
  lemma RefusedForTimeout(size: nat, events: seq<Event>, states: seq<State>, n: nat, i: nat, pid: nat, id: nat)
    requires IsRun(size, events, states) && n < |events| && events[n] == OnWorker(i, Exits(pid)) && i < |states[n].workers|
    requires states[n].workers[i].active == Some(id) && !states[n].workers[i].exited
    ensures |states[n].settled| < |states[n + 1].settled|
    ensures states[n + 1].settled[|states[n].settled|] == Settlement(id, Refused(if Fired(events, states, n, i, id) then HandlerTimeout else HostExited))
  {
    EveryStateOk(size, events, states, n);
    MarkIsFired(size, events, states, n, i);
    assert states[n + 1] == Step(states[n], events[n]);
    hide Inv, Fired, IsRun;
    assert StartupOk(states[n].workers[i]);
    ExitMeans(states[n], i, pid);
    hide WorkerStep, StartupsOk;
    var s, t := states[n], states[n + 1];
    GoneSettles(s, i, pid);
    if s.workers[i].startup == Waiting { FailureSettles(Gone(s, i, pid), i, t); }
  }

  lemma GoneSettles(s: State, i: nat, pid: nat)
    requires i < |s.workers| && s.workers[i].active.Some?
    ensures var w := s.workers[i];
      Gone(s, i, pid).settled == s.settled + [Settlement(w.active.value, Refused(if w.timedOut then HandlerTimeout else HostExited))]
  {
  }

  lemma FailureSettles(s: State, k: nat, t: State)
    requires k < |s.workers| && StartupFailsTo(s, k, t)
    ensures |s.settled| <= |t.settled| && forall i :: 0 <= i < |s.settled| ==> t.settled[i] == s.settled[i]
  {
    hide AllRefused;
    assert |s.settled| <= |t.settled| ==> forall i :: 0 <= i < |s.settled| ==> t.settled[..|s.settled|][i] == t.settled[i];
  }
}
