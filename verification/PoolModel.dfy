/** The pool as the program has it: one object whose fields the event handlers update. Each handler
    does what its transition says and keeps the invariant that the runs are proved about. */
module PoolModel {
  import opened Texts
  import opened Pool
  import opened PoolRuns

  class HandlerHostPool {
    const size: nat
    var started: bool
    var stopping: bool
    var fatal: bool
    var sequence: nat
    var queue: seq<nat>
    var workers: seq<Worker>
    var settled: seq<Settlement>
    ghost var accepted: seq<nat>
    ghost var dispatched: seq<nat>

    ghost function View(): State
      reads this
    {
      State(size, started, stopping, fatal, sequence, queue, workers, accepted, dispatched, settled)
    }

    ghost predicate Valid()
      reads this
    {
      Inv(View()) && StartupsOk(View())
    }

    constructor (size: nat)
      requires 1 <= size <= 32
      ensures Valid() && View() == New(size)
    {
      this.size := size;
      started, stopping, fatal, sequence, queue, workers, settled := false, false, false, 0, [], [], [];
      accepted, dispatched := [], [];
    }

    method DrainQueue()
      modifies this
      ensures View() == Drain(old(View()))
    {
      if !started || stopping { return; }
      var i := 0;
      while i < |workers|
        invariant 0 <= i <= |workers| && started && !stopping
        invariant DrainFrom(old(View()), 0) == DrainFrom(View(), i)
      {
        if queue == [] { return; }
        if workers[i].inPool && Available(workers[i]) {
          var pending := queue[0];
          queue := queue[1..];
          dispatched := dispatched + [pending];
          workers := workers[i := workers[i].(active := Some(pending), timedOut := false)];
        }
        i := i + 1;
      }
    }

    /** The id of the request, unless it is refused. */
    method InvokeHandler(valid: bool) returns (id: Option<nat>)
      requires Valid()
      modifies this
      ensures Valid() && View() == Invoke(old(View()), valid)
      ensures id.Some? <==> accepted != old(accepted)
      ensures id.Some? ==> accepted == old(accepted) + [id.value]
    {
      hide Inv, StartupsOk, Grew;
      StepKeeps(View(), DoInvoke(valid));
      if !started || stopping || fatal { return None; }
      sequence := sequence + 1;
      if !valid { return None; }
      queue := queue + [sequence];
      accepted := accepted + [sequence];
      ghost var queued := View();
      DrainQueue();
      DrainKeepsAccepted(queued);
      assert View().accepted == queued.accepted && View().sequence == queued.sequence;
      assert accepted[|old(accepted)|] == sequence;
      id := Some(sequence);
    }

    method SettleActive(i: nat, outcome: Outcome)
      requires i < |workers|
      modifies this`workers, this`settled
      ensures View() == Settle(old(View()), i, outcome)
    {
      var active := workers[i].active;
      if active.Some? {
        workers := workers[i := workers[i].(active := None)];
        settled := settled + [Settlement(active.value, outcome)];
      }
    }

    /** `#terminate`: the signal is sent unless the process is gone. */
    method Terminate(i: nat)
      requires i < |workers|
      modifies this`workers
      ensures View() == Doom(old(View()), i)
    {
      if !workers[i].exited { workers := workers[i := workers[i].(doomed := true)]; }
    }

    method FailProtocolOf(i: nat)
      requires i < |workers|
      modifies this`workers, this`settled
      ensures View() == FailProtocol(old(View()), i)
    {
      SettleActive(i, Refused(ProtocolMismatch));
      Terminate(i);
    }

    method HandleMessage(i: nat, m: Message)
      requires i < |workers|
      requires Valid()
      modifies this
      ensures Valid() && View() == Receive(old(View()), i, m)
    {
      hide Inv, StartupsOk, Grew;
      StepKeeps(View(), OnWorker(i, Says(m)));
      hide Drain, FailProtocol;
      var w := workers[i];
      match m
      case Garbage => FailProtocolOf(i);
      case ReadyMessage(pid) =>
        if w.ready || pid != w.pid {
          FailProtocolOf(i);
        } else {
          workers := workers[i := w.(ready := true, startup := if w.startup == Waiting then Resolves else w.startup)];
          if w.startup == Waiting { DrainQueue(); }
        }
      case ResultMessage(id, payload) =>
        if w.active != Some(id) {
          FailProtocolOf(i);
        } else {
          SettleActive(i, Resolved(id, payload));
          DrainQueue();
        }
      case ErrorMessage(id, code) =>
        if w.active != Some(id) {
          FailProtocolOf(i);
        } else {
          SettleActive(i, HandlerFailed(id, code));
          DrainQueue();
        }
    }

    method HandleTimeout(i: nat, id: nat)
      requires i < |workers|
      requires Valid()
      modifies this`workers
      ensures Valid() && View() == Timeout(old(View()), i, id)
    {
      hide Inv, StartupsOk, Grew;
      StepKeeps(View(), OnWorker(i, TimesOut(id)));
      if workers[i].active != Some(id) { return; }
      workers := workers[i := workers[i].(timedOut := true)];
      Terminate(i);
    }

    /** `#handleExit`, and what its rejected startup promise brings about. */
    method HandleExit(i: nat, pid: nat)
      requires i < |workers|
      requires Valid()
      modifies this
      ensures Valid() && View() == StartupFailure(Exit(old(View()), i, pid), i)
    {
      hide Inv, StartupsOk, Grew, Exit, StartupFailure;
      StepKeeps(View(), OnWorker(i, Exits(pid)));
      LeavePool(i, pid);
      HandleStartupFailure(i);
    }

    method LeavePool(i: nat, pid: nat)
      requires i < |workers|
      modifies this`workers, this`settled
      ensures View() == Exit(old(View()), i, pid) && i < |workers|
    {
      var w := workers[i];
      if w.exited { return; }
      workers := workers[i := w.(exited := true, ready := false, inPool := false,
                                 startup := if w.startup == Waiting then Rejects else w.startup)];
      SettleActive(i, Refused(if w.timedOut then HandlerTimeout else HostExited));
      if !started || stopping { return; }
      workers := workers + [Fresh(pid, false)];
    }

    /** The startup timer, and what the rejected startup promise brings about. */
    method HandleStartupTimeout(i: nat)
      requires i < |workers|
      requires Valid()
      modifies this
      ensures Valid() && View() == StartupFailure(StartupTimeout(old(View()), i), i)
    {
      hide Inv, StartupsOk, Grew, StartupFailure;
      StepKeeps(View(), OnWorker(i, StartsTooLate));
      if workers[i].startup == Waiting {
        workers := workers[i := workers[i].(startup := Rejects)];
        Terminate(i);
      }
      HandleStartupFailure(i);
    }

    /** `queue.splice(0)`, each refused in turn. */
    method RefuseQueue()
      modifies this`queue, this`settled
      ensures View() == Flush(old(View()))
    {
      var pending := queue;
      queue := [];
      var i := 0;
      while i < |pending|
        invariant 0 <= i <= |pending| && queue == [] && settled == old(settled) + Refusals(pending)[..i]
      {
        settled := settled + [Settlement(pending[i], Refused(HostExited))];
        i := i + 1;
      }
    }

    method Stop()
      requires Valid()
      modifies this
      ensures Valid() && View() == BeginStop(old(View()))
    {
      hide Inv, StartupsOk, Grew;
      StepKeeps(View(), DoStop);
      hide BeginStop;
      SignalAll();
    }

    /** `stop` up to its wait. */
    method SignalAll()
      modifies this
      ensures View() == BeginStop(old(View()))
    {
      if !started && !stopping { return; }
      stopping := true;
      started := false;
      RefuseQueue();
      workers := StopWorkers(workers);
    }

    method FinishStop()
      requires Valid()
      modifies this
      ensures Valid() && View() == EndStop(old(View()))
    {
      hide Inv, StartupsOk, Grew;
      StepKeeps(View(), DoEndStop);
      if !stopping { return; }
      if exists i :: 0 <= i < |workers| && workers[i].inPool && !workers[i].exited { return; }
      workers := LeaveAll(workers);
      fatal := false;
      stopping := false;
    }

    method StartPool(pids: seq<nat>)
      requires |pids| == size
      requires Valid()
      modifies this
      ensures Valid() && View() == Start(old(View()), pids)
    {
      hide Inv, StartupsOk, Grew;
      StepKeeps(View(), DoStart(pids));
      if started || stopping { return; }
      fatal := false;
      started := true;
      var i := 0;
      while i < |pids|
        invariant 0 <= i <= |pids|
        invariant Start(old(View()), pids) == SpawnAll(View(), pids[i..])
      {
        SpawnOne(View(), pids[i..]);
        workers := workers + [Fresh(pids[i], true)];
        i := i + 1;
      }
    }

    method HandleStartupFailure(i: nat)
      requires i < |workers|
      modifies this
      ensures View() == StartupFailure(old(View()), i)
    {
      hide Flush, StopWorkers;
      var w := workers[i];
      if w.startup != Rejects { return; }
      workers := workers[i := w.(startup := Handled, inPool := false)];
      if w.initial {
        SignalAll();
      } else {
        RefuseQueue();
        fatal := true;
      }
    }
  }

  lemma SpawnOne(s: State, pids: seq<nat>)
    requires pids != []
    ensures SpawnAll(s, pids) == SpawnAll(Spawn(s, pids[0], true), pids[1..])
  {
  }

  lemma {:induction false} DrainFromKeepsAccepted(s: State, i: nat)
    ensures DrainFrom(s, i).accepted == s.accepted && DrainFrom(s, i).sequence == s.sequence
    decreases if i <= |s.workers| then |s.workers| - i else 0
  {
    if i < |s.workers| && s.queue != [] {
      if !s.workers[i].inPool || !Available(s.workers[i]) { DrainFromKeepsAccepted(s, i + 1); } else { DrainFromKeepsAccepted(Assign(s, i), i + 1); }
    }
  }

  lemma DrainKeepsAccepted(s: State)
    ensures Drain(s).accepted == s.accepted && Drain(s).sequence == s.sequence
  {
    DrainFromKeepsAccepted(s, 0);
  }
}
