/** The handler host pool as a step system. Each event of the program - a call, a message from a
    host process, a timer, an exit - is one step; host processes may do anything at any time. */
module Pool {
  import opened Texts

  datatype Refusal = HostExited | ProtocolMismatch | HandlerTimeout

  /** How a request ended: by a message of a host, which names a request, or refused by the pool. */
  datatype Outcome = Resolved(message: nat, payload: string) | HandlerFailed(message: nat, code: string) | Refused(why: Refusal)

  datatype Settlement = Settlement(id: nat, outcome: Outcome)

  datatype Startup = Waiting | Resolves | Rejects | Handled

  /** `doomed`: the process was sent a signal. `initial`: spawned by `start`, not as a replacement. */
  datatype Worker = Worker(
    pid: nat, ready: bool, exited: bool, stopping: bool, doomed: bool, startup: Startup, initial: bool, inPool: bool,
    active: Option<nat>, timedOut: bool)

  /** `accepted`, `dispatched` and `settled` are what happened so far; no step looks at them. */
  datatype State = State(
    size: nat, started: bool, stopping: bool, fatal: bool, sequence: nat, queue: seq<nat>, workers: seq<Worker>,
    accepted: seq<nat>, dispatched: seq<nat>, settled: seq<Settlement>)

  predicate Available(w: Worker)
  {
    w.ready && !w.exited && w.active.None? && !w.stopping
  }

  predicate Running(s: State)
  {
    s.started && !s.stopping
  }

  // ---------------------------------------------------------------- dispatch

  function Assign(s: State, i: nat): State
    requires i < |s.workers| && s.queue != []
  {
    s.(queue := s.queue[1..], dispatched := s.dispatched + [s.queue[0]],
       workers := s.workers[i := s.workers[i].(active := Some(s.queue[0]), timedOut := false)])
  }

  /** The loop of `#drain` from worker `i` on. */
  function DrainFrom(s: State, i: nat): State
    decreases if i <= |s.workers| then |s.workers| - i else 0
  {
    if i >= |s.workers| || s.queue == [] then s
    else if !s.workers[i].inPool || !Available(s.workers[i]) then DrainFrom(s, i + 1)
    else DrainFrom(Assign(s, i), i + 1)
  }

  function Drain(s: State): State
  {
    if Running(s) then DrainFrom(s, 0) else s
  }

  /** `invoke`; `valid` tells whether the envelope and the artifact are accepted. */
  function Invoke(s: State, valid: bool): State
  {
    if !Running(s) || s.fatal then s
    else
      var id := s.sequence + 1;
      var counted := s.(sequence := id);
      if !valid then counted else Drain(counted.(queue := s.queue + [id], accepted := s.accepted + [id]))
  }

  // ---------------------------------------------------------------- one worker

  function Settle(s: State, i: nat, outcome: Outcome): (t: State)
    requires i < |s.workers|
    ensures |t.workers| == |s.workers|
  {
    if s.workers[i].active.None? then s
    else
      s.(workers := s.workers[i := s.workers[i].(active := None)],
         settled := s.settled + [Settlement(s.workers[i].active.value, outcome)])
  }

  function Doom(s: State, i: nat): (t: State)
    requires i < |s.workers|
    ensures |t.workers| == |s.workers|
  {
    if s.workers[i].exited then s else s.(workers := s.workers[i := s.workers[i].(doomed := true)])
  }

  /** `#failProtocol` */
  function FailProtocol(s: State, i: nat): (r: State)
    requires i < |s.workers|
  {
    Doom(Settle(s, i, Refused(ProtocolMismatch)), i)
  }

  datatype Message = Garbage | ReadyMessage(pid: nat) | ResultMessage(id: nat, payload: string) | ErrorMessage(id: nat, code: string)

  /** `#handleMessage` */
  function Receive(s: State, i: nat, m: Message): State
    requires i < |s.workers|
  {
    var w := s.workers[i];
    match m
    case Garbage => FailProtocol(s, i)
    case ReadyMessage(pid) =>
      if w.ready || pid != w.pid then FailProtocol(s, i)
      else
        var readied := s.(workers := s.workers[i := w.(ready := true, startup := if w.startup == Waiting then Resolves else w.startup)]);
        if w.startup == Waiting then Drain(readied) else readied
    case ResultMessage(id, payload) =>
      if w.active != Some(id) then FailProtocol(s, i) else Drain(Settle(s, i, Resolved(id, payload)))
    case ErrorMessage(id, code) =>
      if w.active != Some(id) then FailProtocol(s, i) else Drain(Settle(s, i, HandlerFailed(id, code)))
  }

  /** `#handleTimeout` for the invocation `id`. */
  function Timeout(s: State, i: nat, id: nat): State
    requires i < |s.workers|
  {
    if s.workers[i].active != Some(id) then s
    else Doom(s.(workers := s.workers[i := s.workers[i].(timedOut := true)]), i)
  }

  /** The startup timer, cleared by READY and by an exit. */
  function StartupTimeout(s: State, i: nat): (t: State)
    requires i < |s.workers|
    ensures |t.workers| == |s.workers|
  {
    var w := s.workers[i];
    if w.startup != Waiting then s else Doom(s.(workers := s.workers[i := w.(startup := Rejects)]), i)
  }

  function Fresh(pid: nat, initial: bool): Worker
  {
    Worker(pid, false, false, false, false, Waiting, initial, true, None, false)
  }

  /** `#spawnWorker` up to its first wait. */
  function Spawn(s: State, pid: nat, initial: bool): State
  {
    s.(workers := s.workers + [Fresh(pid, initial)])
  }

  /** `#handleExit` and the pool's `#handleWorkerExit`. */
  function Exit(s: State, i: nat, pid: nat): (t: State)
    requires i < |s.workers|
    ensures |t.workers| >= |s.workers|
  {
    var w := s.workers[i];
    if w.exited then s
    else
      var marked := s.(workers := s.workers[i := w.(exited := true, ready := false, inPool := false,
                                                    startup := if w.startup == Waiting then Rejects else w.startup)]);
      var settled := Settle(marked, i, Refused(if w.timedOut then HandlerTimeout else HostExited));
      if Running(s) then Spawn(settled, pid, false) else settled
  }

  // ---------------------------------------------------------------- the pool

  function Refusals(ids: seq<nat>): (r: seq<Settlement>)
    ensures |r| == |ids| && forall k :: 0 <= k < |ids| ==> r[k] == Settlement(ids[k], Refused(HostExited))
  {
    seq(|ids|, k requires 0 <= k < |ids| => Settlement(ids[k], Refused(HostExited)))
  }

  function Flush(s: State): State
  {
    s.(queue := [], settled := s.settled + Refusals(s.queue))
  }

  function StopWorkers(workers: seq<Worker>): (r: seq<Worker>)
    ensures |r| == |workers|
    ensures forall i :: 0 <= i < |workers| ==>
      r[i] == if workers[i].inPool && !workers[i].exited then workers[i].(stopping := true, doomed := true) else workers[i]
  {
    seq(|workers|, i requires 0 <= i < |workers| =>
      if workers[i].inPool && !workers[i].exited then workers[i].(stopping := true, doomed := true) else workers[i])
  }

  /** `stop` up to the wait for the exits. */
  function BeginStop(s: State): State
  {
    if !s.started && !s.stopping then s
    else Flush(s).(stopping := true, started := false, workers := StopWorkers(s.workers))
  }

  function LeaveAll(workers: seq<Worker>): (r: seq<Worker>)
    ensures |r| == |workers| && forall i :: 0 <= i < |workers| ==> r[i] == workers[i].(inPool := false)
  {
    seq(|workers|, i requires 0 <= i < |workers| => workers[i].(inPool := false))
  }

  predicate AllGone(s: State)
  {
    forall i :: 0 <= i < |s.workers| && s.workers[i].inPool ==> s.workers[i].exited
  }

  /** `stop` after every process it waited for exited. */
  function EndStop(s: State): State
  {
    if !s.stopping || !AllGone(s) then s else s.(stopping := false, fatal := false, workers := LeaveAll(s.workers))
  }

  function SpawnAll(s: State, pids: seq<nat>): State
    decreases |pids|
  {
    if pids == [] then s else SpawnAll(Spawn(s, pids[0], true), pids[1..])
  }

  function Start(s: State, pids: seq<nat>): State
  {
    if s.started || s.stopping then s else SpawnAll(s.(fatal := false, started := true), pids)
  }

  /** The rejected startup reaches `start`, which stops the pool, or the respawn, which makes it fatal. */
  function StartupFailure(s: State, i: nat): State
    requires i < |s.workers|
  {
    var w := s.workers[i];
    if w.startup != Rejects then s
    else
      var left := s.(workers := s.workers[i := w.(startup := Handled, inPool := false)]);
      if w.initial then BeginStop(left) else Flush(left).(fatal := true)
  }

  // ---------------------------------------------------------------- runs

  datatype WorkerEvent = Says(message: Message) | TimesOut(id: nat) | StartsTooLate | IsKilled | Exits(replacement: nat)

  datatype Event = DoStart(pids: seq<nat>) | DoInvoke(valid: bool) | OnWorker(worker: nat, what: WorkerEvent) | DoStop | DoEndStop

  predicate Enabled(s: State, e: Event)
  {
    match e
    case DoStart(pids) => |pids| == s.size
    case OnWorker(i, _) => i < |s.workers|
    case _ => true
  }

  /** One event of worker `i`. A rejected startup is dealt with before the next event, in the
      microtask of its promise. */
  function WorkerStep(s: State, i: nat, what: WorkerEvent): State
    requires i < |s.workers|
  {
    match what
    case Says(m) => Receive(s, i, m)
    case TimesOut(id) => Timeout(s, i, id)
    case StartsTooLate => StartupFailure(StartupTimeout(s, i), i)
    case IsKilled => Doom(s, i)
    case Exits(pid) => StartupFailure(Exit(s, i, pid), i)
  }

  function Step(s: State, e: Event): State
    requires Enabled(s, e)
  {
    match e
    case DoStart(pids) => Start(s, pids)
    case DoInvoke(valid) => Invoke(s, valid)
    case OnWorker(i, what) => WorkerStep(s, i, what)
    case DoStop => BeginStop(s)
    case DoEndStop => EndStop(s)
  }

  function New(size: nat): State
  {
    State(size, false, false, false, 0, [], [], [], [], [])
  }

  ghost predicate IsRun(size: nat, events: seq<Event>, states: seq<State>)
  {
    |states| == |events| + 1 && states[0] == New(size) &&
    forall i :: 0 <= i < |events| ==> Enabled(states[i], events[i]) && states[i + 1] == Step(states[i], events[i])
  }
}
