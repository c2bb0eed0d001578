/** The authorization store and the decision processes, as one step system.

    A decision is three steps, because commits, notifications and other decisions may come in while
    the process reads its dependencies: look up the cache, read the store, confirm. Clock readings,
    read failures and compiled policies come from outside, with every step. */
module PolicyEpoch {
  import opened Texts
  import opened DurableWork
  import opened PolicyRequests

  const MAX_EPOCH: int := 9223372036854775807
  const MAX_TTL := 5000

  // ---------------------------------------------------------------- the authorization store

  datatype Project = Project(epoch: int, bindings: set<string>, changedAt: int)

  /** A call on the draft inside `transactAuthorizationChange`; `Abort` is a throwing callback. */
  datatype Edit = Grant(b: Binding) | Revoke(b: Binding) | Abort

  predicate EditOk(e: Edit)
  {
    !e.Abort? && IsIdentifier(e.b.principalId) && IsIdentifier(e.b.resourceId) && IsIdentifier(e.b.permission)
  }

  /** The draft after the edits, or `None` once one of them throws. */
  function Draft(keys: set<string>, edits: seq<Edit>): Option<set<string>>
    decreases |edits|
  {
    if edits == [] then Some(keys)
    else if !EditOk(edits[0]) then None
    else Draft(if edits[0].Grant? then keys + {BindingKey(edits[0].b)} else keys - {BindingKey(edits[0].b)}, edits[1..])
  }

  /** The same edits on bindings rather than their keys. */
  function Edited(bindings: set<Binding>, edits: seq<Edit>): set<Binding>
    decreases |edits|
  {
    if edits == [] then bindings
    else
      match edits[0]
      case Grant(b) => Edited(bindings + {b}, edits[1..])
      case Revoke(b) => Edited(bindings - {b}, edits[1..])
      case Abort => Edited(bindings, edits[1..])
  }

  datatype CommitReply = Committed(epoch: int, changed: bool, at: int) | CommitFailed

  /** `transactAuthorizationChange` on one project. */
  function Change(p: Project, edits: seq<Edit>, clock: Option<int>): (Project, CommitReply)
  {
    var next := Draft(p.bindings, edits);
    if next.None? then (p, CommitFailed)
    else if p.bindings == next.value then (p, Committed(p.epoch, false, p.changedAt))
    else if p.epoch >= MAX_EPOCH then (p, CommitFailed)
    else if clock.None? || !IsTime(clock.value) || clock.value < p.changedAt then (p, CommitFailed)
    else (Project(p.epoch + 1, next.value, clock.value), Committed(p.epoch + 1, true, clock.value))
  }

  datatype Snapshot = Snapshot(projectId: string, epoch: int, observedAt: int, actorAllowed: bool, delegationAllowed: seq<bool>)

  predicate HasBinding(keys: set<string>, r: Request, principal: string)
  {
    BindingKey(Binding(principal, r.resourceId, r.permission)) in keys
  }

  function Allowed(keys: set<string>, r: Request, principals: seq<string>): (flags: seq<bool>)
    ensures |flags| == |principals| && forall i :: 0 <= i < |principals| ==> (flags[i] <==> HasBinding(keys, r, principals[i]))
  {
    seq(|principals|, i requires 0 <= i < |principals| => HasBinding(keys, r, principals[i]))
  }

  /** `readAuthorizationSnapshot` for the principals of `r`; `None` where it throws. The request of
      a process always passes `assertAuthorizationSnapshotRequest`. */
  function ReadSnapshot(projects: map<string, Project>, r: Request, failing: bool, clock: Option<int>): Option<Snapshot>
  {
    if failing || r.projectId !in projects || clock.None? || !IsTime(clock.value) then None
    else
      var p := projects[r.projectId];
      Some(Snapshot(r.projectId, p.epoch, clock.value,
                    true in Allowed(p.bindings, r, [r.subjectId] + r.groups), Allowed(p.bindings, r, r.delegation)))
  }

  // ---------------------------------------------------------------- a decision process

  datatype Entry = Entry(projectId: string, epoch: int, allow: bool, confirmedAt: int, expiresAt: int)

  /** A decision under way. */
  datatype Ticket =
    | Looked(request: Request, floor: int, lookupAt: int)
    | Read(request: Request, lookupAt: int, snapshot: Snapshot)

  datatype Process = Process(
    ttl: int, cache: map<string, Entry>, floors: map<string, int>, last: Option<int>, unsafe: bool, tickets: map<nat, Ticket>)

  datatype FailureCode = ArtifactNotFound | ArtifactUnavailable | EpochUnavailable | EpochUnconfirmed | InputInvalid | ClockUnsafe
  datatype Source = Cache | Fresh

  datatype Outcome =
    | Answered(request: Request, source: Source, allow: bool, epoch: int, lookupAt: int)
    | FailedClosed(code: FailureCode)
    | Silent

  function Floor(p: Process, projectId: string): int
  {
    if projectId in p.floors then p.floors[projectId] else 1
  }

  /** `#markClockUnsafe` */
  function MarkUnsafe(p: Process): Process
  {
    p.(unsafe := true, cache := map[])
  }

  predicate ClockOk(p: Process, reading: Option<int>)
  {
    reading.Some? && IsTime(reading.value) && (p.last.None? || p.last.value <= reading.value)
  }

  /** `#observeMonotonicClock`: the reading it returns, if it does not throw. */
  function ObserveClock(p: Process, reading: Option<int>): (Process, Option<int>)
  {
    if p.unsafe then (p, None)
    else if !ClockOk(p, reading) then (MarkUnsafe(p), None)
    else (p.(last := reading), reading)
  }

  predicate Usable(p: Process, key: string, projectId: string, now: int)
  {
    key in p.cache && now < p.cache[key].expiresAt && p.cache[key].epoch >= Floor(p, projectId)
  }

  /** `decide` up to the store: the cached answer, or a ticket for the rest. */
  function Look(h: Hash, p: Process, ticket: nat, input: Request, reading: Option<int>): (Process, Outcome)
  {
    var request := Normalize(input);
    if request.None? then (p, FailedClosed(InputInvalid))
    else
      var observed := ObserveClock(p, reading);
      var p', r := observed.0, request.value;
      if observed.1.None? then (p', FailedClosed(ClockUnsafe))
      else
        var key, now := BaseKey(h, r), observed.1.value;
        if Usable(p', key, r.projectId, now) then (p', Answered(r, Cache, p'.cache[key].allow, p'.cache[key].epoch, now))
        else (p'.(cache := p'.cache - {key}, tickets := p'.tickets[ticket := Looked(r, Floor(p', r.projectId), now)]), Silent)
  }

  /** `isConfirmedSnapshot` */
  predicate Confirmed(s: Snapshot, r: Request)
  {
    s.projectId == r.projectId && 1 <= s.epoch <= MAX_EPOCH && IsTime(s.observedAt) && |s.delegationAllowed| == |r.delegation|
  }

  function Drop(p: Process, ticket: nat): Process
  {
    p.(tickets := p.tickets - {ticket})
  }

  /** `decide` from the store's answer to the compiled policies. */
  function Receive(p: Process, ticket: nat, snapshot: Option<Snapshot>): (Process, Outcome)
  {
    if ticket !in p.tickets || !p.tickets[ticket].Looked? then (p, Silent)
    else
      var t := p.tickets[ticket];
      if snapshot.None? || !Confirmed(snapshot.value, t.request) then (Drop(p, ticket), FailedClosed(EpochUnavailable))
      else if snapshot.value.epoch < t.floor then (Drop(p, ticket), FailedClosed(EpochUnconfirmed))
      else (p.(tickets := p.tickets[ticket := Read(t.request, t.lookupAt, snapshot.value)]), Silent)
  }

  datatype ArtifactRead =
    | Artifact(projectId: string, releaseId: string, policyRevision: string, compilerVersion: string, digest: string, contract: string)
    | Missing
    | Unreadable

  /** `isExactCompiledArtifact` */
  predicate Exact(a: ArtifactRead, r: Request)
  {
    a.Artifact? && a.projectId == r.projectId && a.releaseId == r.releaseId && a.policyRevision == r.policyRevision &&
    a.compilerVersion == r.compilerVersion && a.digest != "" && a.contract == "RESOURCE_PERMISSION_INTERSECTION_V1"
  }

  predicate Grants(s: Snapshot)
  {
    s.actorAllowed && false !in s.delegationAllowed
  }

  /** `decide` from the final floor check to the end. */
  function Confirm(h: Hash, p: Process, ticket: nat, artifact: ArtifactRead, reading: Option<int>): (Process, Outcome)
  {
    if ticket !in p.tickets || !p.tickets[ticket].Read? then (p, Silent)
    else
      var t, d := p.tickets[ticket], Drop(p, ticket);
      var r, s := t.request, t.snapshot;
      if artifact.Missing? then (d, FailedClosed(ArtifactNotFound))
      else if !Exact(artifact, r) then (d, FailedClosed(ArtifactUnavailable))
      else if s.epoch < Floor(p, r.projectId) then (d, FailedClosed(EpochUnconfirmed))
      else
        var observed := ObserveClock(d, reading);
        if observed.1.None? then (observed.0, FailedClosed(ClockUnsafe))
        else
          var now, p' := observed.1.value, observed.0;
          if !IsTime(now + p'.ttl) then (MarkUnsafe(p'), FailedClosed(ClockUnsafe))
          else (Keep(h, p', r, s, now), Answered(r, Fresh, Grants(s), s.epoch, t.lookupAt))
  }

  /** The floor raised to the snapshot's epoch and the decision cached. */
  function Keep(h: Hash, p: Process, r: Request, s: Snapshot, now: int): Process
  {
    p.(floors := if s.epoch > Floor(p, r.projectId) then p.floors[r.projectId := s.epoch] else p.floors,
       cache := p.cache[BaseKey(h, r) := Entry(r.projectId, s.epoch, Grants(s), now, now + p.ttl)])
  }

  datatype Notification = Notification(version: int, projectId: string, epoch: int)

  predicate NotificationOk(n: Notification)
  {
    n.version == 1 && n.projectId != "" && 1 <= n.epoch <= MAX_EPOCH
  }

  /** `observeNotification` */
  function Observe(p: Process, n: Notification): Process
  {
    if !NotificationOk(n) || n.epoch <= Floor(p, n.projectId) then p
    else p.(floors := p.floors[n.projectId := n.epoch], cache := map k | k in p.cache && p.cache[k].projectId != n.projectId :: p.cache[k])
  }

  // ---------------------------------------------------------------- the system

  /** `held` records which bindings each project held at epochs 1, 2, ...; no step looks at it. */
  datatype World = World(projects: map<string, Project>, held: map<string, seq<set<Binding>>>, processes: map<string, Process>)

  datatype Command =
    | CreateProject(projectId: string, clock: Option<int>)
    | ChangeBindings(projectId: string, edits: seq<Edit>, clock: Option<int>)
    | StartProcess(processId: string, ttl: int)
    | Deliver(processId: string, notification: Notification)
    | DoLook(processId: string, ticket: nat, input: Request, clock: Option<int>)
    | DoRead(processId: string, ticket: nat, failing: bool, clock: Option<int>)
    | DoConfirm(processId: string, ticket: nat, artifact: ArtifactRead, clock: Option<int>)
    | Dispose(processId: string)

  const Nothing := World(map[], map[], map[])

  /** A ticket is not taken twice, a process is not started twice. */
  predicate Enabled(w: World, c: Command)
  {
    match c
    case CreateProject(_, _) => true
    case ChangeBindings(_, _, _) => true
    case StartProcess(id, ttl) => id !in w.processes && 0 < ttl <= MAX_TTL
    case DoLook(id, ticket, _, _) => id in w.processes && ticket !in w.processes[id].tickets
    case _ => c.processId in w.processes
  }

  function Create(w: World, projectId: string, clock: Option<int>): World
  {
    if !IsIdentifier(projectId) || projectId in w.projects || clock.None? || !IsTime(clock.value) then w
    else w.(projects := w.projects[projectId := Project(1, {}, clock.value)], held := w.held[projectId := [{}]])
  }

  function Commit(w: World, projectId: string, edits: seq<Edit>, clock: Option<int>): World
  {
    if !IsIdentifier(projectId) || projectId !in w.projects then w
    else
      var p := w.projects[projectId];
      var p' := Change(p, edits, clock).0;
      var line := if projectId in w.held then w.held[projectId] else [];
      w.(projects := w.projects[projectId := p'],
         held := if p'.epoch == p.epoch || line == [] then w.held
                 else w.held[projectId := line + [Edited(line[|line| - 1], edits)]])
  }

  function ProcessStep(h: Hash, w: World, p: Process, c: Command): (Process, Outcome)
  {
    match c
    case Deliver(_, n) => (Observe(p, n), Silent)
    case DoLook(_, ticket, input, clock) => Look(h, p, ticket, input, clock)
    case DoRead(_, ticket, failing, clock) =>
      if ticket !in p.tickets then (p, Silent)
      else Receive(p, ticket, ReadSnapshot(w.projects, p.tickets[ticket].request, failing, clock))
    case DoConfirm(_, ticket, artifact, clock) => Confirm(h, p, ticket, artifact, clock)
    case Dispose(_) => (p.(cache := map[]), Silent)
    case _ => (p, Silent)
  }

  function Step(h: Hash, w: World, c: Command): (World, Outcome)
    requires Enabled(w, c)
  {
    match c
    case CreateProject(projectId, clock) => (Create(w, projectId, clock), Silent)
    case ChangeBindings(projectId, edits, clock) => (Commit(w, projectId, edits, clock), Silent)
    case StartProcess(id, ttl) => (w.(processes := w.processes[id := Process(ttl, map[], map[], None, false, map[])]), Silent)
    case _ =>
      var next := ProcessStep(h, w, w.processes[c.processId], c);
      (w.(processes := w.processes[c.processId := next.0]), next.1)
  }

  /** `worlds[i + 1]` is `worlds[i]` after `commands[i]`. */
  ghost predicate IsPath(h: Hash, commands: seq<Command>, worlds: seq<World>)
  {
    |worlds| == |commands| + 1 &&
    forall i :: 0 <= i < |commands| ==>
      Enabled(worlds[i], commands[i]) && worlds[i + 1] == Step(h, worlds[i], commands[i]).0
  }

  ghost predicate IsRun(h: Hash, commands: seq<Command>, worlds: seq<World>)
  {
    IsPath(h, commands, worlds) && worlds[0] == Nothing
  }

  /** What command `i` of a path answered. */
  function Reply(h: Hash, w: World, c: Command): Outcome
    requires Enabled(w, c)
  {
    Step(h, w, c).1
  }
}
