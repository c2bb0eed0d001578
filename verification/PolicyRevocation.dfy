/** How long a revoked permission can still be granted by a process that missed the notification.

    The answer is at most the TTL after the commit, measured on the process's clock, unless a
    decision had already read the store when the commit happened and confirms afterwards. */
module PolicyRevocation {
  import opened Texts
  import opened DurableWork
  import opened PolicyRequests
  import opened PolicyEpoch
  import opened PolicyInvariants
  import opened PolicyRuns

  /** `c` answers a request on `x`, looked up at `from` or later, from an epoch below `epoch`. */
  ghost predicate StaleAnswer(h: Hash, w: World, c: Command, id: string, x: string, epoch: int, from: int)
  {
    Enabled(w, c) && ProcessOf(c) == Some(id) && Reply(h, w, c).Answered? && Reply(h, w, c).request.projectId == x &&
    Reply(h, w, c).epoch < epoch && from <= Reply(h, w, c).lookupAt
  }

  ghost predicate StalePath(h: Hash, w: World, commands: seq<Command>, worlds: seq<World>, id: string, x: string, epoch: int, from: int)
  {
    IsPath(h, commands, worlds) && worlds[0] == w && commands != [] &&
    StaleAnswer(h, worlds[|commands| - 1], commands[|commands| - 1], id, x, epoch, from)
  }

  /** Some continuation of `w` ends in such an answer. */
  ghost predicate CanAnswerStale(h: Hash, w: World, id: string, x: string, epoch: int, from: int)
  {
    exists commands, worlds :: StalePath(h, w, commands, worlds, id, x, epoch, from)
  }

  /** Ticket `t` has read `x` below `epoch` and may still be confirmed. */
  predicate OldRead(p: Process, t: nat, x: string, epoch: int)
  {
    t in p.tickets && p.tickets[t].Read? && p.tickets[t].request.projectId == x &&
    Floor(p, x) <= p.tickets[t].snapshot.epoch < epoch
  }

  /** A decision that read before the commit is still open, and there is time to confirm it after `c`. */
  ghost predicate Straddles(p: Process, x: string, epoch: int, c: int)
  {
    !p.unsafe && c + 1 + p.ttl <= MAX_SAFE_INTEGER && exists t :: OldRead(p, t, x, epoch)
  }

  // ---------------------------------------------------------------- without such a decision, the TTL is the bound

  ghost predicate SlotBounded(e: Entry, x: string, epoch: int, end: int)
  {
    e.projectId == x && e.epoch < epoch ==> e.expiresAt <= end
  }

  ghost predicate TicketBounded(p: Process, t: Ticket, x: string, epoch: int, c: int)
  {
    t.Read? && t.request.projectId == x && t.snapshot.epoch < epoch ==>
      (t.lookupAt <= c && (t.snapshot.epoch < Floor(p, x) || MAX_SAFE_INTEGER < c + 1 + p.ttl))
  }

  ghost predicate Bounded(p: Process, x: string, epoch: int, c: int)
  {
    p.unsafe ||
    ((forall k :: k in p.cache ==> SlotBounded(p.cache[k], x, epoch, c + p.ttl)) &&
     (forall t :: t in p.tickets ==> TicketBounded(p, p.tickets[t], x, epoch, c)))
  }

  ghost predicate NotLate(o: Outcome, x: string, epoch: int, from: int)
  {
    o.Answered? && o.request.projectId == x && o.epoch < epoch ==> o.lookupAt < from
  }

  /** Tickets and slots that were there before stay bounded while the floor rises. */
  lemma FewerBounded(p: Process, q: Process, x: string, epoch: int, c: int)
    requires Bounded(p, x, epoch, c) && ProcessGrew(p, q)
    requires forall k :: k in q.cache ==> k in p.cache && q.cache[k] == p.cache[k]
    requires forall t :: t in q.tickets ==> t in p.tickets && q.tickets[t] == p.tickets[t]
    ensures Bounded(q, x, epoch, c)
  {
    hide SlotBounded;
    if !q.unsafe {
      forall t | t in q.tickets
        ensures TicketBounded(q, q.tickets[t], x, epoch, c)
      {
        assert TicketBounded(p, p.tickets[t], x, epoch, c);
        assert Floor(p, x) <= Floor(q, x);
      }
    }
  }

  lemma LookBounded(h: Hash, held: History, p: Process, ticket: nat, input: Request, reading: Option<int>, x: string, epoch: int, c: int)
    requires ProcessOk(h, held, p) && Bounded(p, x, epoch, c)
    ensures var (q, o) := Look(h, p, ticket, input, reading); Bounded(q, x, epoch, c) && NotLate(o, x, epoch, c + p.ttl)
  {
    hide ProcessOk, Normalize, BaseKey, ObserveClock, ProcessGrew, AnswerOk;
    ClockGood(h, held, p, reading, Silent);
    ClockShrinks(p, reading);
    var (q, now) := ObserveClock(p, reading);
    FewerBounded(p, q, x, epoch, c);
    if Normalize(input).Some? && now.Some? {
      var r := Normalize(input).value;
      LookedBounded(h, held, q, ticket, r, now.value, x, epoch, c);
      hide Bounded;
      assert q.ttl == p.ttl by { TtlKept(p, q); }
    }
  }

  lemma TtlKept(p: Process, q: Process)
    requires ProcessGrew(p, q)
    ensures p.ttl == q.ttl
  {
  }

  lemma ClockShrinks(p: Process, reading: Option<int>)
    ensures var q := ObserveClock(p, reading).0;
      q.tickets == p.tickets && forall k :: k in q.cache ==> k in p.cache && q.cache[k] == p.cache[k]
  {
  }

  lemma LookedBounded(h: Hash, held: History, q: Process, ticket: nat, r: Request, now: int, x: string, epoch: int, c: int)
    requires ProcessOk(h, held, q) && !q.unsafe && Bounded(q, x, epoch, c)
    ensures var key := BaseKey(h, r);
      Bounded(q.(cache := q.cache - {key}, tickets := q.tickets[ticket := Looked(r, Floor(q, r.projectId), now)]), x, epoch, c) &&
      (Usable(q, key, r.projectId, now) ==> NotLate(Answered(r, Cache, q.cache[key].allow, q.cache[key].epoch, now), x, epoch, c + q.ttl))
  {
    hide BaseKey, TicketOk, Agrees;
    var key := BaseKey(h, r);
    if key in q.cache {
      assert EntryOk(held, r, q.cache[key]);
      assert SlotBounded(q.cache[key], x, epoch, c + q.ttl);
    }
    hide ProcessOk;
    var q' := q.(cache := q.cache - {key}, tickets := q.tickets[ticket := Looked(r, Floor(q, r.projectId), now)]);
    forall t | t in q'.tickets
      ensures TicketBounded(q', q'.tickets[t], x, epoch, c)
    {
      if t != ticket { assert TicketBounded(q, q.tickets[t], x, epoch, c); }
    }
  }

  /** A read after the commit is at the new epoch. */
  lemma ReceiveBounded(p: Process, ticket: nat, s: Option<Snapshot>, x: string, epoch: int, c: int)
    requires Bounded(p, x, epoch, c)
    requires s.Some? && s.value.projectId == x ==> epoch <= s.value.epoch
    ensures Bounded(Receive(p, ticket, s).0, x, epoch, c) && !Receive(p, ticket, s).1.Answered?
  {
    hide SlotBounded;
    var q := Receive(p, ticket, s).0;
    if !q.unsafe {
      forall t | t in q.tickets
        ensures TicketBounded(q, q.tickets[t], x, epoch, c)
      {
        if t in p.tickets { assert TicketBounded(p, p.tickets[t], x, epoch, c); }
      }
    }
  }

  lemma ConfirmBounded(h: Hash, held: History, p: Process, ticket: nat, artifact: ArtifactRead, reading: Option<int>, x: string, epoch: int, c: int)
    requires ProcessOk(h, held, p) && Bounded(p, x, epoch, c) && IsTime(c)
    ensures var (q, o) := Confirm(h, p, ticket, artifact, reading); Bounded(q, x, epoch, c) && NotLate(o, x, epoch, c + p.ttl)
  {
    hide BaseKey, ObserveClock, Agrees, Exact, Grants, CacheOk, TicketOk, SlotBounded, TicketBounded, Confirmed;
    if ticket in p.tickets && p.tickets[ticket].Read? {
      var t, d := p.tickets[ticket], Drop(p, ticket);
      DropGood(h, held, p, ticket, Silent);
      FewerBounded(p, d, x, epoch, c);
      ClockGood(h, held, d, reading, Silent);
      ClockShrinks(d, reading);
      var (q, now) := ObserveClock(d, reading);
      FewerBounded(d, q, x, epoch, c);
      hide ProcessOk, ProcessGrew;
      FewerBoundedUnsafe(q, x, epoch, c);
      if now.Some? && t.snapshot.epoch >= Floor(p, t.request.projectId) && IsTime(now.value + q.ttl) {
        TtlKept(p, d);
        TtlKept(d, q);
        assert TicketBounded(p, t, x, epoch, c);
        KeptBounded(h, p, q, t, now.value, x, epoch, c);
      }
    }
  }

  lemma FewerBoundedUnsafe(p: Process, x: string, epoch: int, c: int)
    ensures Bounded(MarkUnsafe(p), x, epoch, c)
  {
  }

  /** Confirming an old read after `c` is impossible: it is below the floor, or the time is up. */
  lemma KeptBounded(h: Hash, p: Process, q: Process, t: Ticket, now: int, x: string, epoch: int, c: int)
    requires t.Read? && TicketBounded(p, t, x, epoch, c) && Bounded(q, x, epoch, c) && q.ttl == p.ttl && p.ttl > 0
    requires Floor(p, t.request.projectId) <= t.snapshot.epoch && IsTime(now + q.ttl) && q.floors == p.floors
    ensures Bounded(Keep(h, q, t.request, t.snapshot, now), x, epoch, c)
    ensures NotLate(Answered(t.request, Fresh, Grants(t.snapshot), t.snapshot.epoch, t.lookupAt), x, epoch, c + p.ttl)
  {
    hide BaseKey, Grants;
    var k := Keep(h, q, t.request, t.snapshot, now);
    if !q.unsafe {
      forall i | i in k.cache
        ensures SlotBounded(k.cache[i], x, epoch, c + k.ttl)
      {
        if i != BaseKey(h, t.request) { assert SlotBounded(q.cache[i], x, epoch, c + q.ttl); }
      }
      forall i | i in k.tickets
        ensures TicketBounded(k, k.tickets[i], x, epoch, c)
      {
        assert TicketBounded(q, q.tickets[i], x, epoch, c);
        assert Floor(q, x) <= Floor(k, x);
      }
    }
  }

  lemma StepBounded(h: Hash, w: World, p: Process, cmd: Command, x: string, epoch: int, c: int)
    requires NoCollision(h) && StoreOk(w) && ProcessOk(h, w.held, p) && IsTime(c)
    requires Bounded(p, x, epoch, c) && x in w.projects && epoch <= w.projects[x].epoch
    ensures var (q, o) := ProcessStep(h, w, p, cmd); Bounded(q, x, epoch, c) && NotLate(o, x, epoch, c + p.ttl)
  {
    hide NoCollision, StoreOk, ProcessOk, Bounded, Look, Receive, Confirm, ReadSnapshot, Observe, Agrees, Grants;
    match cmd
    case Deliver(_, n) =>
      ObserveGood(h, w.held, p, n);
      ObserveShrinks(p, n);
      FewerBounded(p, Observe(p, n), x, epoch, c);
    case DoLook(_, ticket, input, clock) => LookBounded(h, w.held, p, ticket, input, clock, x, epoch, c);
    case DoRead(_, ticket, failing, clock) =>
      if ticket in p.tickets {
        var r := p.tickets[ticket].request;
        SnapshotAgrees(w, r, failing, clock);
        SnapshotProject(w, r, failing, clock);
        ReceiveBounded(p, ticket, ReadSnapshot(w.projects, r, failing, clock), x, epoch, c);
      }
    case DoConfirm(_, ticket, artifact, clock) => ConfirmBounded(h, w.held, p, ticket, artifact, clock, x, epoch, c);
    case Dispose(_) =>
      DisposeGood(h, w.held, p);
      FewerBounded(p, p.(cache := map[]), x, epoch, c);
    case _ =>
  }

  lemma ObserveShrinks(p: Process, n: Notification)
    ensures Observe(p, n).tickets == p.tickets
    ensures forall k :: k in Observe(p, n).cache ==> k in p.cache && Observe(p, n).cache[k] == p.cache[k]
  {
  }

  lemma SnapshotProject(w: World, r: Request, failing: bool, clock: Option<int>)
    ensures var s := ReadSnapshot(w.projects, r, failing, clock); s.Some? ==> s.value.projectId == r.projectId && r.projectId in w.projects
  {
  }

  /** What a path keeps: the process is there, with its TTL, bounded, and the project is at `epoch` or later. */
  ghost predicate PathBounded(w: World, id: string, ttl: int, x: string, epoch: int, c: int)
  {
    id in w.processes && w.processes[id].ttl == ttl && Bounded(w.processes[id], x, epoch, c) && x in w.projects && epoch <= w.projects[x].epoch
  }

  lemma WorldBounded(h: Hash, w: World, cmd: Command, id: string, ttl: int, x: string, epoch: int, c: int)
    requires NoCollision(h) && Inv(h, w) && Enabled(w, cmd) && IsTime(c) && PathBounded(w, id, ttl, x, epoch, c)
    ensures PathBounded(Step(h, w, cmd).0, id, ttl, x, epoch, c)
    ensures ProcessOf(cmd) == Some(id) ==> NotLate(Reply(h, w, cmd), x, epoch, c + ttl)
  {
    hide NoCollision, StoreOk, ProcessOk, Bounded, ProcessStep, NotLate, Floor, HistoryGrew, AnswerOk, LineOk;
    StepKeeps(h, w, cmd);
    var v := Step(h, w, cmd).0;
    assert ProcessGrew(w.processes[id], v.processes[id]);
    EpochsGrow(w, v);
    if ProcessOf(cmd) == Some(id) && !cmd.StartProcess? {
      StepBounded(h, w, w.processes[id], cmd, x, epoch, c);
    } else {
      assert v.processes[id] == w.processes[id];
      SilentIsNotLate(x, epoch, c + ttl);
    }
  }

  lemma SilentIsNotLate(x: string, epoch: int, from: int)
    ensures NotLate(Silent, x, epoch, from)
  {
  }

  lemma EpochsGrow(w: World, v: World)
    requires StoreOk(w) && StoreOk(v) && HistoryGrew(w.held, v.held)
    ensures forall x :: x in w.projects ==> x in v.projects && w.projects[x].epoch <= v.projects[x].epoch
  {
    forall x | x in w.projects
      ensures x in v.projects && w.projects[x].epoch <= v.projects[x].epoch
    {
      assert x in w.held && LineOk(w.projects[x], w.held[x]);
      assert x in v.held && LineOk(v.projects[x], v.held[x]);
    }
  }

  lemma {:induction false} PathStaysBounded(
    h: Hash, commands: seq<Command>, worlds: seq<World>, i: nat, id: string, ttl: int, x: string, epoch: int, c: int)
    requires NoCollision(h) && IsPath(h, commands, worlds) && Inv(h, worlds[0]) && IsTime(c) && i < |worlds|
    requires PathBounded(worlds[0], id, ttl, x, epoch, c)
    ensures Inv(h, worlds[i]) && PathBounded(worlds[i], id, ttl, x, epoch, c)
  {
    hide NoCollision, Inv, PathBounded, Step;
    EveryWorldOk(h, commands, worlds, i);
    if i > 0 {
      PathStaysBounded(h, commands, worlds, i - 1, id, ttl, x, epoch, c);
      WorldBounded(h, worlds[i - 1], commands[i - 1], id, ttl, x, epoch, c);
      assert worlds[i] == Step(h, worlds[i - 1], commands[i - 1]).0;
    }
  }

  ghost predicate Reached(w: World, id: string, x: string, epoch: int, c: int)
  {
    id in w.processes && x in w.projects && epoch <= w.projects[x].epoch && IsTime(c) &&
    (w.processes[id].last.Some? ==> w.processes[id].last.value <= c)
  }

  lemma StartsBounded(h: Hash, w: World, id: string, x: string, epoch: int, c: int)
    requires Inv(h, w) && Reached(w, id, x, epoch, c) && !Straddles(w.processes[id], x, epoch, c)
    ensures PathBounded(w, id, w.processes[id].ttl, x, epoch, c)
  {
    hide StoreOk, Agrees, BaseKey, EntryOk, Confirmed;
    var p := w.processes[id];
    assert ProcessOk(h, w.held, p);
    if !p.unsafe {
      forall k | k in p.cache
        ensures SlotBounded(p.cache[k], x, epoch, c + p.ttl)
      {
        assert SlotOk(p, p.cache[k]);
      }
      forall t | t in p.tickets
        ensures TicketBounded(p, p.tickets[t], x, epoch, c)
      {
        assert TicketOk(w.held, p, p.tickets[t]);
        assert OldRead(p, t, x, epoch) ==> MAX_SAFE_INTEGER < c + 1 + p.ttl;
      }
    }
  }

  lemma PathNotStale(h: Hash, w: World, commands: seq<Command>, worlds: seq<World>, id: string, ttl: int, x: string, epoch: int, c: int)
    requires NoCollision(h) && Inv(h, w) && IsTime(c) && PathBounded(w, id, ttl, x, epoch, c)
    ensures !StalePath(h, w, commands, worlds, id, x, epoch, c + ttl)
  {
    hide NoCollision, Inv, PathBounded, Step;
    if IsPath(h, commands, worlds) && worlds[0] == w && commands != [] {
      var last := |commands| - 1;
      PathStaysBounded(h, commands, worlds, last, id, ttl, x, epoch, c);
      WorldBounded(h, worlds[last], commands[last], id, ttl, x, epoch, c);
    }
  }

  lemma NeverStale(h: Hash, w: World, id: string, x: string, epoch: int, c: int)
    requires NoCollision(h) && Inv(h, w) && Reached(w, id, x, epoch, c) && !Straddles(w.processes[id], x, epoch, c)
    ensures !CanAnswerStale(h, w, id, x, epoch, c + w.processes[id].ttl)
  {
    hide NoCollision, Inv, PathBounded, StalePath, Straddles;
    StartsBounded(h, w, id, x, epoch, c);
    var ttl := w.processes[id].ttl;
    var from := c + ttl;
    forall commands, worlds
      ensures !StalePath(h, w, commands, worlds, id, x, epoch, from)
    {
      PathNotStale(h, w, commands, worlds, id, ttl, x, epoch, c);
    }
  }

  // ---------------------------------------------------------------- with one, the bound can be missed

  function ExactArtifact(r: Request): (a: ArtifactRead)
    ensures Exact(a, r)
  {
    Artifact(r.projectId, r.releaseId, r.policyRevision, r.compilerVersion, "sha256", "RESOURCE_PERMISSION_INTERSECTION_V1")
  }

  /** Confirming the old read right after `c` caches it until after `c + ttl`. */
  lemma ConfirmsLate(h: Hash, held: History, p: Process, t: nat, x: string, epoch: int, c: int)
    requires ProcessOk(h, held, p) && OldRead(p, t, x, epoch) && !p.unsafe && IsTime(c) && c + 1 + p.ttl <= MAX_SAFE_INTEGER
    requires p.last.Some? ==> p.last.value <= c
    ensures var r, s := p.tickets[t].request, p.tickets[t].snapshot; var q := Confirm(h, p, t, ExactArtifact(r), Some(c + 1)).0;
      !q.unsafe && q.ttl == p.ttl && q.last == Some(c + 1) && Floor(q, x) == s.epoch && t !in q.tickets &&
      BaseKey(h, r) in q.cache && q.cache[BaseKey(h, r)] == Entry(x, s.epoch, Grants(s), c + 1, c + 1 + p.ttl)
  {
    hide BaseKey, Grants, CacheOk, TicketOk, Exact;
    var r := p.tickets[t].request;
    var d := Drop(p, t);
    assert ObserveClock(d, Some(c + 1)) == (d.(last := Some(c + 1)), Some(c + 1));
  }

  lemma LooksLate(h: Hash, q: Process, t: nat, input: Request, r: Request, c: int)
    requires Normalize(input) == Some(r) && !q.unsafe && IsTime(c + q.ttl) && q.last == Some(c + 1) && 0 < q.ttl
    requires BaseKey(h, r) in q.cache && q.cache[BaseKey(h, r)].expiresAt == c + 1 + q.ttl && q.cache[BaseKey(h, r)].epoch == Floor(q, r.projectId)
    ensures var e := q.cache[BaseKey(h, r)]; Look(h, q, t, input, Some(c + q.ttl)).1 == Answered(r, Cache, e.allow, e.epoch, c + q.ttl)
  {
    hide BaseKey, Normalize, Floor;
    assert ObserveClock(q, Some(c + q.ttl)) == (q.(last := Some(c + q.ttl)), Some(c + q.ttl));
    SameFloor(q, q.(last := Some(c + q.ttl)), r.projectId);
  }

  lemma SometimesStale(h: Hash, w: World, id: string, x: string, epoch: int, c: int)
    requires Inv(h, w) && Reached(w, id, x, epoch, c) && Straddles(w.processes[id], x, epoch, c)
    ensures CanAnswerStale(h, w, id, x, epoch, c + w.processes[id].ttl)
  {
    hide StoreOk, ProcessOk, BaseKey, Grants, StaleAnswer, Step, Enabled, IsNormal, OldRead, Confirm;
    var p := w.processes[id];
    var t :| OldRead(p, t, x, epoch);
    var input, first, second := StaleCommands(h, w, id, t, x, epoch, c);
    TwoSteps(h, w, first, second);
    var v := Step(h, w, first).0;
    assert StalePath(h, w, [first, second], [w, v, Step(h, v, second).0], id, x, epoch, c + p.ttl);
  }

  lemma StaleCommands(h: Hash, w: World, id: string, t: nat, x: string, epoch: int, c: int)
    returns (input: Request, first: Command, second: Command)
    requires Inv(h, w) && Reached(w, id, x, epoch, c) && OldRead(w.processes[id], t, x, epoch)
    requires !w.processes[id].unsafe && c + 1 + w.processes[id].ttl <= MAX_SAFE_INTEGER
    ensures Enabled(w, first) && Enabled(Step(h, w, first).0, second)
    ensures StaleAnswer(h, Step(h, w, first).0, second, id, x, epoch, c + w.processes[id].ttl)
  {
    hide StoreOk, ProcessOk, Confirm, Look, BaseKey, Floor, Grants, IsNormal;
    var p := w.processes[id];
    var r := p.tickets[t].request;
    ReadTicket(h, w.held, p, t);
    input := InputOf(r);
    TtlPositive(h, w.held, p);
    ConfirmsLate(h, w.held, p, t, x, epoch, c);
    first := DoConfirm(id, t, ExactArtifact(r), Some(c + 1));
    var q := Confirm(h, p, t, ExactArtifact(r), Some(c + 1)).0;
    second := DoLook(id, t, input, Some(c + p.ttl));
    LooksLate(h, q, t, input, r, c);
    hide Normalize;
    LateWorld(h, w, id, first, q, second);
  }

  lemma InputOf(r: Request) returns (input: Request)
    requires IsNormal(r)
    ensures Normalize(input) == Some(r)
  {
    input :| Normalize(input) == Some(r);
  }

  lemma LateWorld(h: Hash, w: World, id: string, first: Command, q: Process, second: Command)
    requires id in w.processes && first.DoConfirm? && first.processId == id && second.DoLook? && second.processId == id
    requires q == Confirm(h, w.processes[id], first.ticket, first.artifact, first.clock).0 && second.ticket !in q.tickets
    ensures Enabled(w, first) && Enabled(Step(h, w, first).0, second)
    ensures Reply(h, Step(h, w, first).0, second) == Look(h, q, second.ticket, second.input, second.clock).1
  {
    hide Confirm, Look;
  }

  lemma TtlPositive(h: Hash, held: History, p: Process)
    requires ProcessOk(h, held, p)
    ensures 0 < p.ttl
  {
  }

  lemma TwoSteps(h: Hash, w: World, first: Command, second: Command)
    requires Enabled(w, first) && Enabled(Step(h, w, first).0, second)
    ensures var v := Step(h, w, first).0; IsPath(h, [first, second], [w, v, Step(h, v, second).0])
  {
    hide Step;
  }

  /** After `x` reached `epoch`, a process whose clock had shown at most `c` can still answer from an
      older epoch at a lookup at `c` plus its TTL or later, whatever happens to notifications, exactly
      when a decision that had read the old epoch is still open and can be confirmed after `c`. */
  lemma RevocationBound(h: Hash, commands: seq<Command>, worlds: seq<World>, i: nat, id: string, x: string, epoch: int, c: int)
    requires NoCollision(h) && IsRun(h, commands, worlds) && i < |worlds| && Reached(worlds[i], id, x, epoch, c)
    ensures worlds[i].processes[id].ttl <= MAX_TTL
    ensures CanAnswerStale(h, worlds[i], id, x, epoch, c + worlds[i].processes[id].ttl) <==> Straddles(worlds[i].processes[id], x, epoch, c)
  {
    hide NoCollision, CanAnswerStale, Straddles, Step, CacheOk, TicketOk, StoreOk;
    StartsOk(h);
    EveryWorldOk(h, commands, worlds, i);
    assert ProcessOk(h, worlds[i].held, worlds[i].processes[id]);
    if Straddles(worlds[i].processes[id], x, epoch, c) {
      SometimesStale(h, worlds[i], id, x, epoch, c);
    } else {
      NeverStale(h, worlds[i], id, x, epoch, c);
    }
  }

  /** With no decision under way at the commit, as when decisions run without interruption, the TTL,
      at most five seconds, is the bound. */
  lemma UninterruptedBound(h: Hash, commands: seq<Command>, worlds: seq<World>, i: nat, id: string, x: string, epoch: int, c: int)
    requires NoCollision(h) && IsRun(h, commands, worlds) && i < |worlds| && Reached(worlds[i], id, x, epoch, c)
    requires worlds[i].processes[id].tickets == map[]
    ensures !CanAnswerStale(h, worlds[i], id, x, epoch, c + worlds[i].processes[id].ttl) && worlds[i].processes[id].ttl <= MAX_TTL
  {
    hide NoCollision, CanAnswerStale, IsRun, Reached;
    RevocationBound(h, commands, worlds, i, id, x, epoch, c);
  }

  // ---------------------------------------------------------------- a run in which the bound is missed

  const Ask := Request("a", "a", "human", [], [], "a", "a", "a", "a", "a", "a")
  const Grantee := Binding("a", "a", "a")
  const Revoked := Project(2, {BindingKey(Grantee)}, 0)
  const Interrupted: seq<Command> := [
    CreateProject("a", Some(0)), StartProcess("p", 1), DoLook("p", 0, Ask, Some(0)), DoRead("p", 0, false, Some(0)),
    ChangeBindings("a", [Grant(Grantee)], Some(0))]

  lemma AskIsNormal()
    ensures IsIdentifier("a") && Normalize(Ask) == Some(Ask)
  {
    assert CodeUnits("a"[1..]) == 0;
    assert IsIdentifier("a");
    assert Sort([]) == [];
  }

  const NewProcess := Process(1, map[], map[], None, false, map[])
  const Asked := Process(1, map[], map[], Some(0), false, map[0 := Looked(Ask, 1, 0)])
  const Answering := Process(1, map[], map[], Some(0), false, map[0 := Read(Ask, 0, Snapshot("a", 1, 0, false, []))])

  lemma AskedIs(h: Hash)
    ensures Look(h, NewProcess, 0, Ask, Some(0)) == (Asked, Silent)
  {
    AskIsNormal();
    hide Normalize, BaseKey;
    assert NewProcess.cache - {BaseKey(h, Ask)} == map[];
  }

  lemma AnsweringIs(projects: map<string, Project>)
    requires "a" in projects && projects["a"] == Project(1, {}, 0)
    ensures Receive(Asked, 0, ReadSnapshot(projects, Ask, false, Some(0))) == (Answering, Silent)
  {
    var flags := Allowed({}, Ask, ["a"] + []);
    assert flags == [false];
    assert Allowed({}, Ask, []) == [];
    assert ReadSnapshot(projects, Ask, false, Some(0)) == Some(Snapshot("a", 1, 0, false, []));
    hide ReadSnapshot;
    assert Asked.tickets[0] == Looked(Ask, 1, 0);
    assert map[0 := Looked(Ask, 1, 0)][0 := Read(Ask, 0, Snapshot("a", 1, 0, false, []))] == Answering.tickets;
  }

  lemma RevokedIs()
    ensures Change(Project(1, {}, 0), [Grant(Grantee)], Some(0)).0 == Revoked
  {
    AskIsNormal();
    hide BindingKey, IsIdentifier;
    assert EditOk(Grant(Grantee));
    assert [Grant(Grantee)][1..] == [];
    assert {} + {BindingKey(Grantee)} == {BindingKey(Grantee)};
    assert Draft({}, [Grant(Grantee)]) == Some({BindingKey(Grantee)});
    assert BindingKey(Grantee) in {BindingKey(Grantee)};
  }

  const Created := World(map["a" := Project(1, {}, 0)], map["a" := [{}]], map[])

  function With(p: Process): World
  {
    Created.(processes := map["p" := p])
  }

  lemma FirstSteps(h: Hash)
    ensures Step(h, Nothing, Interrupted[0]).0 == Created
    ensures Enabled(Created, Interrupted[1]) && Step(h, Created, Interrupted[1]).0 == With(NewProcess)
    ensures Enabled(With(NewProcess), Interrupted[2]) && Step(h, With(NewProcess), Interrupted[2]).0 == With(Asked)
  {
    AskIsNormal();
    AskedIs(h);
    hide IsIdentifier, Look;
    assert With(NewProcess).processes["p" := Asked] == With(Asked).processes;
  }

  lemma LastSteps(h: Hash)
    ensures Enabled(With(Asked), Interrupted[3]) && Step(h, With(Asked), Interrupted[3]).0 == With(Answering)
    ensures Enabled(With(Answering), Interrupted[4])
    ensures var w := Step(h, With(Answering), Interrupted[4]).0; w.processes == map["p" := Answering] && w.projects == map["a" := Revoked]
  {
    AskIsNormal();
    RevokedIs();
    AnsweringIs(Created.projects);
    hide IsIdentifier, ReadSnapshot, Receive, Change;
    assert With(Asked).processes["p" := Answering] == With(Answering).processes;
    assert Created.projects["a" := Revoked] == map["a" := Revoked];
  }

  /** The exception is real: a run whose process, uninformed, answers from epoch 1 past the TTL
      after epoch 2 was committed. */
  lemma InterruptedDecisionOutlivesTtl(h: Hash) returns (worlds: seq<World>)
    requires NoCollision(h)
    ensures IsRun(h, Interrupted, worlds) && Reached(worlds[5], "p", "a", 2, 0) && CanAnswerStale(h, worlds[5], "p", "a", 2, 1)
  {
    hide NoCollision, Step, CanAnswerStale;
    FirstSteps(h);
    LastSteps(h);
    var w := Step(h, With(Answering), Interrupted[4]).0;
    worlds := [Nothing, Created, With(NewProcess), With(Asked), With(Answering), w];
    FiveSteps(h, worlds);
    assert OldRead(Answering, 0, "a", 2);
    assert Straddles(Answering, "a", 2, 0);
    RevocationBound(h, Interrupted, worlds, 5, "p", "a", 2, 0);
  }

  lemma FiveSteps(h: Hash, worlds: seq<World>)
    requires |worlds| == 6
    requires Enabled(worlds[0], Interrupted[0]) && worlds[1] == Step(h, worlds[0], Interrupted[0]).0
    requires Enabled(worlds[1], Interrupted[1]) && worlds[2] == Step(h, worlds[1], Interrupted[1]).0
    requires Enabled(worlds[2], Interrupted[2]) && worlds[3] == Step(h, worlds[2], Interrupted[2]).0
    requires Enabled(worlds[3], Interrupted[3]) && worlds[4] == Step(h, worlds[3], Interrupted[3]).0
    requires Enabled(worlds[4], Interrupted[4]) && worlds[5] == Step(h, worlds[4], Interrupted[4]).0
    ensures IsPath(h, Interrupted, worlds)
  {
    hide Step, Enabled;
  }
}
