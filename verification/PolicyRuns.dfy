/** What holds over every run of the store and any number of decision processes, whatever is
    committed, notified, lost, delayed or asked. */
module PolicyRuns {
  import opened Texts
  import opened DurableWork
  import opened PolicyRequests
  import opened PolicyEpoch
  import opened PolicyInvariants

  // ---------------------------------------------------------------- steps

  ghost predicate WorldGrew(w: World, v: World)
  {
    HistoryGrew(w.held, v.held) &&
    forall id :: id in w.processes ==> id in v.processes && ProcessGrew(w.processes[id], v.processes[id])
  }

  /** The process that a command runs on. */
  function ProcessOf(c: Command): Option<string>
  {
    if c.CreateProject? || c.ChangeBindings? then None else Some(c.processId)
  }

  ghost predicate ReplyOk(w: World, c: Command, o: Outcome)
  {
    o.Answered? ==> ProcessOf(c).Some? && ProcessOf(c).value in w.processes && AnswerOk(w.held, w.processes[ProcessOf(c).value], o)
  }

  ghost predicate StepGood(h: Hash, w: World, v: World, c: Command, o: Outcome)
  {
    Inv(h, v) && WorldGrew(w, v) && ReplyOk(v, c, o)
  }

  lemma ProcessStepGood(h: Hash, w: World, p: Process, c: Command)
    requires NoCollision(h) && StoreOk(w) && ProcessOk(h, w.held, p)
    ensures Good(h, w.held, p, ProcessStep(h, w, p, c).0, ProcessStep(h, w, p, c).1)
  {
    hide NoCollision, StoreOk, ProcessOk, Good, Observe, Look, Receive, Confirm, ReadSnapshot, Agrees, Grants;
    GoodSelf(h, w.held, p, Silent);
    match c
    case Deliver(_, n) => ObserveGood(h, w.held, p, n);
    case DoLook(_, ticket, input, clock) => LookGood(h, w.held, p, ticket, input, clock);
    case DoRead(_, ticket, failing, clock) =>
      if ticket in p.tickets {
        SnapshotAgrees(w, p.tickets[ticket].request, failing, clock);
        ReceiveGood(h, w.held, p, ticket, ReadSnapshot(w.projects, p.tickets[ticket].request, failing, clock));
      }
    case DoConfirm(_, ticket, artifact, clock) => ConfirmGood(h, w.held, p, ticket, artifact, clock);
    case Dispose(_) => DisposeGood(h, w.held, p);
    case _ =>
  }

  lemma CommitStore(w: World, projectId: string, edits: seq<Edit>, clock: Option<int>)
    requires StoreOk(w)
    ensures var v := Commit(w, projectId, edits, clock); StoreOk(v) && HistoryGrew(w.held, v.held) && v.processes == w.processes
  {
    hide LineOk, Change, Edited;
    if projectId in w.projects {
      var p, line := w.projects[projectId], w.held[projectId];
      assert LineOk(p, line);
      LineNotEmpty(p, line);
      ChangeIsCounted(p, line, edits, clock);
    }
  }

  lemma LineNotEmpty(p: Project, line: seq<set<Binding>>)
    requires LineOk(p, line)
    ensures line != []
  {
  }

  lemma CreateStore(w: World, projectId: string, clock: Option<int>)
    requires StoreOk(w)
    ensures var v := Create(w, projectId, clock); StoreOk(v) && HistoryGrew(w.held, v.held) && v.processes == w.processes
  {
    assert Keys({}) == {};
    hide Keys;
    var v := Create(w, projectId, clock);
    if v != w { assert LineOk(Project(1, {}, clock.value), [{}]); }
    hide LineOk;
  }

  lemma StoreStepGood(h: Hash, w: World, v: World)
    requires Inv(h, w) && StoreOk(v) && HistoryGrew(w.held, v.held) && v.processes == w.processes
    ensures Inv(h, v) && WorldGrew(w, v)
  {
    hide StoreOk, ProcessOk, HistoryGrew;
    forall id | id in v.processes
      ensures ProcessOk(h, v.held, v.processes[id]) && ProcessGrew(v.processes[id], v.processes[id])
    {
      ProcessOkLater(h, w.held, v.held, v.processes[id]);
    }
  }

  lemma OnlyProcess(h: Hash, w: World, id: string, q: Process, o: Outcome, c: Command)
    requires Inv(h, w) && ProcessOf(c) == Some(id) && ProcessOk(h, w.held, q)
    requires AnswerOk(w.held, q, o) && (id in w.processes ==> ProcessGrew(w.processes[id], q))
    ensures StepGood(h, w, w.(processes := w.processes[id := q]), c, o)
  {
    hide StoreOk, ProcessOk, AnswerOk;
    var v := w.(processes := w.processes[id := q]);
    assert StoreOk(v) by { SameStore(w, v); }
    assert HistoryGrew(w.held, v.held);
    forall i | i in v.processes
      ensures ProcessOk(h, v.held, v.processes[i]) && (i in w.processes ==> ProcessGrew(w.processes[i], v.processes[i]))
    {
      if i != id { assert ProcessOk(h, w.held, w.processes[i]); }
    }
  }

  lemma SameStore(w: World, v: World)
    requires v.projects == w.projects && v.held == w.held
    ensures StoreOk(w) <==> StoreOk(v)
  {
    hide LineOk;
  }

  lemma StepKeeps(h: Hash, w: World, c: Command)
    requires NoCollision(h) && Inv(h, w) && Enabled(w, c)
    ensures StepGood(h, w, Step(h, w, c).0, c, Step(h, w, c).1)
  {
    hide NoCollision, StoreOk, ProcessOk, ProcessStep, ProcessGrew, AnswerOk, Create, Commit, WorldGrew;
    match c
    case CreateProject(projectId, clock) =>
      CreateStore(w, projectId, clock);
      StoreStepGood(h, w, Create(w, projectId, clock));
    case ChangeBindings(projectId, edits, clock) =>
      CommitStore(w, projectId, edits, clock);
      StoreStepGood(h, w, Commit(w, projectId, edits, clock));
    case StartProcess(id, ttl) =>
      StartGood(h, w.held, ttl);
      OnlyProcess(h, w, id, Process(ttl, map[], map[], None, false, map[]), Silent, c);
    case _ =>
      var p := w.processes[c.processId];
      ProcessStepGood(h, w, p, c);
      var next := ProcessStep(h, w, p, c);
      assert Good(h, w.held, p, next.0, next.1);
      OnlyProcess(h, w, c.processId, next.0, next.1, c);
  }

  lemma StartGood(h: Hash, held: History, ttl: int)
    requires 0 < ttl <= MAX_TTL
    ensures var p := Process(ttl, map[], map[], None, false, map[]); ProcessOk(h, held, p) && AnswerOk(held, p, Silent)
  {
    hide BaseKey;
  }

  // ---------------------------------------------------------------- runs

  lemma {:induction false} EveryWorldOk(h: Hash, commands: seq<Command>, worlds: seq<World>, i: nat)
    requires NoCollision(h) && IsPath(h, commands, worlds) && Inv(h, worlds[0]) && i < |worlds|
    ensures Inv(h, worlds[i])
  {
    if i > 0 {
      hide Inv, NoCollision, Step, WorldGrew, ReplyOk;
      EveryWorldOk(h, commands, worlds, i - 1);
      StepKeeps(h, worlds[i - 1], commands[i - 1]);
      assert worlds[i] == Step(h, worlds[i - 1], commands[i - 1]).0;
    }
  }

  lemma StartsOk(h: Hash)
    ensures Inv(h, Nothing)
  {
    hide ProcessOk, LineOk;
  }

  /** Bindings once held stay on record, floors and clocks never fall, an unsafe clock stays so. */
  lemma {:induction false} NothingTakenBack(h: Hash, commands: seq<Command>, worlds: seq<World>, i: nat, j: nat)
    requires NoCollision(h) && IsRun(h, commands, worlds) && i <= j < |worlds|
    ensures WorldGrew(worlds[i], worlds[j])
    decreases j
  {
    hide Inv, NoCollision, Step, ProcessGrew, ReplyOk, HistoryGrew;
    GrewSelf(worlds[i]);
    if i < j {
      NothingTakenBack(h, commands, worlds, i, j - 1);
      StartsOk(h);
      EveryWorldOk(h, commands, worlds, j - 1);
      StepKeeps(h, worlds[j - 1], commands[j - 1]);
      assert worlds[j] == Step(h, worlds[j - 1], commands[j - 1]).0;
      GrewTransitive(worlds[i], worlds[j - 1], worlds[j]);
    }
  }

  lemma GrewSelf(w: World)
    ensures WorldGrew(w, w)
  {
  }

  lemma GrewTransitive(a: World, b: World, c: World)
    requires WorldGrew(a, b) && WorldGrew(b, c)
    ensures WorldGrew(a, c)
  {
    hide HistoryGrew, Floor;
    HistoryGrewTransitive(a.held, b.held, c.held);
    forall id | id in a.processes
      ensures id in c.processes && ProcessGrew(a.processes[id], c.processes[id])
    {
      assert ProcessGrew(a.processes[id], b.processes[id]) && ProcessGrew(b.processes[id], c.processes[id]);
    }
  }

  /** Process `id` answers a request on `project` at step `i`. */
  ghost predicate AnswersAt(h: Hash, commands: seq<Command>, worlds: seq<World>, i: nat, id: string, project: string)
    requires IsPath(h, commands, worlds) && i < |commands|
  {
    var o := Reply(h, worlds[i], commands[i]);
    ProcessOf(commands[i]) == Some(id) && o.Answered? && o.request.projectId == project
  }

  /** Cached or fresh, an answer at epoch e is the uncached evaluation of the bindings the store held
      at epoch e, and e is then the process's floor. */
  lemma AnswersAgree(h: Hash, commands: seq<Command>, worlds: seq<World>, i: nat, id: string, project: string)
    requires NoCollision(h) && IsRun(h, commands, worlds) && i < |commands| && AnswersAt(h, commands, worlds, i, id, project)
    ensures var o := Reply(h, worlds[i], commands[i]); var held := worlds[i + 1].held;
      project in held && 1 <= o.epoch <= |held[project]| && (o.allow <==> Evaluate(held[project][o.epoch - 1], o.request)) &&
      id in worlds[i + 1].processes && o.epoch == Floor(worlds[i + 1].processes[id], project) && !worlds[i + 1].processes[id].unsafe
  {
    hide Inv, NoCollision, Step, Evaluate;
    StartsOk(h);
    EveryWorldOk(h, commands, worlds, i);
    StepKeeps(h, worlds[i], commands[i]);
    assert worlds[i + 1] == Step(h, worlds[i], commands[i]).0;
  }

  // ---------------------------------------------------------------- whose question is answered

  /** `c` looks up `ticket` on process `id` for a request that normalizes to `r`. */
  ghost predicate LooksUp(c: Command, id: string, ticket: nat, r: Request)
  {
    c.DoLook? && c.processId == id && c.ticket == ticket && Normalize(c.input) == Some(r)
  }

  /** Where the tickets of a process come from in one step. */
  lemma TicketStep(h: Hash, w: World, p: Process, c: Command, ticket: nat)
    ensures var q := ProcessStep(h, w, p, c).0;
      ticket in q.tickets ==>
        (ticket in p.tickets && q.tickets[ticket].request == p.tickets[ticket].request) ||
        (c.DoLook? && LooksUp(c, c.processId, ticket, q.tickets[ticket].request))
  {
    hide BaseKey, Normalize, Exact, Grants, ReadSnapshot, Confirmed, IsTime, NotificationOk, Keep, Look, Confirm;
    LookTickets(h, p, c, ticket);
    ConfirmTickets(h, p, c, ticket);
  }

  lemma LookTickets(h: Hash, p: Process, c: Command, ticket: nat)
    ensures c.DoLook? ==>
      var q := Look(h, p, c.ticket, c.input, c.clock).0;
      ticket in q.tickets ==>
        (ticket in p.tickets && q.tickets[ticket].request == p.tickets[ticket].request) || LooksUp(c, c.processId, ticket, q.tickets[ticket].request)
  {
    hide BaseKey, Normalize, IsTime, Usable;
  }

  lemma ConfirmTickets(h: Hash, p: Process, c: Command, ticket: nat)
    ensures c.DoConfirm? ==>
      var q := Confirm(h, p, c.ticket, c.artifact, c.clock).0;
      ticket in q.tickets ==> ticket in p.tickets && q.tickets[ticket] == p.tickets[ticket]
  {
    hide BaseKey, Exact, Grants, IsTime;
  }

  lemma {:induction false} TicketFromLook(h: Hash, commands: seq<Command>, worlds: seq<World>, i: nat, id: string, ticket: nat) returns (j: nat)
    requires IsRun(h, commands, worlds) && i < |worlds| && id in worlds[i].processes && ticket in worlds[i].processes[id].tickets
    ensures j < i && LooksUp(commands[j], id, ticket, worlds[i].processes[id].tickets[ticket].request)
  {
    hide LooksUp, ProcessStep, Create, Commit;
    var c, w := commands[i - 1], worlds[i - 1];
    assert worlds[i] == Step(h, w, c).0;
    if id in w.processes && ticket in w.processes[id].tickets && worlds[i].processes[id].tickets[ticket].request == w.processes[id].tickets[ticket].request {
      j := TicketFromLook(h, commands, worlds, i - 1, id, ticket);
    } else {
      NewTicket(h, w, c, id, ticket);
      j := i - 1;
    }
  }

  lemma NewTicket(h: Hash, w: World, c: Command, id: string, ticket: nat)
    requires Enabled(w, c)
    ensures var v := Step(h, w, c).0;
      id in v.processes && ticket in v.processes[id].tickets &&
      !(id in w.processes && ticket in w.processes[id].tickets && v.processes[id].tickets[ticket].request == w.processes[id].tickets[ticket].request) ==>
        LooksUp(c, id, ticket, v.processes[id].tickets[ticket].request)
  {
    hide ProcessStep, Create, Commit, LooksUp;
    StoreKeepsProcesses(w, c);
    if !c.CreateProject? && !c.ChangeBindings? && !c.StartProcess? {
      TicketStep(h, w, w.processes[c.processId], c, ticket);
    }
  }

  lemma StoreKeepsProcesses(w: World, c: Command)
    ensures c.CreateProject? ==> Create(w, c.projectId, c.clock).processes == w.processes
    ensures c.ChangeBindings? ==> Commit(w, c.projectId, c.edits, c.clock).processes == w.processes
  {
    hide Change, Edited, IsIdentifier;
  }

  /** What a process answers, and to which request. */
  lemma AnswerIsOf(h: Hash, w: World, c: Command)
    requires Enabled(w, c) && Reply(h, w, c).Answered?
    ensures c.DoLook? || c.DoConfirm?
    ensures c.DoLook? ==> Normalize(c.input) == Some(Reply(h, w, c).request)
    ensures c.DoConfirm? ==> c.ticket in w.processes[c.processId].tickets && w.processes[c.processId].tickets[c.ticket].request == Reply(h, w, c).request
  {
    hide BaseKey, Normalize, Exact, Grants, ReadSnapshot, ObserveClock, Confirmed, Create, Commit, Observe, Usable;
  }

  /** Cached or fresh, the request answered asks what a caller asked: the one of this look-up, or the
      one whose look-up took the ticket that is confirmed. */
  lemma AnswersTheQuestion(h: Hash, commands: seq<Command>, worlds: seq<World>, i: nat, id: string, project: string) returns (j: nat)
    requires IsRun(h, commands, worlds) && i < |commands| && AnswersAt(h, commands, worlds, i, id, project)
    ensures j <= i && commands[j].DoLook? && commands[j].processId == id && SameQuestion(commands[j].input, Reply(h, worlds[i], commands[i]).request)
    ensures commands[i].DoLook? ==> j == i
    ensures !commands[i].DoLook? ==> commands[i].DoConfirm? && commands[j].ticket == commands[i].ticket
    ensures forall b :: Evaluate(b, commands[j].input) == Evaluate(b, Reply(h, worlds[i], commands[i]).request)
  {
    hide Normalize, SameQuestion, Evaluate, Step;
    var c, w := commands[i], worlds[i];
    AnswerIsOf(h, w, c);
    var r := Reply(h, w, c).request;
    if c.DoLook? {
      j := i;
    } else {
      j := TicketFromLook(h, commands, worlds, i, id, c.ticket);
    }
    NormalizeKeepsQuestion(commands[j].input);
    forall b
      ensures Evaluate(b, commands[j].input) == Evaluate(b, r)
    {
      SameQuestionSameAnswer(b, commands[j].input, r);
    }
  }

  /** The epochs a process answers from never go back, project by project. */
  lemma AnsweredEpochsAscend(h: Hash, commands: seq<Command>, worlds: seq<World>, i: nat, j: nat, id: string, project: string)
    requires NoCollision(h) && IsRun(h, commands, worlds) && i < j < |commands|
    requires AnswersAt(h, commands, worlds, i, id, project) && AnswersAt(h, commands, worlds, j, id, project)
    ensures Reply(h, worlds[i], commands[i]).epoch <= Reply(h, worlds[j], commands[j]).epoch
  {
    hide NoCollision, Step, Evaluate, Floor, HistoryGrew, Inv;
    AnswersAgree(h, commands, worlds, i, id, project);
    AnswersAgree(h, commands, worlds, j, id, project);
    NothingTakenBack(h, commands, worlds, i + 1, j + 1);
    assert ProcessGrew(worlds[i + 1].processes[id], worlds[j + 1].processes[id]);
  }

  /** Once notified of an epoch, a process never again answers from an older one. */
  lemma NotifiedNeverOlder(h: Hash, commands: seq<Command>, worlds: seq<World>, i: nat, j: nat, n: Notification, id: string)
    requires NoCollision(h) && IsRun(h, commands, worlds) && i < j < |commands|
    requires commands[i] == Deliver(id, n) && NotificationOk(n) && AnswersAt(h, commands, worlds, j, id, n.projectId)
    ensures n.epoch <= Reply(h, worlds[j], commands[j]).epoch
  {
    hide NoCollision, Evaluate, Floor, HistoryGrew, ProcessOk, Observe, LineOk;
    AnswersAgree(h, commands, worlds, j, id, n.projectId);
    NothingTakenBack(h, commands, worlds, i + 1, j + 1);
    StartsOk(h);
    EveryWorldOk(h, commands, worlds, i);
    ObserveGood(h, worlds[i].held, worlds[i].processes[id], n);
    assert worlds[i + 1].processes[id] == Observe(worlds[i].processes[id], n) by { DeliverIs(h, worlds[i], id, n); }
    assert ProcessGrew(worlds[i + 1].processes[id], worlds[j + 1].processes[id]);
    hide IsRun, Step, IsPath;
  }

  lemma DeliverIs(h: Hash, w: World, id: string, n: Notification)
    requires id in w.processes
    ensures Enabled(w, Deliver(id, n)) && Step(h, w, Deliver(id, n)).0 == w.(processes := w.processes[id := Observe(w.processes[id], n)])
  {
    hide Observe;
  }

  /** Once its clock was judged unsafe a process never answers again: every decision is a DENY. */
  lemma UnsafeAlwaysDenies(h: Hash, commands: seq<Command>, worlds: seq<World>, i: nat, j: nat, id: string, project: string)
    requires NoCollision(h) && IsRun(h, commands, worlds) && i <= j < |commands|
    requires id in worlds[i].processes && worlds[i].processes[id].unsafe
    ensures !AnswersAt(h, commands, worlds, j, id, project)
  {
    hide NoCollision, Step, Evaluate, Floor, HistoryGrew, Inv;
    if AnswersAt(h, commands, worlds, j, id, project) {
      AnswersAgree(h, commands, worlds, j, id, project);
      NothingTakenBack(h, commands, worlds, i, j + 1);
    }
  }
}
