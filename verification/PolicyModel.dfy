/** The store, the draft and the decision process as the program has them: objects that update their
    fields. Each method is proved to do what the step system does. */
module PolicyModel {
  import opened Texts
  import opened DurableWork
  import opened PolicyRequests
  import opened PolicyEpoch

  /** `setEquals`: equal sizes, and every element of the left one in the right one. */
  method SetEquals(left: set<string>, right: set<string>) returns (same: bool)
    ensures same <==> left == right
  {
    if |left| != |right| { return false; }
    var rest := left;
    while rest != {}
      invariant rest <= left && left - rest <= right
      decreases |rest|
    {
      var value :| value in rest;
      if value !in right { return false; }
      rest := rest - {value};
    }
    SubsetOfSameSize(left, right);
    return true;
  }

  lemma {:induction false} SubsetOfSameSize(left: set<string>, right: set<string>)
    requires left <= right && |left| == |right|
    ensures left == right
  {
    assert right == left + (right - left);
    assert |right - left| == 0;
  }

  class AuthorizationDraft {
    var bindings: set<string>
    var active: bool

    constructor (keys: set<string>)
      ensures bindings == keys && active
    {
      bindings, active := keys, true;
    }

    /** `grant` and `revoke`; they throw on a closed draft and on a malformed binding. */
    method Apply(edit: Edit) returns (thrown: bool)
      modifies this
      ensures active == old(active) && (thrown <==> !active || !EditOk(edit))
      ensures bindings == if thrown then old(bindings)
                          else if edit.Grant? then old(bindings) + {BindingKey(edit.b)}
                          else old(bindings) - {BindingKey(edit.b)}
    {
      if !active || !EditOk(edit) { return true; }
      if edit.Grant? {
        bindings := bindings + {BindingKey(edit.b)};
      } else {
        bindings := bindings - {BindingKey(edit.b)};
      }
      thrown := false;
    }

    method Close() returns (keys: Option<set<string>>)
      modifies this
      ensures keys == if old(active) then Some(old(bindings)) else None
      ensures !active && bindings == old(bindings)
    {
      keys := if active then Some(bindings) else None;
      active := false;
    }
  }

  class AuthorizationStore {
    var projects: map<string, Project>

    constructor ()
      ensures projects == map[]
    {
      projects := map[];
    }

    method CreateProject(projectId: string, clock: Option<int>) returns (thrown: bool)
      modifies this
      ensures forall w: World :: w.projects == old(projects) ==> Create(w, projectId, clock).projects == projects
      ensures thrown <==> projects == old(projects)
    {
      if !IsIdentifier(projectId) || projectId in projects || clock.None? || !IsTime(clock.value) { return true; }
      projects := projects[projectId := Project(1, {}, clock.value)];
      thrown := false;
    }

    /** The callback's edits, one by one, and the closing of the draft. */
    method RunEdits(current: Project, edits: seq<Edit>) returns (next: Option<set<string>>)
      ensures next == Draft(current.bindings, edits)
    {
      var draft := new AuthorizationDraft(current.bindings);
      var i := 0;
      while i < |edits|
        invariant 0 <= i <= |edits| && draft.active && fresh(draft)
        invariant Draft(current.bindings, edits) == Draft(draft.bindings, edits[i..])
      {
        DraftStep(draft.bindings, edits, i);
        var thrown := draft.Apply(edits[i]);
        if thrown { return None; }
        i := i + 1;
      }
      assert edits[i..] == [];
      next := draft.Close();
    }

    method TransactAuthorizationChange(projectId: string, edits: seq<Edit>, clock: Option<int>) returns (reply: CommitReply)
      modifies this
      ensures forall w: World :: w.projects == old(projects) ==> Commit(w, projectId, edits, clock).projects == projects
      ensures reply == if IsIdentifier(projectId) && projectId in old(projects)
                       then Change(old(projects)[projectId], edits, clock).1 else CommitFailed
    {
      if !IsIdentifier(projectId) || projectId !in projects { return CommitFailed; }
      var current := projects[projectId];
      assert projects == projects[projectId := current];
      var next := RunEdits(current, edits);
      hide Draft, IsIdentifier;
      if next.None? { return CommitFailed; }
      var same := SetEquals(current.bindings, next.value);
      if same { return Committed(current.epoch, false, current.changedAt); }
      if current.epoch >= MAX_EPOCH { return CommitFailed; }
      if clock.None? || !IsTime(clock.value) || clock.value < current.changedAt { return CommitFailed; }
      projects := projects[projectId := Project(current.epoch + 1, next.value, clock.value)];
      reply := Committed(current.epoch + 1, true, clock.value);
    }

    method ReadAuthorizationSnapshot(r: Request, failing: bool, clock: Option<int>) returns (snapshot: Option<Snapshot>)
      ensures snapshot == ReadSnapshot(projects, r, failing, clock)
    {
      if failing || r.projectId !in projects || clock.None? || !IsTime(clock.value) { return None; }
      var state := projects[r.projectId];
      var principals := [r.subjectId] + r.groups;
      var actorAllowed := false;
      var flags := Allowed(state.bindings, r, principals);
      for i := 0 to |principals|
        invariant actorAllowed <==> true in flags[..i]
      {
        assert flags[..i + 1] == flags[..i] + [flags[i]];
        if HasBinding(state.bindings, r, principals[i]) { actorAllowed := true; }
      }
      assert flags[..|principals|] == flags;
      snapshot := Some(Snapshot(r.projectId, state.epoch, clock.value, actorAllowed, Allowed(state.bindings, r, r.delegation)));
    }
  }

  lemma DraftStep(keys: set<string>, edits: seq<Edit>, i: nat)
    requires i < |edits|
    ensures Draft(keys, edits[i..]) ==
      if !EditOk(edits[i]) then None
      else Draft(if edits[i].Grant? then keys + {BindingKey(edits[i].b)} else keys - {BindingKey(edits[i].b)}, edits[i + 1..])
  {
    hide EditOk, BindingKey;
    assert edits[i..][0] == edits[i] && edits[i..][1..] == edits[i + 1..];
  }

  // ---------------------------------------------------------------- the decision process

  /** A decision that nothing interrupts: look up, read the store, confirm. */
  function Decision(h: Hash, p: Process, projects: map<string, Project>, input: Request, clock: Option<int>,
                    failing: bool, databaseClock: Option<int>, artifact: ArtifactRead, confirmClock: Option<int>): (Process, Outcome)
  {
    var looked := Look(h, p, 0, input, clock);
    if !looked.1.Silent? || 0 !in looked.0.tickets then looked
    else
      var received := Receive(looked.0, 0, ReadSnapshot(projects, looked.0.tickets[0].request, failing, databaseClock));
      if !received.1.Silent? then received else Confirm(h, received.0, 0, artifact, confirmClock)
  }

  /** The loop of `observeNotification` over the cache. */
  method WithoutProject(cache: map<string, Entry>, projectId: string) returns (left: map<string, Entry>)
    ensures left == map k | k in cache && cache[k].projectId != projectId :: cache[k]
  {
    left := cache;
    var rest := cache.Keys;
    while rest != {}
      invariant rest <= left.Keys <= cache.Keys
      invariant forall k :: k in cache ==> (k in left <==> k in rest || cache[k].projectId != projectId)
      invariant forall k :: k in left ==> left[k] == cache[k]
      decreases |rest|
    {
      var key :| key in rest;
      if left[key].projectId == projectId { left := left - {key}; }
      rest := rest - {key};
    }
  }

  class PolicyDecisionProcess {
    const ttl: int
    var cache: map<string, Entry>
    var floors: map<string, int>
    var last: Option<int>
    var unsafe: bool

    ghost function View(): Process
      reads this
    {
      Process(ttl, cache, floors, last, unsafe, map[])
    }

    constructor (cacheTtlMs: int)
      requires 0 < cacheTtlMs <= MAX_TTL
      ensures View() == Process(cacheTtlMs, map[], map[], None, false, map[])
    {
      ttl, cache, floors, last, unsafe := cacheTtlMs, map[], map[], None, false;
    }

    method MarkClockUnsafe()
      modifies this
      ensures View() == MarkUnsafe(old(View()))
    {
      unsafe := true;
      cache := map[];
    }

    method ObserveMonotonicClock(reading: Option<int>) returns (now: Option<int>)
      modifies this
      ensures (View(), now) == ObserveClock(old(View()), reading)
    {
      if unsafe { return None; }
      if reading.None? || !IsTime(reading.value) || (last.Some? && reading.value < last.value) {
        MarkClockUnsafe();
        return None;
      }
      last := reading;
      now := reading;
    }

    method ObserveNotification(n: Notification)
      modifies this
      ensures View() == Observe(old(View()), n)
    {
      if !NotificationOk(n) { return; }
      var current := if n.projectId in floors then floors[n.projectId] else 1;
      if n.epoch <= current { return; }
      floors := floors[n.projectId := n.epoch];
      cache := WithoutProject(cache, n.projectId);
    }

    method RaiseEpochFloor(projectId: string, epoch: int)
      modifies this`floors
      ensures floors == if epoch > Floor(old(View()), projectId) then old(floors)[projectId := epoch] else old(floors)
    {
      var current := if projectId in floors then floors[projectId] else 1;
      if epoch > current { floors := floors[projectId := epoch]; }
    }

    /** `decide` up to the store. */
    method LookUp(h: Hash, input: Request, clock: Option<int>) returns (o: Outcome, looked: Ticket)
      modifies this
      ensures var (p, reply) := Look(h, old(View()), 0, input, clock);
        o == reply && View() == p.(tickets := map[]) && looked.Looked? && (o.Silent? ==> p == View().(tickets := map[0 := looked]))
    {
      hide BaseKey;
      looked := Looked(input, 1, 0);
      var request := Normalize(input);
      hide Normalize;
      if request.None? { return FailedClosed(InputInvalid), looked; }
      var r := request.value;
      var lookupAt := ObserveMonotonicClock(clock);
      if lookupAt.None? { return FailedClosed(ClockUnsafe), looked; }
      var key := BaseKey(h, r);
      var floor := if r.projectId in floors then floors[r.projectId] else 1;
      if key in cache && lookupAt.value < cache[key].expiresAt && cache[key].epoch >= floor {
        return Answered(r, Cache, cache[key].allow, cache[key].epoch, lookupAt.value), looked;
      }
      cache := cache - {key};
      return Silent, Looked(r, floor, lookupAt.value);
    }

    /** `decide`, with nothing in between. */
    method Decide(h: Hash, store: AuthorizationStore, input: Request, clock: Option<int>, failing: bool,
                  databaseClock: Option<int>, artifact: ArtifactRead, confirmClock: Option<int>) returns (o: Outcome)
      modifies this
      ensures var (p, reply) := Decision(h, old(View()), store.projects, input, clock, failing, databaseClock, artifact, confirmClock);
        o == reply && View() == p.(tickets := map[])
    {
      hide Look, ReadSnapshot, Confirm, Confirmed;
      var looked;
      o, looked := LookUp(h, input, clock);
      if !o.Silent? { return; }
      var snapshot := store.ReadAuthorizationSnapshot(looked.request, failing, databaseClock);
      if snapshot.None? || !Confirmed(snapshot.value, looked.request) { return FailedClosed(EpochUnavailable); }
      if snapshot.value.epoch < looked.floor { return FailedClosed(EpochUnconfirmed); }
      ghost var t := Read(looked.request, looked.lookupAt, snapshot.value);
      assert map[0 := looked][0 := t] == map[0 := t];
      o := ConfirmDecision(h, looked.request, looked.lookupAt, snapshot.value, artifact, confirmClock);
    }

    method ConfirmDecision(h: Hash, r: Request, lookupAt: int, s: Snapshot, artifact: ArtifactRead, clock: Option<int>) returns (o: Outcome)
      modifies this
      ensures var (p, reply) := Confirm(h, old(View()).(tickets := map[0 := Read(r, lookupAt, s)]), 0, artifact, clock);
        o == reply && View() == p && p.tickets == map[]
    {
      hide BaseKey, Grants, Exact, ObserveClock, IsTime, MarkUnsafe, Keep;
      ghost var t := map[0 := Read(r, lookupAt, s)];
      assert t - {0} == map[] && t[0] == Read(r, lookupAt, s);
      assert Drop(View().(tickets := t), 0) == View();
      if artifact.Missing? { return FailedClosed(ArtifactNotFound); }
      if !Exact(artifact, r) { return FailedClosed(ArtifactUnavailable); }
      var finalFloor := if r.projectId in floors then floors[r.projectId] else 1;
      if s.epoch < finalFloor { return FailedClosed(EpochUnconfirmed); }
      o := StoreDecision(h, r, lookupAt, s, clock);
    }

    /** The confirming clock reading, the floor and the cache. */
    method StoreDecision(h: Hash, r: Request, lookupAt: int, s: Snapshot, clock: Option<int>) returns (o: Outcome)
      modifies this
      ensures var (q, now) := ObserveClock(old(View()), clock);
        if now.None? then View() == q && o == FailedClosed(ClockUnsafe)
        else if !IsTime(now.value + q.ttl) then View() == MarkUnsafe(q) && o == FailedClosed(ClockUnsafe)
        else View() == Keep(h, q, r, s, now.value) && o == Answered(r, Fresh, Grants(s), s.epoch, lookupAt)
    {
      hide BaseKey, Grants, ObserveClock, IsTime;
      var confirmedAt := ObserveMonotonicClock(clock);
      if confirmedAt.None? { return FailedClosed(ClockUnsafe); }
      var expiresAt := confirmedAt.value + ttl;
      if !IsTime(expiresAt) {
        MarkClockUnsafe();
        return FailedClosed(ClockUnsafe);
      }
      RaiseEpochFloor(r.projectId, s.epoch);
      cache := cache[BaseKey(h, r) := Entry(r.projectId, s.epoch, Grants(s), confirmedAt.value, expiresAt)];
      o := Answered(r, Fresh, Grants(s), s.epoch, lookupAt);
    }
  }
}
