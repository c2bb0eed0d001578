/** What a request must look like, when a change of the bindings is refused and what it makes of them, and
    how a whole decision comes out, from the request to the cache. */
module PolicyMeaning {
  import opened Texts
  import opened TextMeaning
  import opened DurableWork
  import opened DurableMeaning
  import opened PolicyRequests
  import opened PolicyEpoch
  import opened PolicyInvariants
  import opened PolicyModel

  // ---------------------------------------------------------------- requests

  /** 1 to 256 UTF-16 code units, nothing to trim and no control character. */
  predicate IsName(s: string)
  {
    1 <= |Units(s)| <= 256 && Trim(s) == s && forall i :: 0 <= i < |s| ==> 32 <= s[i] as int && s[i] as int != 127
  }

  lemma {:induction false} UnitsCounted(s: string)
    ensures CodeUnits(s) == |Units(s)| && (s != "" <==> |Units(s)| >= 1)
  {
    if s != "" { UnitsCounted(s[1..]); }
  }

  lemma {:induction false} TrimShortens(s: string)
    ensures |Trim(s)| <= |s|
    decreases |s|
  {
    if s != "" && s[0] as int in WhiteSpace {
      TrimShortens(s[1..]);
    } else if s != "" && s[|s| - 1] as int in WhiteSpace {
      TrimShortens(s[..|s| - 1]);
    }
  }

  lemma NameMeans(s: string)
    ensures IsIdentifier(s) <==> IsName(s)
  {
    UnitsCounted(s);
    hide CodeUnits, Units, IsSpace;
    if s != "" {
      SpaceMeans(s[0]);
      SpaceMeans(s[|s| - 1]);
      if s[0] as int in WhiteSpace { TrimShortens(s[1..]); } else if s[|s| - 1] as int in WhiteSpace { TrimShortens(s[..|s| - 1]); }
    }
  }

  /** At most `most` names, all different. */
  predicate AreNames(xs: seq<string>, most: nat)
  {
    |xs| <= most && (forall i :: 0 <= i < |xs| ==> IsName(xs[i])) && forall i, j :: 0 <= i < j < |xs| ==> xs[i] != xs[j]
  }

  predicate CanBeAsked(r: Request)
  {
    IsName(r.projectId) && IsName(r.subjectId) && r.identityType in {"human", "service"} && AreNames(r.groups, 128) && r.subjectId !in r.groups &&
    AreNames(r.delegation, 16) && IsName(r.resourceId) && IsName(r.permission) && IsName(r.releaseId) && IsName(r.policyRevision) &&
    IsName(r.compilerVersion) && IsName(r.correlationId)
  }

  lemma NamesMean(xs: seq<string>, most: nat)
    ensures IsIdentifierList(xs, most) <==> AreNames(xs, most)
  {
    hide IsIdentifier, IsName;
    forall i | 0 <= i < |xs|
      ensures IsIdentifier(xs[i]) <==> IsName(xs[i])
    {
      NameMeans(xs[i]);
    }
  }

  lemma RequestMeans(r: Request)
    ensures Normalize(r).Some? <==> CanBeAsked(r)
    ensures Normalize(r).Some? ==> Normalize(r).value == r.(groups := Sort(r.groups))
  {
    hide IsIdentifier, IsName, IsIdentifierList, AreNames, Sort;
    NameMeans(r.projectId);
    NameMeans(r.subjectId);
    NamesMean(r.groups, 128);
    NamesMean(r.delegation, 16);
    NameMeans(r.resourceId);
    NameMeans(r.permission);
    NameMeans(r.releaseId);
    NameMeans(r.policyRevision);
    NameMeans(r.compilerVersion);
    NameMeans(r.correlationId);
  }

  // ---------------------------------------------------------------- changes

  predicate CanBeMade(e: Edit)
  {
    (e.Grant? || e.Revoke?) && IsName(e.b.principalId) && IsName(e.b.resourceId) && IsName(e.b.permission)
  }

  /** The last edit that names `b` grants it, or none does and it was bound before. */
  ghost predicate BoundAfter(bindings: set<Binding>, edits: seq<Edit>, b: Binding)
  {
    (b in bindings && forall i :: 0 <= i < |edits| ==> !Names(edits[i], b)) ||
    exists k :: 0 <= k < |edits| && GrantsLast(edits, k, b)
  }

  predicate Names(e: Edit, b: Binding)
  {
    (e.Grant? || e.Revoke?) && e.b == b
  }

  ghost predicate GrantsLast(edits: seq<Edit>, k: nat, b: Binding)
    requires k < |edits|
  {
    edits[k] == Grant(b) && forall i :: k < i < |edits| ==> !Names(edits[i], b)
  }

  lemma EditMeans(e: Edit)
    ensures EditOk(e) <==> CanBeMade(e)
  {
    hide IsIdentifier, IsName;
    if !e.Abort? {
      NameMeans(e.b.principalId);
      NameMeans(e.b.resourceId);
      NameMeans(e.b.permission);
    }
  }

  lemma {:induction false} LastEditWins(bindings: set<Binding>, edits: seq<Edit>, b: Binding)
    ensures b in Edited(bindings, edits) <==> BoundAfter(bindings, edits, b)
    decreases |edits|
  {
    if edits != [] {
      var rest := edits[1..];
      var next := match edits[0] case Grant(x) => bindings + {x} case Revoke(x) => bindings - {x} case Abort => bindings;
      LastEditWins(next, rest, b);
      assert edits == [edits[0]] + rest;
      FirstEdit(bindings, next, edits, b);
    }
  }

  lemma FirstEdit(bindings: set<Binding>, next: set<Binding>, edits: seq<Edit>, b: Binding)
    requires edits != [] && next == match edits[0] { case Grant(x) => bindings + {x} case Revoke(x) => bindings - {x} case Abort => bindings }
    ensures BoundAfter(bindings, edits, b) <==> BoundAfter(next, edits[1..], b)
  {
    var rest := edits[1..];
    assert forall i :: 0 <= i < |rest| ==> rest[i] == edits[i + 1];
    if k :| 0 <= k < |rest| && GrantsLast(rest, k, b) { assert GrantsLast(edits, k + 1, b); }
    if k :| 0 <= k < |edits| && GrantsLast(edits, k, b) {
      if k > 0 { assert GrantsLast(rest, k - 1, b); }
    }
    if b in next && (forall i :: 0 <= i < |rest| ==> !Names(rest[i], b)) {
      if edits[0] == Grant(b) { assert GrantsLast(edits, 0, b); }
    }
  }

  lemma {:induction false} DraftMeans(keys: set<string>, edits: seq<Edit>)
    ensures Draft(keys, edits).Some? <==> forall i :: 0 <= i < |edits| ==> CanBeMade(edits[i])
    decreases |edits|
  {
    hide IsIdentifier, CanBeMade, BindingKey;
    if edits != [] {
      EditMeans(edits[0]);
      assert edits == [edits[0]] + edits[1..];
      if EditOk(edits[0]) { DraftMeans(if edits[0].Grant? then keys + {BindingKey(edits[0].b)} else keys - {BindingKey(edits[0].b)}, edits[1..]); }
    }
  }

  /** A change is refused if an edit cannot be made, and, when it would change something, if the epochs are
      used up or the database clock does not give a safe time that has not gone back. */
  lemma ChangeMeans(p: Project, line: seq<set<Binding>>, edits: seq<Edit>, clock: Option<int>)
    requires LineOk(p, line)
    ensures var (q, reply) := Change(p, edits, clock); var next := Edited(line[|line| - 1], edits);
      if exists i :: 0 <= i < |edits| && !CanBeMade(edits[i]) then q == p && reply == CommitFailed
      else if next == line[|line| - 1] then q == p && reply == Committed(p.epoch, false, p.changedAt)
      else if p.epoch == 9223372036854775807 || clock.None? || !Safe(clock.value) || clock.value < p.changedAt then q == p && reply == CommitFailed
      else q == Project(p.epoch + 1, Keys(next), clock.value) && reply == Committed(p.epoch + 1, true, clock.value)
  {
    DraftMeans(p.bindings, edits);
    hide Keys, CanBeMade;
    DraftIsEdited(line[|line| - 1], edits);
    KeysEqual(line[|line| - 1], Edited(line[|line| - 1], edits));
    hide Draft, Edited;
  }

  // ---------------------------------------------------------------- decisions

  /** The epoch below which the process does not answer for the project. */
  function FloorOf(p: Process, projectId: string): int
  {
    if projectId in p.floors then p.floors[projectId] else 1
  }

  /** The reading is a safe time and not before the last one. */
  predicate ReadsOk(last: Option<int>, reading: Option<int>)
  {
    reading.Some? && Safe(reading.value) && (last.Some? ==> last.value <= reading.value)
  }

  /** A kept answer to the same question that has not run out and is not below the floor. */
  predicate IsKept(h: Hash, p: Process, r: Request, now: int)
  {
    BaseKey(h, r) in p.cache && now < p.cache[BaseKey(h, r)].expiresAt && FloorOf(p, r.projectId) <= p.cache[BaseKey(h, r)].epoch
  }

  predicate ExactlyFor(a: ArtifactRead, r: Request)
  {
    a.Artifact? && a.projectId == r.projectId && a.releaseId == r.releaseId && a.policyRevision == r.policyRevision &&
    a.compilerVersion == r.compilerVersion && |a.digest| > 0 && a.contract == "RESOURCE_PERMISSION_INTERSECTION_V1"
  }

  /** The store can be read for the project. */
  predicate CanRead(projects: map<string, Project>, projectId: string, failing: bool, databaseClock: Option<int>)
  {
    !failing && projectId in projects && databaseClock.Some? && Safe(databaseClock.value)
  }

  /** Why a decision without a kept answer fails closed before it is confirmed, if it does. */
  function Doubt(p: Process, projects: map<string, Project>, r: Request, failing: bool, databaseClock: Option<int>, artifact: ArtifactRead): Option<FailureCode>
  {
    if !CanRead(projects, r.projectId, failing, databaseClock) then Some(EpochUnavailable)
    else if projects[r.projectId].epoch < FloorOf(p, r.projectId) then Some(EpochUnconfirmed)
    else if artifact.Missing? then Some(ArtifactNotFound)
    else if !ExactlyFor(artifact, r) then Some(ArtifactUnavailable)
    else None
  }

  /** The process after a fresh answer: the floor is the epoch answered from, and the answer is kept for the TTL. */
  ghost predicate KeepsAnswer(h: Hash, p: Process, r: Request, epoch: int, allow: bool, now: int, q: Process)
  {
    FloorOf(q, r.projectId) == epoch && (forall x :: x != r.projectId ==> FloorOf(q, x) == FloorOf(p, x)) && q.last == Some(now) && !q.unsafe &&
    q.ttl == p.ttl && q.cache == p.cache[BaseKey(h, r) := Entry(r.projectId, epoch, allow, now, now + p.ttl)]
  }

  /** How an uninterrupted decision comes out. */
  ghost predicate Decides(h: Hash, w: World, p: Process, input: Request, clock: Option<int>, failing: bool, databaseClock: Option<int>,
                          artifact: ArtifactRead, confirmClock: Option<int>, q: Process, o: Outcome)
  {
    var r := input.(groups := Sort(input.groups));
    if !CanBeAsked(input) then o == FailedClosed(InputInvalid) && q == p
    else if p.unsafe || !ReadsOk(p.last, clock) then o == FailedClosed(ClockUnsafe) && q.unsafe && q.cache == (if p.unsafe then p.cache else map[])
    else if IsKept(h, p, r, clock.value) then
      o == Answered(r, Cache, p.cache[BaseKey(h, r)].allow, p.cache[BaseKey(h, r)].epoch, clock.value) && q == p.(last := clock)
    else DecidesAfresh(h, w, p, r, clock.value, failing, databaseClock, artifact, confirmClock, q, o)
  }

  /** How it goes on without a kept answer. */
  ghost predicate DecidesAfresh(h: Hash, w: World, p: Process, r: Request, now: int, failing: bool, databaseClock: Option<int>,
                                artifact: ArtifactRead, confirmClock: Option<int>, q: Process, o: Outcome)
  {
    var doubt := Doubt(p, w.projects, r, failing, databaseClock, artifact);
    if doubt.Some? then o == FailedClosed(doubt.value) && q.cache == p.cache - {BaseKey(h, r)} && q.floors == p.floors
    else if !ReadsOk(Some(now), confirmClock) || !Safe(confirmClock.value + p.ttl) then o == FailedClosed(ClockUnsafe) && q.unsafe && q.cache == map[]
    else
      r.projectId in w.projects && r.projectId in w.held && w.held[r.projectId] != [] &&
      var epoch, line := w.projects[r.projectId].epoch, w.held[r.projectId];
      var allow := Evaluate(line[|line| - 1], r);
      o == Answered(r, Fresh, allow, epoch, now) && KeepsAnswer(h, p, r, epoch, allow, confirmClock.value, q)
  }

  lemma LookMeans(h: Hash, p: Process, input: Request, clock: Option<int>)
    requires p.tickets == map[]
    ensures var r := input.(groups := Sort(input.groups));
      Look(h, p, 0, input, clock) ==
      if !CanBeAsked(input) then (p, FailedClosed(InputInvalid))
      else if p.unsafe then (p, FailedClosed(ClockUnsafe))
      else if !ReadsOk(p.last, clock) then (p.(unsafe := true, cache := map[]), FailedClosed(ClockUnsafe))
      else if IsKept(h, p, r, clock.value) then
        (p.(last := clock), Answered(r, Cache, p.cache[BaseKey(h, r)].allow, p.cache[BaseKey(h, r)].epoch, clock.value))
      else (LookedUp(h, p, r, clock.value), Silent)
  {
    RequestMeans(input);
    hide Normalize, CanBeAsked, BaseKey, Sort;
  }

  /** A snapshot the store could give is the request's own and confirmed. */
  lemma ReadMeans(w: World, r: Request, failing: bool, clock: Option<int>)
    requires StoreOk(w)
    ensures ReadSnapshot(w.projects, r, failing, clock).Some? <==> CanRead(w.projects, r.projectId, failing, clock)
    ensures var s := ReadSnapshot(w.projects, r, failing, clock);
      s.Some? ==>
        Confirmed(s.value, r) && 1 <= s.value.epoch == w.projects[r.projectId].epoch && r.projectId in w.held && |w.held[r.projectId]| == s.value.epoch &&
        (Grants(s.value) <==> Evaluate(w.held[r.projectId][|w.held[r.projectId]| - 1], r))
  {
    SnapshotAgrees(w, r, failing, clock);
    if r.projectId in w.projects { assert LineOk(w.projects[r.projectId], w.held[r.projectId]); }
    hide StoreOk, Evaluate, HasBinding, Grants, Keys;
  }

  /** The process between the look-up and the store. */
  function LookedUp(h: Hash, p: Process, r: Request, now: int): Process
  {
    p.(last := Some(now), cache := p.cache - {BaseKey(h, r)}, tickets := map[0 := Looked(r, FloorOf(p, r.projectId), now)])
  }

  /** What one ticket brings when the store has answered. */
  lemma ReceiveMeans(u: Process, t: Ticket, s: Option<Snapshot>)
    requires u.tickets == map[0 := t] && t.Looked?
    ensures Receive(u, 0, s) ==
      if s.None? || !Confirmed(s.value, t.request) then (u.(tickets := map[]), FailedClosed(EpochUnavailable))
      else if s.value.epoch < t.floor then (u.(tickets := map[]), FailedClosed(EpochUnconfirmed))
      else (u.(tickets := map[0 := Read(t.request, t.lookupAt, s.value)]), Silent)
  {
    hide Confirmed;
    assert u.tickets - {0} == map[] && u.tickets[0] == t;
    if s.Some? { assert u.tickets[0 := Read(t.request, t.lookupAt, s.value)] == map[0 := Read(t.request, t.lookupAt, s.value)]; }
  }

  /** The store's answer and the confirmation, one after the other. */
  function Rest(h: Hash, u: Process, s: Option<Snapshot>, artifact: ArtifactRead, clock: Option<int>): (Process, Outcome)
  {
    var received := Receive(u, 0, s);
    if !received.1.Silent? then received else Confirm(h, received.0, 0, artifact, clock)
  }

  /** How a confirmed snapshot that is not below the floor decides. */
  ghost predicate SnapshotDecides(h: Hash, p: Process, r: Request, now: int, s: Snapshot, artifact: ArtifactRead, clock: Option<int>, q: Process, o: Outcome)
  {
    if artifact.Missing? then o == FailedClosed(ArtifactNotFound) && q.cache == p.cache - {BaseKey(h, r)} && q.floors == p.floors
    else if !ExactlyFor(artifact, r) then o == FailedClosed(ArtifactUnavailable) && q.cache == p.cache - {BaseKey(h, r)} && q.floors == p.floors
    else if !ReadsOk(Some(now), clock) || !Safe(clock.value + p.ttl) then o == FailedClosed(ClockUnsafe) && q.unsafe && q.cache == map[]
    else o == Answered(r, Fresh, Grants(s), s.epoch, now) && KeepsAnswer(h, p, r, s.epoch, Grants(s), clock.value, q)
  }

  lemma SnapshotMeans(h: Hash, p: Process, v: Process, r: Request, now: int, s: Snapshot, artifact: ArtifactRead, clock: Option<int>)
    requires !p.unsafe && 0 < p.ttl && FloorOf(p, r.projectId) <= s.epoch
    requires v.tickets == map[0 := Read(r, now, s)] && v.cache == p.cache - {BaseKey(h, r)} && v.floors == p.floors && v.ttl == p.ttl && !v.unsafe && v.last == Some(now)
    ensures var (q, o) := Confirm(h, v, 0, artifact, clock); SnapshotDecides(h, p, r, now, s, artifact, clock, q, o)
  {
    hide BaseKey, Grants;
    if clock.Some? { KeptAlike(p.cache, BaseKey(h, r), Entry(r.projectId, s.epoch, Grants(s), clock.value, clock.value + p.ttl)); }
  }

  lemma RestIs(h: Hash, u: Process, t: Ticket, s: Option<Snapshot>, artifact: ArtifactRead, clock: Option<int>)
    requires u.tickets == map[0 := t] && t.Looked?
    ensures Rest(h, u, s, artifact, clock) ==
      if s.None? || !Confirmed(s.value, t.request) then (u.(tickets := map[]), FailedClosed(EpochUnavailable))
      else if s.value.epoch < t.floor then (u.(tickets := map[]), FailedClosed(EpochUnconfirmed))
      else Confirm(h, u.(tickets := map[0 := Read(t.request, t.lookupAt, s.value)]), 0, artifact, clock)
  {
    ReceiveMeans(u, t, s);
    hide Confirmed, Receive, Confirm;
  }

  lemma ConfirmedMeans(h: Hash, p: Process, v: Process, r: Request, now: int, s: Snapshot, artifact: ArtifactRead, clock: Option<int>)
    requires !p.unsafe && 0 < p.ttl && FloorOf(p, r.projectId) <= s.epoch && v == LookedUp(h, p, r, now).(tickets := map[0 := Read(r, now, s)])
    ensures SnapshotDecides(h, p, r, now, s, artifact, clock, Confirm(h, v, 0, artifact, clock).0, Confirm(h, v, 0, artifact, clock).1)
  {
    hide BaseKey, Confirm, SnapshotDecides;
    SnapshotMeans(h, p, v, r, now, s, artifact, clock);
  }

  lemma AfreshMeans(h: Hash, w: World, p: Process, u: Process, r: Request, now: int, failing: bool, databaseClock: Option<int>,
                    artifact: ArtifactRead, clock: Option<int>)
    requires StoreOk(w) && !p.unsafe && 0 < p.ttl && u == LookedUp(h, p, r, now)
    ensures var q := Rest(h, u, ReadSnapshot(w.projects, r, failing, databaseClock), artifact, clock);
      DecidesAfresh(h, w, p, r, now, failing, databaseClock, artifact, clock, q.0, q.1)
  {
    var s := ReadSnapshot(w.projects, r, failing, databaseClock);
    hide StoreOk, ReadSnapshot, BaseKey, Confirmed, Grants, Evaluate, ExactlyFor, KeepsAnswer, Rest, CanRead, Confirm;
    ReadMeans(w, r, failing, databaseClock);
    ReadIsThere(w.projects, r.projectId, failing, databaseClock);
    RestIs(h, u, Looked(r, FloorOf(p, r.projectId), now), s, artifact, clock);
    if s.Some? && FloorOf(p, r.projectId) <= s.value.epoch {
      ConfirmedMeans(h, p, u.(tickets := map[0 := Read(r, now, s.value)]), r, now, s.value, artifact, clock);
    }
  }

  lemma ReadIsThere(projects: map<string, Project>, projectId: string, failing: bool, clock: Option<int>)
    ensures CanRead(projects, projectId, failing, clock) ==> projectId in projects
  {
  }

  lemma KeptAlike(cache: map<string, Entry>, key: string, e: Entry)
    ensures (cache - {key})[key := e] == cache[key := e]
  {
  }

  /** A decision is answered from the cache, from the bindings of the current epoch, or fails closed, each
      exactly under these conditions. */
  lemma DecisionMeans(h: Hash, w: World, p: Process, input: Request, clock: Option<int>, failing: bool, databaseClock: Option<int>,
                      artifact: ArtifactRead, confirmClock: Option<int>)
    requires StoreOk(w) && ProcessOk(h, w.held, p) && p.tickets == map[]
    ensures var q := Decision(h, p, w.projects, input, clock, failing, databaseClock, artifact, confirmClock);
      Decides(h, w, p, input, clock, failing, databaseClock, artifact, confirmClock, q.0, q.1)
  {
    hide StoreOk, ProcessOk, BaseKey, CanBeAsked, ReadSnapshot, Decision, DecidesAfresh, FloorOf, Rest, LookedUp, Look, IsKept, Sort;
    TtlPositive(h, w.held, p);
    LookMeans(h, p, input, clock);
    DecisionIs(h, p, w.projects, input, clock, failing, databaseClock, artifact, confirmClock);
    if Look(h, p, 0, input, clock).1.Silent? {
      var r := input.(groups := Sort(input.groups));
      AfterLook(h, w, p, LookedUp(h, p, r, clock.value), r, clock.value, failing, databaseClock, artifact, confirmClock);
    }
  }

  lemma TtlPositive(h: Hash, held: History, p: Process)
    requires ProcessOk(h, held, p)
    ensures 0 < p.ttl
  {
    hide CacheOk, TicketOk;
  }

  lemma DecisionIs(h: Hash, p: Process, projects: map<string, Project>, input: Request, clock: Option<int>, failing: bool, databaseClock: Option<int>,
                   artifact: ArtifactRead, confirmClock: Option<int>)
    ensures var looked := Look(h, p, 0, input, clock);
      Decision(h, p, projects, input, clock, failing, databaseClock, artifact, confirmClock) ==
      if !looked.1.Silent? || 0 !in looked.0.tickets then looked
      else Rest(h, looked.0, ReadSnapshot(projects, looked.0.tickets[0].request, failing, databaseClock), artifact, confirmClock)
  {
    hide Look, ReadSnapshot, Receive, Confirm;
  }

  lemma AfterLook(h: Hash, w: World, p: Process, u: Process, r: Request, now: int, failing: bool, databaseClock: Option<int>,
                  artifact: ArtifactRead, clock: Option<int>)
    requires StoreOk(w) && !p.unsafe && 0 < p.ttl && u == LookedUp(h, p, r, now)
    ensures 0 in u.tickets && u.tickets[0].request == r
    ensures var q := Rest(h, u, ReadSnapshot(w.projects, u.tickets[0].request, failing, databaseClock), artifact, clock);
      DecidesAfresh(h, w, p, r, now, failing, databaseClock, artifact, clock, q.0, q.1)
  {
    hide StoreOk, ReadSnapshot, BaseKey, DecidesAfresh, Rest;
    AfreshMeans(h, w, p, u, r, now, failing, databaseClock, artifact, clock);
  }

  /** Which snapshots a process takes for confirmed: of its project, of an epoch there is, read at a safe time,
      with a flag for each delegate. */
  lemma SnapshotTaken(s: Snapshot, r: Request)
    ensures Confirmed(s, r) <==>
      s.projectId == r.projectId && 1 <= s.epoch <= 9223372036854775807 && Safe(s.observedAt) && |s.delegationAllowed| == |r.delegation|
  {
  }

  // ---------------------------------------------------------------- notifications

  /** A well-formed notification of a later epoch raises the floor of its project to that epoch and drops the
      answers kept for it; any other does nothing. */
  lemma NotificationMeans(p: Process, n: Notification)
    ensures var q := Observe(p, n);
      if n.version == 1 && |n.projectId| > 0 && 1 <= n.epoch <= 9223372036854775807 && FloorOf(p, n.projectId) < n.epoch then
        q == p.(floors := p.floors[n.projectId := n.epoch], cache := q.cache) &&
        forall k :: (k in q.cache <==> k in p.cache && p.cache[k].projectId != n.projectId) && (k in q.cache ==> q.cache[k] == p.cache[k])
      else q == p
  {
  }
}
