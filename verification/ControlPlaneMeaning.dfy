/** What a publish comes to, record by record: with which code it is refused, what an accepted one changes,
    and how the counters add up over any sequence of publishes. */
module ControlPlaneMeaning {
  import opened Texts
  import opened ControlPlane

  // ---------------------------------------------------------------- what is asked

  function KeyOf(input: PublishInput): string
  {
    input.projectId + ":" + input.channel
  }

  /** Release, channel and Serving Head already say what the publish would make them say, and so do the
      package change, if one is named, and its installation. */
  predicate IsDone(s: State, input: PublishInput)
  {
    input.releaseId in s.releases && s.releases[input.releaseId].state == Published &&
    KeyOf(input) in s.channels && s.channels[KeyOf(input)].releaseId == input.releaseId && s.channels[KeyOf(input)].activationId == input.activationId &&
    input.releaseId in s.servingHeads && s.servingHeads[input.releaseId].activationId == input.activationId &&
    (input.packageChangeId.Some? ==>
       input.packageChangeId.value in s.changes &&
       var c := s.changes[input.packageChangeId.value];
       c.state == Active && c.installationId in s.installations &&
       s.installations[c.installationId].activeRevision == Some(c.targetRevision) && s.installations[c.installationId].activeRelease == Some(c.targetRelease))
  }

  /** What is wrong with the package change named, if one is. */
  function ChangeTrouble(s: State, input: PublishInput): Option<ErrorCode>
  {
    if input.packageChangeId.None? then None
    else if input.packageChangeId.value !in s.changes then Some(NotFound)
    else
      var c := s.changes[input.packageChangeId.value];
      if c.installationId !in s.installations then Some(NotFound)
      else if s.installations[c.installationId].projectId != input.projectId || c.targetRelease != input.releaseId then Some(InvalidInput)
      else if c.state != Pending then Some(InvalidState)
      else None
  }

  /** The code a publish is refused with, its tests in order. */
  function Trouble(s: State, input: PublishInput): Option<ErrorCode>
  {
    if input.releaseId !in s.releases || input.activationId !in s.activations then Some(NotFound)
    else
      var release, activation := s.releases[input.releaseId], s.activations[input.activationId];
      if IsDone(s, input) then None
      else if s.controlRevision != input.expectedControlRevision then Some(ConcurrentModification)
      else if release.state != Ready then Some(InvalidState)
      else if release.projectId != input.projectId || activation.releaseId != input.releaseId || activation.manifestDigest != release.manifestDigest then
        Some(InvalidInput)
      else if |activation.memberIds| > 0 then Some(InvalidState)
      else if input.failurePoint in {Some(AfterRelease), Some(AfterServingHead), Some(AfterChannel)} then Some(TransactionAborted)
      else if ChangeTrouble(s, input).Some? then ChangeTrouble(s, input)
      else if input.failurePoint.Some? then Some(TransactionAborted)
      else None
  }

  // ---------------------------------------------------------------- what is changed

  /** The release published is PUBLISHED, the one its channel served before SUPERSEDED, all others as before. */
  predicate ReleasesMoved(s: State, input: PublishInput, t: State)
  {
    t.releases.Keys == s.releases.Keys &&
    forall id :: id in s.releases ==>
      t.releases[id] ==
      if id == input.releaseId then s.releases[id].(state := Published)
      else if KeyOf(input) in s.channels && s.channels[KeyOf(input)].releaseId == id then s.releases[id].(state := Superseded)
      else s.releases[id]
  }

  /** The package change named is the one ACTIVE change of its installation, which runs its target. */
  predicate ChangeActivated(s: State, id: string, t: State)
    requires id in s.changes && s.changes[id].installationId in s.installations
  {
    var c := s.changes[id];
    t.installations == s.installations[c.installationId :=
      s.installations[c.installationId].(activeRevision := Some(c.targetRevision), activeRelease := Some(c.targetRelease))] &&
    t.changes.Keys == s.changes.Keys &&
    forall k :: k in s.changes ==>
      t.changes[k] ==
      if k == id then c.(state := Active)
      else if s.changes[k].installationId == c.installationId && s.changes[k].state == Active then s.changes[k].(state := ChangeSuperseded)
      else s.changes[k]
  }

  /** The counters move by one, the pointers lead to the release, and nothing else changes. */
  predicate PublishedTo(s: State, input: PublishInput, t: State)
  {
    t.controlRevision == s.controlRevision + 1 &&
    t.epochs == s.epochs[input.projectId := (if input.projectId in s.epochs then s.epochs[input.projectId] else 0) + 1] &&
    t.activations == s.activations &&
    t.servingHeads == s.servingHeads[input.releaseId := ServingHead(input.releaseId, input.activationId)] &&
    t.channels == s.channels[KeyOf(input) := Channel(input.projectId, input.channel, input.releaseId, input.activationId)] &&
    ReleasesMoved(s, input, t) &&
    match input.packageChangeId
    case None => t.changes == s.changes && t.installations == s.installations
    case Some(id) => id in s.changes && s.changes[id].installationId in s.installations && ChangeActivated(s, id, t)
  }

  lemma PointersMean(s: State, input: PublishInput)
    requires Inv(s) && Guard(s, input).Ok?
    ensures var t := WithPointers(s, input);
      ReleasesMoved(s, input, t) && t.changes == s.changes && t.installations == s.installations && t.activations == s.activations &&
      t.controlRevision == s.controlRevision && t.epochs == s.epochs &&
      t.servingHeads == s.servingHeads[input.releaseId := ServingHead(input.releaseId, input.activationId)] &&
      t.channels == s.channels[KeyOf(input) := Channel(input.projectId, input.channel, input.releaseId, input.activationId)]
  {
    if KeyOf(input) in s.channels { assert ChannelOk(s, s.channels[KeyOf(input)]); }
  }

  lemma ActivateMeans(s: State, id: string, input: PublishInput, values: seq<PackageChange>)
    requires KeysAreIds(s) && ListsValues(values, s.changes) && input.packageChangeId == Some(id)
    ensures var r := ActivateChange(s, id, input, values);
      if ChangeTrouble(s, input).Some? then r == Err(ChangeTrouble(s, input).value)
      else
        r.Ok? && id in s.changes && s.changes[id].installationId in s.installations && ChangeActivated(s, id, r.value) &&
        r.value == s.(changes := r.value.changes, installations := r.value.installations)
  {
    hide SupersedeEach, ListsValues;
    if id in s.changes && s.changes[id].installationId in s.installations { SupersedesActive(s.changes, values, s.changes[id].installationId); }
  }

  /** The part behind the guards. */
  lemma GuardedMeans(s: State, input: PublishInput, values: seq<PackageChange>)
    requires Inv(s) && ListsValues(values, s.changes) && Guard(s, input).Ok? && !AlreadyApplied(s, input)
    ensures var r := PublishBody(s, input, values);
      if input.failurePoint in {Some(AfterRelease), Some(AfterServingHead), Some(AfterChannel)} then r == Err(TransactionAborted)
      else if ChangeTrouble(s, input).Some? then r == Err(ChangeTrouble(s, input).value)
      else if input.failurePoint.Some? then r == Err(TransactionAborted)
      else r.Ok? && PublishedTo(s, input, r.value)
  {
    hide Inv, AlreadyApplied, ListsValues;
    PointersMean(s, input);
    PointersKept(s, input);
    var pointed := WithPointers(s, input);
    hide WithPointers;
    SameTrouble(s, pointed, input);
    if input.packageChangeId.Some? { ActivateMeans(pointed, input.packageChangeId.value, input, values); }
    assert input.packageChangeId.None? ==> ChangeTrouble(s, input).None?;
    hide ActivateChange, ChangeTrouble, ReleasesMoved, ChangeActivated;
    var body := PublishBody(s, input, values);
    if input.failurePoint.Some? {
      var at := input.failurePoint.value;
      assert at.AfterRelease? || at.AfterServingHead? || at.AfterChannel? || at.AfterInstallations? || at.AfterEpoch?;
    }
    if body.Ok? {
      if input.packageChangeId.Some? {
        var installed := ActivateChange(pointed, input.packageChangeId.value, input, values).value;
        ActivatedAlike(s, pointed, input.packageChangeId.value, installed, body.value);
      }
      MovedAlike(s, input, pointed, body.value);
    }
  }

  lemma MovedAlike(s: State, input: PublishInput, t: State, u: State)
    requires ReleasesMoved(s, input, t) && u.releases == t.releases
    ensures ReleasesMoved(s, input, u)
  {
  }

  lemma ActivatedAlike(s: State, t: State, id: string, u: State, w: State)
    requires t.changes == s.changes && t.installations == s.installations && w.changes == u.changes && w.installations == u.installations
    requires id in t.changes && t.changes[id].installationId in t.installations && ChangeActivated(t, id, u)
    ensures ChangeActivated(s, id, w)
  {
  }

  lemma GuardTrouble(s: State, input: PublishInput)
    requires input.releaseId in s.releases && input.activationId in s.activations && !IsDone(s, input)
    ensures Guard(s, input).Err? ==> Trouble(s, input) == Some(Guard(s, input).code)
  {
    hide IsDone, ChangeTrouble;
  }

  /** A publish is refused with the first trouble there is; one that is done changes nothing; any other moves
      exactly these records. */
  lemma PublishMeans(s: State, input: PublishInput, values: seq<PackageChange>)
    requires Inv(s) && ListsValues(values, s.changes)
    ensures var r := Publish(s, input, values);
      if Trouble(s, input).Some? then r == Err(Trouble(s, input).value)
      else if IsDone(s, input) then r == Ok(s)
      else r.Ok? && PublishedTo(s, input, r.value)
  {
    PublishKeeps(s, input, values);
    assert IsDone(s, input) <==> AlreadyApplied(s, input);
    hide Inv, AlreadyApplied, IsDone, Publish, ListsValues, Coherent, PublishedTo, ChangeTrouble, WithPointers, ActivateChange;
    if input.releaseId in s.releases && input.activationId in s.activations && !IsDone(s, input) {
      GuardTrouble(s, input);
      if Guard(s, input).Ok? {
        GuardedMeans(s, input, values);
        hide PublishBody;
      }
    }
  }

  lemma PointersKept(s: State, input: PublishInput)
    requires Inv(s) && Guard(s, input).Ok?
    ensures KeysAreIds(WithPointers(s, input))
  {
    hide Coherent, Unshared;
    PointersKeep(s, input);
  }

  lemma SameTrouble(s: State, t: State, input: PublishInput)
    requires t.changes == s.changes && t.installations == s.installations
    ensures ChangeTrouble(s, input) == ChangeTrouble(t, input)
  {
  }

  // ---------------------------------------------------------------- the closing assertion

  /** A channel whose release is not published, or whose activation is of another release or not the one served. */
  predicate IsTorn(s: State, c: Channel)
  {
    c.releaseId !in s.releases || c.activationId !in s.activations || s.releases[c.releaseId].state != Published ||
    s.activations[c.activationId].releaseId != s.releases[c.releaseId].id || s.releases[c.releaseId].id !in s.servingHeads ||
    s.servingHeads[s.releases[c.releaseId].id].activationId != s.activations[c.activationId].id
  }

  predicate IsActiveFor(s: State, k: string, i: Installation)
  {
    k in s.changes && s.changes[k].installationId == i.id && s.changes[k].state == Active
  }

  /** An installation with a revision and no release, or whose release and revision are not those of its only
      ACTIVE change. */
  ghost predicate HasDiverged(s: State, i: Installation)
  {
    if i.activeRelease.None? then i.activeRevision.Some?
    else
      forall k :: IsActiveFor(s, k, i) && Some(s.changes[k].targetRelease) == i.activeRelease && Some(s.changes[k].targetRevision) == i.activeRevision ==>
        exists l :: l != k && IsActiveFor(s, l, i)
  }

  lemma DivergedMeans(s: State, i: Installation)
    ensures InstallationOk(s, i) <==> !HasDiverged(s, i)
  {
    if i.activeRelease.Some? {
      forall k
        ensures k in ActiveOf(s.changes, i.id) <==> IsActiveFor(s, k, i)
      {
      }
      hide ActiveOf, IsActiveFor;
      if InstallationOk(s, i) {
        var k :| ActiveOf(s.changes, i.id) == {k} && k in s.changes && i.activeRelease == Some(s.changes[k].targetRelease) && i.activeRevision == Some(s.changes[k].targetRevision);
        assert forall l :: IsActiveFor(s, l, i) <==> l in {k};
      }
      if !HasDiverged(s, i) { OnlyOne(s, i); }
    }
  }

  lemma OnlyOne(s: State, i: Installation)
    requires i.activeRelease.Some? && !HasDiverged(s, i)
    ensures InstallationOk(s, i)
  {
    var k :| IsActiveFor(s, k, i) && Some(s.changes[k].targetRelease) == i.activeRelease && Some(s.changes[k].targetRevision) == i.activeRevision &&
      forall l :: l != k ==> !IsActiveFor(s, l, i);
    forall x
      ensures x in ActiveOf(s.changes, i.id) <==> x == k
    {
      assert x in ActiveOf(s.changes, i.id) <==> IsActiveFor(s, x, i);
    }
    assert ActiveOf(s.changes, i.id) == {k};
  }

  /** The closing assertion passes exactly when no channel is torn and no installation has diverged. */
  lemma CoherentMeans(s: State)
    ensures Coherent(s) <==>
      (forall k :: k in s.channels ==> !IsTorn(s, s.channels[k])) && forall k :: k in s.installations ==> !HasDiverged(s, s.installations[k])
  {
    forall k | k in s.channels
      ensures ChannelOk(s, s.channels[k]) <==> !IsTorn(s, s.channels[k])
    {
    }
    forall k | k in s.installations
      ensures InstallationOk(s, s.installations[k]) <==> !HasDiverged(s, s.installations[k])
    {
      DivergedMeans(s, s.installations[k]);
    }
    hide ChannelOk, IsTorn, InstallationOk, HasDiverged;
  }

  // ---------------------------------------------------------------- sequences of publishes

  /** A publish as it was made: its input, and how the record listed the package changes. */
  datatype Call = Call(input: PublishInput, values: seq<PackageChange>)

  function After(s: State, c: Call): State
  {
    var r := Publish(s, c.input, c.values);
    if r.Ok? then r.value else s
  }

  /** Publishes one after the other, whatever becomes of each. */
  ghost predicate IsRun(calls: seq<Call>, states: seq<State>)
  {
    |states| == |calls| + 1 && Inv(states[0]) &&
    forall i :: 0 <= i < |calls| ==> ListsValues(calls[i].values, states[i].changes) && states[i + 1] == After(states[i], calls[i])
  }

  lemma {:induction false} RunsKeep(calls: seq<Call>, states: seq<State>, i: nat)
    requires IsRun(calls, states) && i < |states|
    ensures Inv(states[i])
  {
    hide Inv, ListsValues, Publish;
    if i > 0 {
      RunsKeep(calls, states, i - 1);
      PublishKeeps(states[i - 1], calls[i - 1].input, calls[i - 1].values);
      assert states[i] == After(states[i - 1], calls[i - 1]);
    }
  }

  /** How many of the first `n` publishes of the project took effect. */
  ghost function Effects(calls: seq<Call>, states: seq<State>, project: string, n: nat): nat
    requires n <= |calls| && |states| == |calls| + 1
  {
    if n == 0 then 0
    else Effects(calls, states, project, n - 1) + (if calls[n - 1].input.projectId == project && states[n] != states[n - 1] then 1 else 0)
  }

  ghost function AllEffects(states: seq<State>, n: nat): nat
    requires n < |states|
  {
    if n == 0 then 0 else AllEffects(states, n - 1) + (if states[n] != states[n - 1] then 1 else 0)
  }

  function Epoch(s: State, project: string): int
  {
    if project in s.epochs then s.epochs[project] else 0
  }

  lemma StepCounts(s: State, c: Call, project: string)
    requires Inv(s) && ListsValues(c.values, s.changes)
    ensures var t := After(s, c);
      t.controlRevision == s.controlRevision + (if t != s then 1 else 0) &&
      Epoch(t, project) == Epoch(s, project) + (if t != s && c.input.projectId == project then 1 else 0)
  {
    PublishMeans(s, c.input, c.values);
    hide Inv, ListsValues, Publish, Trouble, IsDone, ReleasesMoved, ChangeActivated, KeyOf;
  }

  /** Over any sequence of publishes the epoch of a project rises by exactly the number of its publishes that
      took effect, and the control revision by the number of all that did. */
  lemma {:induction false} EpochsCount(calls: seq<Call>, states: seq<State>, project: string, n: nat)
    requires IsRun(calls, states) && n <= |calls|
    ensures Epoch(states[n], project) == Epoch(states[0], project) + Effects(calls, states, project, n)
    ensures states[n].controlRevision == states[0].controlRevision + AllEffects(states, n)
  {
    hide Inv, ListsValues, After, Epoch;
    if n > 0 {
      EpochsCount(calls, states, project, n - 1);
      RunsKeep(calls, states, n - 1);
      StepCounts(states[n - 1], calls[n - 1], project);
      assert states[n - 1 + 1] == After(states[n - 1], calls[n - 1]);
    }
  }
}
