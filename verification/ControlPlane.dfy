/** The metadata control plane: what a publish does to its records, and the facts every accepted
    publish keeps. */
module ControlPlane {
  import opened Texts

  datatype ErrorCode = ConcurrentModification | InvalidInput | InvalidState | NotFound | TransactionAborted
  datatype Result<+T> = Ok(value: T) | Err(code: ErrorCode)

  datatype ReleaseState = Draft | Staging | Ready | Failed | Published | Superseded
  datatype Release = Release(id: string, projectId: string, manifestDigest: string, state: ReleaseState)
  datatype Activation = Activation(id: string, releaseId: string, manifestDigest: string, memberIds: seq<string>)
  datatype Channel = Channel(projectId: string, channel: string, releaseId: string, activationId: string)
  datatype ServingHead = ServingHead(releaseId: string, activationId: string)

  datatype ChangeState = Pending | Active | ChangeSuperseded | ChangeFailed
  datatype Installation = Installation(id: string, projectId: string, activeRevision: Option<string>, activeRelease: Option<string>)
  datatype PackageChange = PackageChange(id: string, installationId: string, targetRevision: string, targetRelease: string, state: ChangeState)

  datatype State = State(
    controlRevision: int, releases: map<string, Release>, activations: map<string, Activation>, channels: map<string, Channel>,
    servingHeads: map<string, ServingHead>, installations: map<string, Installation>, changes: map<string, PackageChange>,
    epochs: map<string, int>)

  // ---------------------------------------------------------------- transitions

  /** `transitionRelease` is legal. */
  predicate LegalRelease(from: ReleaseState, to: ReleaseState)
  {
    match from
    case Draft => to == Staging || to == Failed
    case Staging => to == Ready || to == Failed
    case Ready => to == Published
    case Published => to == Superseded
    case _ => false
  }

  datatype FailurePoint = AfterRelease | AfterServingHead | AfterChannel | AfterInstallations | AfterEpoch

  datatype PublishInput = PublishInput(
    projectId: string, releaseId: string, activationId: string, channel: string, expectedControlRevision: int,
    packageChangeId: Option<string>, failurePoint: Option<FailurePoint>)

  function ChannelKey(input: PublishInput): string
  {
    input.projectId + ":" + input.channel
  }

  /** `packagePublishAlreadyApplied` */
  predicate PackageApplied(s: State, input: PublishInput)
  {
    input.packageChangeId.None? ||
    (input.packageChangeId.value in s.changes &&
     var change := s.changes[input.packageChangeId.value];
     change.state == Active && change.installationId in s.installations &&
     s.installations[change.installationId].activeRevision == Some(change.targetRevision) &&
     s.installations[change.installationId].activeRelease == Some(change.targetRelease))
  }

  predicate AlreadyApplied(s: State, input: PublishInput)
  {
    input.releaseId in s.releases && s.releases[input.releaseId].state == Published &&
    ChannelKey(input) in s.channels && s.channels[ChannelKey(input)].releaseId == input.releaseId &&
    s.channels[ChannelKey(input)].activationId == input.activationId &&
    input.releaseId in s.servingHeads && s.servingHeads[input.releaseId].activationId == input.activationId &&
    PackageApplied(s, input)
  }

  /** The guards before the clone, in their order. */
  function Guard(s: State, input: PublishInput): Result<()>
  {
    if s.controlRevision != input.expectedControlRevision then Err(ConcurrentModification)
    else if input.releaseId !in s.releases || input.activationId !in s.activations then Err(NotFound)
    else
      var release, activation := s.releases[input.releaseId], s.activations[input.activationId];
      if release.state != Ready then Err(InvalidState)
      else if release.projectId != input.projectId || activation.releaseId != input.releaseId ||
              activation.manifestDigest != release.manifestDigest then Err(InvalidInput)
      else if activation.memberIds != [] then Err(InvalidState)
      else Ok(())
  }

  /** The releases after a publish: the new one published, the one it replaces superseded. */
  function ReleasesAfter(s: State, input: PublishInput): map<string, Release>
    requires input.releaseId in s.releases
  {
    var published := s.releases[input.releaseId := s.releases[input.releaseId].(state := Published)];
    var key := ChannelKey(input);
    if key in s.channels && s.channels[key].releaseId != input.releaseId && s.channels[key].releaseId in published &&
       published[s.channels[key].releaseId].state == Published
    then
      var replaced := published[s.channels[key].releaseId];
      published[replaced.id := replaced.(state := Superseded)]
    else published
  }

  /** Every ACTIVE change of `installation` superseded. */
  function SupersedeActive(changes: map<string, PackageChange>, installation: string): (r: map<string, PackageChange>)
    ensures r.Keys == changes.Keys
  {
    map k | k in changes ::
      if changes[k].installationId == installation && changes[k].state == Active then changes[k].(state := ChangeSuperseded) else changes[k]
  }

  predicate IsActiveOf(change: PackageChange, installation: string)
  {
    change.installationId == installation && change.state == Active
  }

  /** The loop of `activatePackageChange` over the values of the record, stored back under their ids. */
  function SupersedeEach(changes: map<string, PackageChange>, values: seq<PackageChange>, installation: string): map<string, PackageChange>
    decreases |values|
  {
    if values == [] then changes
    else
      SupersedeEach(if IsActiveOf(values[0], installation) then changes[values[0].id := values[0].(state := ChangeSuperseded)] else changes,
                    values[1..], installation)
  }

  /** `values` is what `Object.values` lists, in some order. */
  ghost predicate ListsValues(values: seq<PackageChange>, changes: map<string, PackageChange>)
  {
    forall v :: v in values <==> exists k :: k in changes && changes[k] == v
  }

  /** `activatePackageChange` */
  function ActivateChange(s: State, id: string, input: PublishInput, values: seq<PackageChange>): Result<State>
  {
    if id !in s.changes || s.changes[id].installationId !in s.installations then Err(NotFound)
    else
      var change := s.changes[id];
      var installation := s.installations[change.installationId];
      if installation.projectId != input.projectId || change.targetRelease != input.releaseId then Err(InvalidInput)
      else if change.state != Pending then Err(InvalidState)
      else
        Ok(s.(changes := SupersedeEach(s.changes, values, installation.id)[change.id := change.(state := Active)],
              installations := s.installations[installation.id :=
                installation.(activeRevision := Some(change.targetRevision), activeRelease := Some(change.targetRelease))]))
  }

  function WithPointers(s: State, input: PublishInput): State
    requires input.releaseId in s.releases
  {
    s.(releases := ReleasesAfter(s, input),
       servingHeads := s.servingHeads[input.releaseId := ServingHead(input.releaseId, input.activationId)],
       channels := s.channels[ChannelKey(input) := Channel(input.projectId, input.channel, input.releaseId, input.activationId)])
  }

  function EpochOf(s: State, projectId: string): int
  {
    if projectId in s.epochs then s.epochs[projectId] else 0
  }

  /** `publishReleaseTransaction` without its closing assertion; `values` lists the package changes. */
  function PublishBody(s: State, input: PublishInput, values: seq<PackageChange>): Result<State>
  {
    if input.releaseId !in s.releases || input.activationId !in s.activations then Err(NotFound)
    else if AlreadyApplied(s, input) then Ok(s)
    else if Guard(s, input).Err? then Err(Guard(s, input).code)
    else if input.failurePoint.Some? && input.failurePoint.value in {AfterRelease, AfterServingHead, AfterChannel} then Err(TransactionAborted)
    else
      var pointed := WithPointers(s, input);
      var installed := if input.packageChangeId.None? then Ok(pointed) else ActivateChange(pointed, input.packageChangeId.value, input, values);
      if installed.Err? then installed
      else if input.failurePoint.Some? && input.failurePoint.value in {AfterInstallations, AfterEpoch} then Err(TransactionAborted)
      else
        Ok(installed.value.(epochs := s.epochs[input.projectId := EpochOf(s, input.projectId) + 1], controlRevision := s.controlRevision + 1))
  }

  // ---------------------------------------------------------------- the closing assertion

  predicate ChannelOk(s: State, c: Channel)
  {
    c.releaseId in s.releases && c.activationId in s.activations && s.releases[c.releaseId].state == Published &&
    s.activations[c.activationId].releaseId == s.releases[c.releaseId].id && s.releases[c.releaseId].id in s.servingHeads &&
    s.servingHeads[s.releases[c.releaseId].id].activationId == s.activations[c.activationId].id
  }

  /** The ACTIVE changes of an installation. */
  function ActiveOf(changes: map<string, PackageChange>, installation: string): set<string>
  {
    set k | k in changes && changes[k].installationId == installation && changes[k].state == Active
  }

  predicate InstallationOk(s: State, i: Installation)
  {
    if i.activeRelease.None? then i.activeRevision.None?
    else
      exists k :: ActiveOf(s.changes, i.id) == {k} && k in s.changes &&
        i.activeRelease == Some(s.changes[k].targetRelease) && i.activeRevision == Some(s.changes[k].targetRevision)
  }

  /** `assertMetadataControlPlaneInvariants` passes. */
  predicate Coherent(s: State)
  {
    (forall k :: k in s.channels ==> ChannelOk(s, s.channels[k])) &&
    forall k :: k in s.installations ==> InstallationOk(s, s.installations[k])
  }

  predicate KeysAreIds(s: State)
  {
    (forall k :: k in s.releases ==> s.releases[k].id == k) && (forall k :: k in s.activations ==> s.activations[k].id == k) &&
    (forall k :: k in s.installations ==> s.installations[k].id == k) && (forall k :: k in s.changes ==> s.changes[k].id == k)
  }

  /** No two channels serve one release. */
  predicate Unshared(s: State)
  {
    forall k, l :: k in s.channels && l in s.channels && k != l ==> s.channels[k].releaseId != s.channels[l].releaseId
  }

  ghost predicate Inv(s: State)
  {
    KeysAreIds(s) && Unshared(s) && Coherent(s)
  }

  /** `publishReleaseTransaction` */
  function Publish(s: State, input: PublishInput, values: seq<PackageChange>): Result<State>
  {
    var body := PublishBody(s, input, values);
    if body.Ok? && !AlreadyApplied(s, input) && !Coherent(body.value) then Err(InvalidState) else body
  }

  // ---------------------------------------------------------------- publish keeps the invariant

  lemma PointersKeep(s: State, input: PublishInput)
    requires Inv(s) && Guard(s, input).Ok?
    ensures Inv(WithPointers(s, input))
  {
    var t := WithPointers(s, input);
    assert KeysAreIds(t);
    forall k | k in s.channels
      ensures s.channels[k].releaseId != input.releaseId
    {
      assert ChannelOk(s, s.channels[k]);
    }
    assert Unshared(t);
    forall k | k in t.channels
      ensures ChannelOk(t, t.channels[k])
    {
      if k != ChannelKey(input) { assert ChannelOk(s, s.channels[k]); }
    }
    forall k | k in t.installations
      ensures InstallationOk(t, t.installations[k])
    {
      assert InstallationOk(s, s.installations[k]);
    }
  }

  lemma {:induction false} SupersedeEachAt(changes: map<string, PackageChange>, values: seq<PackageChange>, installation: string, k: string)
    ensures var r := SupersedeEach(changes, values, installation);
      k in r ==>
        (k in changes && r[k] == changes[k] && forall v :: v in values ==> !(v.id == k && IsActiveOf(v, installation))) ||
        exists v :: v in values && v.id == k && IsActiveOf(v, installation) && r[k] == v.(state := ChangeSuperseded)
    ensures k in changes ==> k in SupersedeEach(changes, values, installation)
    decreases |values|
  {
    hide IsActiveOf;
    if values != [] {
      var v := values[0];
      var next := if IsActiveOf(v, installation) then changes[v.id := v.(state := ChangeSuperseded)] else changes;
      assert values == [v] + values[1..];
      SupersedeEachAt(next, values[1..], installation, k);
    }
  }

  /** With keys that are ids, the loop supersedes exactly the ACTIVE changes of the installation, in
      whatever order the values come. */
  lemma SupersedesActive(changes: map<string, PackageChange>, values: seq<PackageChange>, installation: string)
    requires (forall k :: k in changes ==> changes[k].id == k) && ListsValues(values, changes)
    ensures SupersedeEach(changes, values, installation) == SupersedeActive(changes, installation)
  {
    hide SupersedeEach;
    var r := SupersedeEach(changes, values, installation);
    forall k
      ensures (k in r <==> k in changes) && (k in r ==> r[k] == SupersedeActive(changes, installation)[k])
    {
      SupersedeEachAt(changes, values, installation, k);
      if k in changes { assert changes[k] in values; }
    }
  }

  lemma ActivateKeeps(s: State, id: string, input: PublishInput, values: seq<PackageChange>)
    requires Inv(s) && ListsValues(values, s.changes) && ActivateChange(s, id, input, values).Ok?
    ensures Inv(ActivateChange(s, id, input, values).value)
    ensures var t := ActivateChange(s, id, input, values).value; t.releases == s.releases && t.channels == s.channels && t.servingHeads == s.servingHeads
    ensures ActiveOf(ActivateChange(s, id, input, values).value.changes, s.changes[id].installationId) == {id}
  {
    hide ActiveOf, SupersedeEach, ListsValues;
    var t := ActivateChange(s, id, input, values).value;
    var installation := s.changes[id].installationId;
    SupersedesActive(s.changes, values, installation);
    OneActive(s.changes, id);
    forall k | k in t.installations
      ensures InstallationOk(t, t.installations[k])
    {
      if k == installation {
        assert ActiveOf(t.changes, k) == {id};
      } else {
        assert InstallationOk(s, s.installations[k]);
        OthersActive(s.changes, id, k);
      }
    }
    forall k | k in t.channels
      ensures ChannelOk(t, t.channels[k])
    {
      assert ChannelOk(s, s.channels[k]);
    }
  }

  lemma OneActive(changes: map<string, PackageChange>, id: string)
    requires id in changes
    ensures var c := changes[id]; ActiveOf(SupersedeActive(changes, c.installationId)[id := c.(state := Active)], c.installationId) == {id}
  {
  }

  lemma OthersActive(changes: map<string, PackageChange>, id: string, other: string)
    requires id in changes && changes[id].installationId != other
    ensures var after := SupersedeActive(changes, changes[id].installationId)[id := changes[id].(state := Active)];
      ActiveOf(after, other) == ActiveOf(changes, other) && forall k :: k in ActiveOf(changes, other) ==> k in after && after[k] == changes[k]
  {
  }

  /** A publish that passes its guards keeps the records coherent, so the closing assertion never
      fires; one that does not pass them changes nothing. */
  lemma PublishKeeps(s: State, input: PublishInput, values: seq<PackageChange>)
    requires Inv(s) && ListsValues(values, s.changes)
    ensures Publish(s, input, values) == PublishBody(s, input, values)
    ensures Publish(s, input, values).Ok? ==> Inv(Publish(s, input, values).value)
  {
    hide Coherent, KeysAreIds, Unshared, AlreadyApplied, WithPointers, ActivateChange, Guard;
    if PublishBody(s, input, values).Ok? && !AlreadyApplied(s, input) {
      PointersKeep(s, input);
      var pointed := WithPointers(s, input);
      PointersFrame(s, input);
      if input.packageChangeId.Some? { ActivateKeeps(pointed, input.packageChangeId.value, input, values); }
      var installed := if input.packageChangeId.None? then pointed else ActivateChange(pointed, input.packageChangeId.value, input, values).value;
      CountersDoNotMatter(installed, PublishBody(s, input, values).value);
    }
  }

  lemma PointersFrame(s: State, input: PublishInput)
    requires input.releaseId in s.releases
    ensures var t := WithPointers(s, input); t.epochs == s.epochs && t.controlRevision == s.controlRevision && t.changes == s.changes && t.installations == s.installations
  {
  }

  lemma CountersDoNotMatter(s: State, t: State)
    requires t == s.(epochs := t.epochs, controlRevision := t.controlRevision)
    ensures Inv(s) <==> Inv(t)
  {
    hide ActiveOf;
  }

  // ---------------------------------------------------------------- repeat, and who wins

  lemma AppliedAfter(s: State, input: PublishInput, values: seq<PackageChange>)
    requires KeysAreIds(s) && PublishBody(s, input, values).Ok?
    ensures AlreadyApplied(PublishBody(s, input, values).value, input)
  {
    if !AlreadyApplied(s, input) {
      var pointed := WithPointers(s, input);
      assert AlreadyPointed(pointed, input);
      PointersFrame(s, input);
      assert KeysAreIds(s);
      hide WithPointers, Guard, SupersedeEach;
    }
  }

  predicate AlreadyPointed(s: State, input: PublishInput)
  {
    input.releaseId in s.releases && s.releases[input.releaseId].state == Published &&
    ChannelKey(input) in s.channels && s.channels[ChannelKey(input)].releaseId == input.releaseId &&
    s.channels[ChannelKey(input)].activationId == input.activationId &&
    input.releaseId in s.servingHeads && s.servingHeads[input.releaseId].activationId == input.activationId
  }

  /** Repeating a publish succeeds and changes nothing. */
  lemma RepeatIsNoOp(s: State, input: PublishInput, values: seq<PackageChange>, again: seq<PackageChange>)
    requires Inv(s) && ListsValues(values, s.changes) && Publish(s, input, values).Ok?
    ensures Publish(Publish(s, input, values).value, input, again) == Publish(s, input, values)
  {
    PublishKeeps(s, input, values);
    AppliedAfter(s, input, values);
    ActivationsKept(s, input, values);
    hide AlreadyApplied, WithPointers, ActivateChange, Guard, Coherent;
  }

  lemma ActivationsKept(s: State, input: PublishInput, values: seq<PackageChange>)
    requires PublishBody(s, input, values).Ok?
    ensures PublishBody(s, input, values).value.activations == s.activations && input.activationId in s.activations
    ensures !AlreadyApplied(s, input) ==> PublishBody(s, input, values).value.controlRevision == s.controlRevision + 1 == input.expectedControlRevision + 1
  {
    hide ReleasesAfter, SupersedeEach, AlreadyApplied;
  }

  /** Of two publishes that expect the same control revision, at most one takes effect. */
  lemma OneWins(s: State, first: PublishInput, second: PublishInput, values: seq<PackageChange>, later: seq<PackageChange>)
    requires Inv(s) && ListsValues(values, s.changes) && Publish(s, first, values).Ok? && !AlreadyApplied(s, first)
    requires second.expectedControlRevision == first.expectedControlRevision
    ensures var t := Publish(s, first, values).value;
      (Publish(t, second, later).Ok? ==> Publish(t, second, later).value == t) &&
      (second.releaseId in t.releases && second.activationId in t.activations && !AlreadyApplied(t, second) ==>
         Publish(t, second, later) == Err(ConcurrentModification))
  {
    hide AlreadyApplied, WithPointers, ActivateChange, Coherent, ListsValues;
    PublishKeeps(s, first, values);
    ActivationsKept(s, first, values);
  }

  /** Only the published release and the one it replaces change, along legal transitions. */
  lemma PublishTouches(s: State, input: PublishInput, values: seq<PackageChange>, id: string)
    requires Inv(s) && ListsValues(values, s.changes) && Publish(s, input, values).Ok? && id in s.releases
    ensures var t := Publish(s, input, values).value;
      id in t.releases &&
      (t.releases[id] == s.releases[id] ||
       (t.releases[id] == s.releases[id].(state := t.releases[id].state) && LegalRelease(s.releases[id].state, t.releases[id].state))) &&
      (t.releases[id] != s.releases[id] && id != input.releaseId ==>
         ChannelKey(input) in s.channels && s.channels[ChannelKey(input)].releaseId == id && t.releases[id].state == Superseded)
  {
    hide Coherent, Unshared, AlreadyApplied, Guard, ReleasesAfter, ListsValues;
    PublishKeeps(s, input, values);
    if !AlreadyApplied(s, input) {
      ReleasesOfBody(s, input, values);
      ReleasesTouched(s, input, id);
    }
    hide PublishBody;
  }

  lemma ReleasesOfBody(s: State, input: PublishInput, values: seq<PackageChange>)
    requires PublishBody(s, input, values).Ok? && !AlreadyApplied(s, input)
    ensures input.releaseId in s.releases && s.releases[input.releaseId].state == Ready
    ensures PublishBody(s, input, values).value.releases == ReleasesAfter(s, input)
  {
    hide AlreadyApplied, ReleasesAfter, SupersedeEach;
  }

  lemma ReleasesTouched(s: State, input: PublishInput, id: string)
    requires KeysAreIds(s) && input.releaseId in s.releases && s.releases[input.releaseId].state == Ready && id in s.releases
    ensures var after := ReleasesAfter(s, input);
      id in after &&
      (after[id] == s.releases[id] ||
       (after[id] == s.releases[id].(state := after[id].state) && LegalRelease(s.releases[id].state, after[id].state))) &&
      (after[id] != s.releases[id] && id != input.releaseId ==>
         ChannelKey(input) in s.channels && s.channels[ChannelKey(input)].releaseId == id && after[id].state == Superseded)
  {
  }
}
