/** The control-plane transactions as the program runs them: the state is copied, then updated
    record by record, and checked at the end. */
module ControlPlaneModel {
  import opened Texts
  import opened Locks
  import opened ControlPlane

  /** `Object.values(changes)` */
  method Values(changes: map<string, PackageChange>) returns (values: seq<PackageChange>)
    ensures ListsValues(values, changes)
  {
    values := [];
    var rest := changes.Keys;
    while rest != {}
      invariant rest <= changes.Keys
      invariant forall v :: v in values <==> exists k :: k in changes && k !in rest && changes[k] == v
      decreases |rest|
    {
      var key :| key in rest;
      values, rest := values + [changes[key]], rest - {key};
    }
  }

  /** The loop of `activatePackageChange` over the changes. */
  method SupersedeAll(changes: map<string, PackageChange>, values: seq<PackageChange>, installation: string) returns (after: map<string, PackageChange>)
    ensures after == SupersedeEach(changes, values, installation)
    ensures (forall k :: k in changes ==> changes[k].id == k) && ListsValues(values, changes) ==> after == SupersedeActive(changes, installation)
  {
    after := changes;
    var i := 0;
    assert values[0..] == values;
    while i < |values|
      invariant 0 <= i <= |values| && SupersedeEach(changes, values, installation) == SupersedeEach(after, values[i..], installation)
    {
      var existing := values[i];
      assert values[i..][1..] == values[i + 1..];
      if existing.installationId == installation && existing.state == Active {
        after := after[existing.id := existing.(state := ChangeSuperseded)];
      }
      i := i + 1;
    }
    if (forall k :: k in changes ==> changes[k].id == k) && ListsValues(values, changes) { SupersedesActive(changes, values, installation); }
  }

  method ActivatePackageChange(s: State, id: string, input: PublishInput) returns (r: Result<State>, ghost values: seq<PackageChange>)
    ensures ListsValues(values, s.changes) && r == ActivateChange(s, id, input, values)
  {
    hide ListsValues, SupersedeEach, SupersedeActive;
    var listed := Values(s.changes);
    values := listed;
    if id !in s.changes { return Err(NotFound), values; }
    var change := s.changes[id];
    if change.installationId !in s.installations { return Err(NotFound), values; }
    var installation := s.installations[change.installationId];
    if installation.projectId != input.projectId || change.targetRelease != input.releaseId { return Err(InvalidInput), values; }
    if change.state != Pending { return Err(InvalidState), values; }
    var next := s;
    var changes := SupersedeAll(s.changes, listed, installation.id);
    next := next.(changes := changes[change.id := change.(state := Active)]);
    next := next.(installations := next.installations[installation.id :=
      installation.(activeRevision := Some(change.targetRevision), activeRelease := Some(change.targetRelease))]);
    r := Ok(next);
  }

  /** `assertMetadataControlPlaneInvariants` */
  method AssertInvariants(s: State) returns (ok: bool)
    ensures ok <==> Coherent(s)
  {
    hide ChannelOk, InstallationOk;
    var rest := s.channels.Keys;
    while rest != {}
      invariant rest <= s.channels.Keys && forall k :: k in s.channels && k !in rest ==> ChannelOk(s, s.channels[k])
      decreases |rest|
    {
      var k :| k in rest;
      if !ChannelOk(s, s.channels[k]) { return false; }
      rest := rest - {k};
    }
    rest := s.installations.Keys;
    while rest != {}
      invariant rest <= s.installations.Keys && forall k :: k in s.installations && k !in rest ==> InstallationOk(s, s.installations[k])
      decreases |rest|
    {
      var k :| k in rest;
      var fine := CheckInstallation(s, s.installations[k]);
      if !fine { return false; }
      rest := rest - {k};
    }
    return true;
  }

  /** One installation against its ACTIVE changes. */
  method CheckInstallation(s: State, i: Installation) returns (ok: bool)
    ensures ok <==> InstallationOk(s, i)
  {
    if i.activeRelease.None? { return i.activeRevision.None?; }
    var active := ActiveOf(s.changes, i.id);
    if |active| != 1 {
      assert forall k :: active == {k} ==> |active| == 1;
      return false;
    }
    var k :| k in active;
    OnlyMember(active, k);
    return i.activeRelease == Some(s.changes[k].targetRelease) && i.activeRevision == Some(s.changes[k].targetRevision);
  }

  lemma OnlyMember(s: set<string>, k: string)
    requires |s| == 1 && k in s
    ensures s == {k} && forall j :: s == {j} ==> j == k
  {
    assert |s - {k}| == 0;
    assert forall j :: s == {j} ==> k in {j};
  }

  method PublishReleaseTransaction(s: State, input: PublishInput) returns (r: Result<State>, ghost values: seq<PackageChange>)
    ensures ListsValues(values, s.changes) && r == Publish(s, input, values)
    ensures Inv(s) && r.Ok? ==> Inv(r.value)
  {
    hide Inv, Coherent, AlreadyApplied, Ascending, Guard, WithPointers, ActivateChange, ListsValues;
    var planned := AssertLockPlan(PublishPlan);
    assert planned by { PlansAscend(); }
    var listed := Values(s.changes);
    values := listed;
    if Inv(s) { PublishKeeps(s, input, values); }
    if input.releaseId !in s.releases || input.activationId !in s.activations { return Err(NotFound), values; }
    if AlreadyApplied(s, input) { return Ok(s), values; }
    var guard := Guard(s, input);
    if guard.Err? { return Err(guard.code), values; }
    r, values := UpdateRecords(s, input);
    if Inv(s) { PublishKeeps(s, input, values); }
  }

  /** The updates of an admitted publish, with the points at which it can be made to fail. */
  method UpdateRecords(s: State, input: PublishInput) returns (r: Result<State>, ghost values: seq<PackageChange>)
    requires input.releaseId in s.releases && input.activationId in s.activations
    requires !AlreadyApplied(s, input) && Guard(s, input).Ok?
    ensures ListsValues(values, s.changes) && r == Publish(s, input, values)
  {
    hide Coherent, ActivateChange, AlreadyApplied, Guard, ListsValues;
    var listed := Values(s.changes);
    values := listed;
    if input.failurePoint == Some(AfterRelease) { return Err(TransactionAborted), values; }
    if input.failurePoint == Some(AfterServingHead) { return Err(TransactionAborted), values; }
    var next := PointRelease(s, input);
    if input.failurePoint == Some(AfterChannel) { return Err(TransactionAborted), values; }
    PointersFrame(s, input);
    hide WithPointers;
    if input.packageChangeId.Some? {
      var installed;
      installed, values := ActivatePackageChange(next, input.packageChangeId.value, input);
      if installed.Err? { return installed, values; }
      ActivateFrame(next, input.packageChangeId.value, input, values);
      next := installed.value;
    }
    if input.failurePoint == Some(AfterInstallations) { return Err(TransactionAborted), values; }
    r := CountAndCheck(next, input);
  }

  /** The counters, and the closing assertion. */
  method CountAndCheck(s: State, input: PublishInput) returns (r: Result<State>)
    ensures r == if input.failurePoint == Some(AfterEpoch) then Err(TransactionAborted)
                 else
                   var t := s.(epochs := s.epochs[input.projectId := EpochOf(s, input.projectId) + 1], controlRevision := s.controlRevision + 1);
                   if Coherent(t) then Ok(t) else Err(InvalidState)
  {
    hide Coherent;
    var next := s.(epochs := s.epochs[input.projectId := EpochOf(s, input.projectId) + 1]);
    if input.failurePoint == Some(AfterEpoch) { return Err(TransactionAborted); }
    next := next.(controlRevision := next.controlRevision + 1);
    var coherent := AssertInvariants(next);
    r := if coherent then Ok(next) else Err(InvalidState);
  }

  lemma ActivateFrame(s: State, id: string, input: PublishInput, values: seq<PackageChange>)
    requires ActivateChange(s, id, input, values).Ok?
    ensures var t := ActivateChange(s, id, input, values).value; t.epochs == s.epochs && t.controlRevision == s.controlRevision
  {
    hide SupersedeEach;
  }

  /** The release, its Serving Head and its channel, one after the other. */
  method PointRelease(s: State, input: PublishInput) returns (next: State)
    requires input.releaseId in s.releases
    ensures next == WithPointers(s, input)
  {
    next := s;
    next := next.(releases := next.releases[input.releaseId := next.releases[input.releaseId].(state := Published)]);
    next := next.(servingHeads := next.servingHeads[input.releaseId := ServingHead(input.releaseId, input.activationId)]);
    var key := ChannelKey(input);
    if key in s.channels && s.channels[key].releaseId != input.releaseId && s.channels[key].releaseId in next.releases {
      var replaced := next.releases[s.channels[key].releaseId];
      if replaced.state == Published { next := next.(releases := next.releases[replaced.id := replaced.(state := Superseded)]); }
    }
    next := next.(channels := next.channels[key := Channel(input.projectId, input.channel, input.releaseId, input.activationId)]);
  }
}
