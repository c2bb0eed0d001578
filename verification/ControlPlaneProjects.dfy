/** Publishing across projects. The channel key joins project and channel with a colon, so a key can
    belong to two channels, and a publish in one project can replace the release of another. */
module ControlPlaneProjects {
  import opened Texts
  import opened ControlPlane

  /** Each channel record stands under its own key, and serves a release of its project. */
  ghost predicate Owned(s: State)
  {
    forall k :: k in s.channels ==>
      k == s.channels[k].projectId + ":" + s.channels[k].channel &&
      s.channels[k].releaseId in s.releases && s.releases[s.channels[k].releaseId].projectId == s.channels[k].projectId
  }

  lemma ProjectsStay(s: State, input: PublishInput)
    requires KeysAreIds(s) && input.releaseId in s.releases
    ensures forall id :: id in s.releases ==> id in ReleasesAfter(s, input) && ReleasesAfter(s, input)[id].projectId == s.releases[id].projectId
  {
  }

  lemma ChannelsOfBody(s: State, input: PublishInput, values: seq<PackageChange>)
    requires PublishBody(s, input, values).Ok? && !AlreadyApplied(s, input)
    ensures Guard(s, input).Ok? && PublishBody(s, input, values).value.releases == ReleasesAfter(s, input)
    ensures PublishBody(s, input, values).value.channels == s.channels[ChannelKey(input) := Channel(input.projectId, input.channel, input.releaseId, input.activationId)]
  {
    hide AlreadyApplied, ReleasesAfter, SupersedeEach;
  }

  lemma PointersKeepOwned(s: State, input: PublishInput)
    requires KeysAreIds(s) && Owned(s) && Guard(s, input).Ok?
    ensures Owned(WithPointers(s, input))
  {
    hide ReleasesAfter;
    ProjectsStay(s, input);
    var t := WithPointers(s, input);
    forall k | k in t.channels
      ensures k == t.channels[k].projectId + ":" + t.channels[k].channel
      ensures t.channels[k].releaseId in t.releases && t.releases[t.channels[k].releaseId].projectId == t.channels[k].projectId
    {
      if k != ChannelKey(input) { assert t.channels[k] == s.channels[k]; }
    }
  }

  /** Every publish keeps this. */
  lemma PublishKeepsOwned(s: State, input: PublishInput, values: seq<PackageChange>)
    requires Inv(s) && Owned(s) && ListsValues(values, s.changes) && Publish(s, input, values).Ok?
    ensures Owned(Publish(s, input, values).value)
  {
    hide Coherent, Unshared, AlreadyApplied, ReleasesAfter, ListsValues, SupersedeEach, Owned;
    if !AlreadyApplied(s, input) {
      ChannelsOfBody(s, input, values);
      PointersKeepOwned(s, input);
      SameRecordsOwned(WithPointers(s, input), PublishBody(s, input, values).value);
    }
  }

  lemma SameRecordsOwned(s: State, t: State)
    requires Owned(s) && s.releases == t.releases && s.channels == t.channels
    ensures Owned(t)
  {
  }

  /** The channel found under the key, if any, is of the publishing project. */
  predicate KeyIsOurs(s: State, input: PublishInput)
  {
    ChannelKey(input) in s.channels ==> s.channels[ChannelKey(input)].projectId == input.projectId
  }

  /** The publish changes no release and no channel of another project. */
  ghost predicate StaysInProject(s: State, t: State, projectId: string)
  {
    (forall id :: id in s.releases && s.releases[id].projectId != projectId ==> id in t.releases && t.releases[id] == s.releases[id]) &&
    forall k :: k in s.channels && s.channels[k].projectId != projectId ==> k in t.channels && t.channels[k] == s.channels[k]
  }

  /** A publish that takes effect stays inside its project if and only if the channel record found
      under its key is of that project. */
  lemma PublishStaysInProject(s: State, input: PublishInput, values: seq<PackageChange>)
    requires Inv(s) && Owned(s) && ListsValues(values, s.changes) && Publish(s, input, values).Ok? && !AlreadyApplied(s, input)
    ensures StaysInProject(s, Publish(s, input, values).value, input.projectId) <==> KeyIsOurs(s, input)
  {
    hide Coherent, Unshared, AlreadyApplied, ListsValues, PublishBody;
    PublishKeeps(s, input, values);
    ChannelsOfBody(s, input, values);
  }

  // ---------------------------------------------------------------- when keys cannot meet

  predicate ColonFree(s: string)
  {
    forall i :: 0 <= i < |s| ==> s[i] != ':'
  }

  lemma KeySplits(a: string, x: string, b: string, y: string)
    requires ColonFree(a) && ColonFree(b)
    ensures a + ":" + x == b + ":" + y <==> a == b && x == y
  {
    var l, r := a + ":" + x, b + ":" + y;
    assert l[|a|] == ':' && r[|b|] == ':';
    if |a| < |b| { assert r[|a|] == b[|a|]; }
    if |b| < |a| { assert l[|b|] == a[|b|]; }
    assert l[..|a|] == a && r[..|b|] == b && l[|a| + 1..] == x && r[|b| + 1..] == y;
  }

  /** With project ids without a colon, no publish reaches into another project. */
  lemma ColonFreeStaysInProject(s: State, input: PublishInput, values: seq<PackageChange>)
    requires Inv(s) && Owned(s) && ListsValues(values, s.changes) && Publish(s, input, values).Ok?
    requires ColonFree(input.projectId) && forall k :: k in s.channels ==> ColonFree(s.channels[k].projectId)
    ensures StaysInProject(s, Publish(s, input, values).value, input.projectId)
  {
    hide Inv, Publish, AlreadyApplied, ListsValues, StaysInProject;
    if AlreadyApplied(s, input) {
      RepeatStays(s, input, values);
    } else {
      if ChannelKey(input) in s.channels {
        var c := s.channels[ChannelKey(input)];
        KeySplits(input.projectId, input.channel, c.projectId, c.channel);
      }
      PublishStaysInProject(s, input, values);
    }
  }

  lemma RepeatStays(s: State, input: PublishInput, values: seq<PackageChange>)
    requires AlreadyApplied(s, input) && Publish(s, input, values).Ok?
    ensures StaysInProject(s, Publish(s, input, values).value, input.projectId)
  {
    hide AlreadyApplied, Coherent;
  }

  // ---------------------------------------------------------------- a publish that reaches over

  const Theirs := Release("r1", "a:b", "m", Published)
  const Ours := Release("r2", "a", "m", Ready)
  const Shared := State(
    0, map["r1" := Theirs, "r2" := Ours], map["v1" := Activation("v1", "r1", "m", []), "v2" := Activation("v2", "r2", "m", [])],
    map["a:b:c" := Channel("a:b", "c", "r1", "v1")], map["r1" := ServingHead("r1", "v1")], map[], map[], map[])
  const Reaching := PublishInput("a", "r2", "v2", "b:c", 0, None, None)

  lemma KeysMeet()
    ensures ChannelKey(Reaching) == "a:b:c" && "a:b" + ":" + "c" == "a:b:c"
  {
  }

  lemma SharedIsFine()
    ensures Inv(Shared) && Owned(Shared)
  {
    KeysMeet();
    assert KeysAreIds(Shared) && Unshared(Shared);
    assert ChannelOk(Shared, Shared.channels["a:b:c"]);
  }

  lemma ReachingAdmitted()
    ensures Guard(Shared, Reaching).Ok? && !AlreadyApplied(Shared, Reaching) && ListsValues([], Shared.changes)
    ensures PublishBody(Shared, Reaching, []).Ok?
  {
    assert Shared.releases["r2"] == Ours && Shared.activations["v2"] == Activation("v2", "r2", "m", []);
  }

  /** Project "a" publishes to its channel "b:c", and the release of channel "c" of project "a:b" is
      superseded. */
  lemma PublishReachesOver()
    ensures Inv(Shared) && Owned(Shared) && Publish(Shared, Reaching, []).Ok?
    ensures !StaysInProject(Shared, Publish(Shared, Reaching, []).value, "a")
    ensures Publish(Shared, Reaching, []).value.releases["r1"] == Theirs.(state := Superseded)
  {
    hide Inv, PublishBody;
    SharedIsFine();
    ReachingAdmitted();
    PublishKeeps(Shared, Reaching, []);
    ChannelsOfBody(Shared, Reaching, []);
    KeysMeet();
    hide Guard, AlreadyApplied, Coherent, ListsValues;
    assert Shared.channels["a:b:c"].projectId == "a:b" && |"a:b"| != |"a"|;
    PublishStaysInProject(Shared, Reaching, []);
    assert ReleasesAfter(Shared, Reaching)["r1"] == Theirs.(state := Superseded);
  }
}
