/**
 * The snapshot manager of internal/aws/ec2/snapshot.go: the snapshot taken
 * before an instance is deleted, the restore of a profile from its snapshot,
 * and the sweep that deletes a profile's snapshots and the images built on them.
 */
module Snapshots {
  import opened Wrappers
  import opened Provider
  import Poller
  import Ec2StatusChecker
  import Ec2

  /** The tags a snapshot of a profile's instance carries. */
  function SnapshotTags(profile: string, instanceId: string): seq<Tag>
  {
    [Tag("Name", profile), Tag("InstanceID", instanceId), ManagedBy]
  }

  function SnapshotDescription(instanceId: string): string
  {
    "Snapshot before deleting instance " + instanceId
  }

  /** The snapshots that belong to a profile: named after it, managed by Dumie, owned by the account. */
  function ProfileSnapshotFilters(profile: string): seq<SnapshotFilter>
  {
    [SnapshotTag("Name", [profile]), SnapshotTag("ManagedBy", ["Dumie"]), SnapshotOwnedBy(OwnedBySelf)]
  }

  predicate ProfileSnapshot(x: Snapshot, profile: string)
  {
    && TagMatches(x.tags, "Name", [profile])
    && TagMatches(x.tags, "ManagedBy", ["Dumie"])
    && x.owner == OwnedBySelf
  }

  lemma ProfileFiltersMatch(x: Snapshot, profile: string)
    ensures SnapshotMatchesAll(x, ProfileSnapshotFilters(profile)) <==> ProfileSnapshot(x, profile)
  {
    var fs := ProfileSnapshotFilters(profile);
    assert SnapshotMatchesAll(x, fs) ==>
      SnapshotMatches(x, fs[0]) && SnapshotMatches(x, fs[1]) && SnapshotMatches(x, fs[2]);
  }

  // ------------------------------------------------------------------ specifications

  function CreateSnapshotSpec(e: Env, w: World, volumeId: string, instanceId: string,
                              profile: string): Step<Outcome<string>>
  {
    CreateSnapshotStep(e, w, volumeId, SnapshotDescription(instanceId), SnapshotTags(profile, instanceId))
  }

  /**
   * A restore from a given snapshot: an image of it, the default security
   * group, the configured key, and a launch that waits for running.
   * `keyName` is the answer of the key pair name lookup (None: the lookup failed).
   */
  function RestoreFromSpec(e: Env, w: World, profile: string, snapshotId: string,
                           keyName: Option<string>): Step<Outcome<Option<string>>>
  {
    var ami := Ec2.RegisterAmiSpec(e, w, snapshotId);
    if ami.result.Err? then Step(ami.world, Err(ami.result.error))
    else
      var sg := Ec2.SecurityGroupSpec(e, ami.world, Ec2.DefaultGroupName);
      if sg.result.Err? then Step(sg.world, Err(sg.result.error))
      else if keyName.None? then Step(sg.world, Err(KeyPairUnavailable))
      else
        var l := Ec2.LaunchSpec(e, sg.world, profile, ami.result.value, Ec2.DefaultInstanceType,
                                sg.result.value, keyName.value);
        Step(l.world, if l.result.Err? then Err(l.result.error) else Ok(Some(l.result.value)))
  }

  /** TryRestoreFromSnapshot: Ok(None) when the profile has no snapshot, so the caller launches afresh. */
  function RestoreSpec(e: Env, w: World, profile: string, keyName: Option<string>): Step<Outcome<Option<string>>>
  {
    var d := DescribeSnapshotsStep(e, w, ProfileSnapshotFilters(profile));
    if d.result.Err? then Step(d.world, Err(d.result.error))
    else if d.result.value == [] then Step(d.world, Ok(None))
    else RestoreFromSpec(e, d.world, profile, d.result.value[0].id, keyName)
  }

  /** The deregistration loop: image by image, stopping at the first refusal. */
  function DeregisterAllSpec(e: Env, w: World, ids: seq<string>): Step<Outcome<()>>
    decreases |ids|
  {
    if ids == [] then Step(w, Ok(()))
    else
      var d := DeregisterImageStep(e, w, ids[0]);
      if !d.result then Step(d.world, Err(ApiFailed(Api.DeregisterImage(ids[0]))))
      else DeregisterAllSpec(e, d.world, ids[1..])
  }

  function ImageIds(s: seq<Image>): (r: seq<string>)
    ensures |r| == |s| && forall i :: 0 <= i < |s| ==> r[i] == s[i].id
  {
    seq(|s|, i requires 0 <= i < |s| => s[i].id)
  }

  /** The account's images built on the snapshot. */
  function BackingFilters(snapshotId: string): seq<ImageFilter>
  {
    [ImageOwnedBy(OwnedBySelf), ImageBackedBy(snapshotId)]
  }

  /** DeleteSnapshotAndAMIIfExists: deregister every own image on the snapshot, then delete it. */
  function DeleteSnapshotAndAmiSpec(e: Env, w: World, snapshotId: string): Step<Outcome<()>>
  {
    var d := DescribeImagesStep(e, w, BackingFilters(snapshotId));
    if d.result.Err? then Step(d.world, Err(d.result.error))
    else
      var g := DeregisterAllSpec(e, d.world, ImageIds(d.result.value));
      if g.result.Err? then g
      else
        var x := DeleteSnapshotStep(e, g.world, snapshotId);
        Step(x.world, if x.result then Ok(()) else Err(ApiFailed(Api.DeleteSnapshot(snapshotId))))
  }

  /**
   * The sweep over a profile's snapshots, one after the other; the answer is
   * `reported` followed by the snapshots whose deletion failed.
   */
  function SweepEachSpec(e: Env, w: World, ids: seq<string>, reported: seq<string>): Step<seq<string>>
    decreases |ids|
  {
    if ids == [] then Step(w, reported)
    else
      var d := DeleteSnapshotAndAmiSpec(e, w, ids[0]);
      SweepEachSpec(e, d.world, ids[1..], reported + if d.result.Err? then [ids[0]] else [])
  }

  function SnapshotIds(s: seq<Snapshot>): (r: seq<string>)
    ensures |r| == |s| && forall i :: 0 <= i < |s| ==> r[i] == s[i].id
  {
    seq(|s|, i requires 0 <= i < |s| => s[i].id)
  }

  /**
   * DeleteOldSnapshotsByProfile: only the search can fail it; a snapshot that
   * cannot be deleted is reported (the warning) and the sweep goes on.
   */
  function DeleteOldSnapshotsSpec(e: Env, w: World, profile: string): Step<Outcome<seq<string>>>
  {
    var d := DescribeSnapshotsStep(e, w, ProfileSnapshotFilters(profile));
    if d.result.Err? then Step(d.world, Err(d.result.error))
    else
      var s := SweepEachSpec(e, d.world, SnapshotIds(d.result.value), []);
      Step(s.world, Ok(s.result))
  }

  // ------------------------------------------------------------------ the operations

  /** SnapshotManager.CreateSnapshot. */
  method CreateSnapshot(cloud: Cloud, volumeId: string, instanceId: string, profile: string)
    returns (r: Outcome<string>)
    modifies cloud
    ensures Step(cloud.State(), r) == CreateSnapshotSpec(cloud.env, old(cloud.State()), volumeId, instanceId, profile)
  {
    r := cloud.CreateSnapshotCall(volumeId, SnapshotDescription(instanceId), SnapshotTags(profile, instanceId));
  }

  method TryRestoreFromSnapshot(cloud: Cloud, profile: string, keyName: Option<string>)
    returns (r: Outcome<Option<string>>)
    modifies cloud
    ensures Step(cloud.State(), r) == RestoreSpec(cloud.env, old(cloud.State()), profile, keyName)
  {
    var found := cloud.DescribeSnapshotsCall(ProfileSnapshotFilters(profile));
    if found.Err? {
      return Err(found.error);
    }
    if found.value == [] {
      return Ok(None);
    }
    var ami := Ec2.RegisterAmiFromSnapshot(cloud, found.value[0].id);
    if ami.Err? {
      return Err(ami.error);
    }
    var sg := Ec2.CreateOrGetSecurityGroup(cloud, Ec2.DefaultGroupName);
    if sg.Err? {
      return Err(sg.error);
    }
    if keyName.None? {
      return Err(KeyPairUnavailable);
    }
    var launched := Ec2.LaunchInstance(cloud, profile, ami.value, Ec2.DefaultInstanceType, sg.value, keyName.value);
    if launched.Err? {
      return Err(launched.error);
    }
    r := Ok(Some(launched.value));
  }

  method DeleteSnapshotAndAmiIfExists(cloud: Cloud, snapshotId: string) returns (r: Outcome<()>)
    modifies cloud
    ensures Step(cloud.State(), r) == DeleteSnapshotAndAmiSpec(cloud.env, old(cloud.State()), snapshotId)
  {
    var images := cloud.DescribeImagesCall(BackingFilters(snapshotId));
    if images.Err? {
      return Err(images.error);
    }
    ghost var ids := ImageIds(images.value);
    ghost var start := cloud.State();
    var i := 0;
    while i < |images.value|
      invariant 0 <= i <= |images.value|
      invariant DeregisterAllSpec(cloud.env, cloud.State(), ids[i..]) == DeregisterAllSpec(cloud.env, start, ids)
    {
      assert ids[i..][0] == images.value[i].id && ids[i..][1..] == ids[i + 1..];
      var ok := cloud.DeregisterImageCall(images.value[i].id);
      if !ok {
        return Err(ApiFailed(Api.DeregisterImage(images.value[i].id)));
      }
      i := i + 1;
    }
    var deleted := cloud.DeleteSnapshotCall(snapshotId);
    r := if deleted then Ok(()) else Err(ApiFailed(Api.DeleteSnapshot(snapshotId)));
  }

  /** DeleteOldSnapshotsByProfile; `r` holds the snapshots that were reported and kept. */
  method DeleteOldSnapshotsByProfile(cloud: Cloud, profile: string) returns (r: Outcome<seq<string>>)
    modifies cloud
    ensures Step(cloud.State(), r) == DeleteOldSnapshotsSpec(cloud.env, old(cloud.State()), profile)
  {
    var found := cloud.DescribeSnapshotsCall(ProfileSnapshotFilters(profile));
    if found.Err? {
      return Err(found.error);
    }
    ghost var ids := SnapshotIds(found.value);
    ghost var start := cloud.State();
    var warnings: seq<string> := [];
    var i := 0;
    while i < |found.value|
      invariant 0 <= i <= |found.value|
      invariant SweepEachSpec(cloud.env, cloud.State(), ids[i..], warnings) == SweepEachSpec(cloud.env, start, ids, [])
    {
      assert ids[i..][0] == found.value[i].id && ids[i..][1..] == ids[i + 1..];
      var deleted := DeleteSnapshotAndAmiIfExists(cloud, found.value[i].id);
      if deleted.Err? {
        warnings := warnings + [found.value[i].id];
      } else {
        assert warnings + [] == warnings;
      }
      i := i + 1;
    }
    r := Ok(warnings);
  }

  // ------------------------------------------------------------------ properties

  /** The snapshot is tagged so that the profile's searches find it again. */
  lemma CreatedSnapshotIsFound(e: Env, w: World, volumeId: string, instanceId: string, profile: string)
    requires !Fails(e, Api.CreateSnapshot(volumeId))
    ensures var s := CreateSnapshotSpec(e, w, volumeId, instanceId, profile);
            && s.result == Ok(MintId("snap-", w.nextId))
            && s.world.snapshots == w.snapshots +
                 [Snapshot(s.result.value, volumeId, SnapshotDescription(instanceId),
                           SnapshotTags(profile, instanceId), OwnedBySelf, None, 0)]
            && ProfileSnapshot(s.world.snapshots[|w.snapshots|], profile)
  {
    var tags := SnapshotTags(profile, instanceId);
    assert tags[0] in tags && tags[2] in tags;
  }

  /** Without a snapshot of the profile the restore answers "none", and it has only searched. */
  lemma RestoreFallsBackIff(e: Env, w: World, profile: string, keyName: Option<string>)
    ensures var s := RestoreSpec(e, w, profile, keyName);
            && (s.result == Ok(None) <==>
                  !Fails(e, Api.DescribeSnapshots) && forall x :: x in w.snapshots ==> !ProfileSnapshot(x, profile))
            && (s.result == Ok(None) ==> s.world == Record(w, Api.DescribeSnapshots, true))
  {
    var found := SelectSnapshots(w.snapshots, ProfileSnapshotFilters(profile));
    forall x | x in w.snapshots
      ensures x in found <==> ProfileSnapshot(x, profile)
    {
      ProfileFiltersMatch(x, profile);
    }
    if found != [] {
      assert found[0] in found;
      if !Fails(e, Api.DescribeSnapshots) {
        RestoreFromOutcome(e, Record(w, Api.DescribeSnapshots, true), profile, found[0].id, keyName);
      }
    }
  }

  /** With a snapshot of the profile, the restore works from the first one the search answers. */
  lemma RestoreUsesFirstSnapshot(e: Env, w: World, profile: string, keyName: Option<string>)
    requires !Fails(e, Api.DescribeSnapshots)
    requires SelectSnapshots(w.snapshots, ProfileSnapshotFilters(profile)) != []
    ensures var first := SelectSnapshots(w.snapshots, ProfileSnapshotFilters(profile))[0];
            && first in w.snapshots && ProfileSnapshot(first, profile)
            && RestoreSpec(e, w, profile, keyName) ==
                 RestoreFromSpec(e, Record(w, Api.DescribeSnapshots, true), profile, first.id, keyName)
  {
    var first := SelectSnapshots(w.snapshots, ProfileSnapshotFilters(profile))[0];
    ProfileFiltersMatch(first, profile);
  }

  /**
   * A restore that answers an instance has launched exactly one, from the
   * image registered for the snapshot, in the default group, with the
   * configured key, and it is running; a restore that fails before the
   * launch has launched nothing.
   */
  lemma RestoreFromOutcome(e: Env, w: World, profile: string, snapshotId: string, keyName: Option<string>)
    ensures var s := RestoreFromSpec(e, w, profile, snapshotId, keyName);
            var ami := Ec2.RegisterAmiSpec(e, w, snapshotId);
            var sg := Ec2.SecurityGroupSpec(e, ami.world, Ec2.DefaultGroupName);
            && s.result != Ok(None)
            && (ami.result.Err? || sg.result.Err? || keyName.None? ==>
                  s.result.Err? && s.world.instances == w.instances)
            && (s.result.Ok? ==>
                  && ami.result.Ok? && sg.result.Ok? && keyName.Some?
                  && s.result.value == Some(MintId("i-", sg.world.nextId))
                  && |s.world.instances| == |w.instances| + 1
                  && s.world.instances[|w.instances|] ==
                       PendingInstance(MintId("i-", sg.world.nextId), ami.result.value, Ec2.DefaultInstanceType,
                                       [sg.result.value], keyName, Ec2.LaunchTags(profile),
                                       MintId("vol-", sg.world.nextId)).(state := Ec2StatusChecker.Running))
  {
    var ami := Ec2.RegisterAmiSpec(e, w, snapshotId);
    var sg := Ec2.SecurityGroupSpec(e, ami.world, Ec2.DefaultGroupName);
    if ami.result.Ok? && sg.result.Ok? && keyName.Some? {
      Ec2.LaunchOutcome(e, sg.world, profile, ami.result.value, Ec2.DefaultInstanceType, sg.result.value, keyName.value);
    }
  }

  /**
   * A restore from a snapshot takes no lock and launches at most one
   * instance, none without a key; the instance it reports is the one it
   * appended, and the profile's search finds it.
   */
  lemma RestoreFromEffects(e: Env, w: World, profile: string, snapshotId: string, keyName: Option<string>)
    ensures var s := RestoreFromSpec(e, w, profile, snapshotId, keyName);
            && Ec2Only(w, s.world) && s.result != Ok(None)
            && |w.instances| <= |s.world.instances| <= |w.instances| + 1
            && (keyName.None? ==> s.result.Err? && s.world.instances == w.instances)
            && (s.result.Ok? ==>
                  && |s.world.instances| == |w.instances| + 1
                  && var x := s.world.instances[|w.instances|];
                     x.id == s.result.value.value && x.state == Ec2StatusChecker.Running && Ec2.Live(x, profile))
  {
    var ami := Ec2.RegisterAmiSpec(e, w, snapshotId);
    Ec2.RegisterAmiQuiet(e, w, snapshotId);
    RestoreFromOutcome(e, w, profile, snapshotId, keyName);
    if ami.result.Ok? {
      var sg := Ec2.SecurityGroupSpec(e, ami.world, Ec2.DefaultGroupName);
      Ec2.SecurityGroupQuiet(e, ami.world, Ec2.DefaultGroupName);
      Ec2.QuietTrans(w, ami.world, sg.world);
      if sg.result.Ok? && keyName.Some? {
        var l := Ec2.LaunchSpec(e, sg.world, profile, ami.result.value, Ec2.DefaultInstanceType,
                                sg.result.value, keyName.value);
        Ec2.RunAndWaitEc2Only(e, sg.world, ami.result.value, Ec2.DefaultInstanceType, sg.result.value,
                              keyName, Ec2.LaunchTags(profile));
        Ec2OnlyTrans(w, sg.world, l.world);
        if l.result.Ok? {
          Ec2.LaunchedIsLive(l.world.instances[|w.instances|], profile);
        }
      }
    }
  }

  /**
   * TryRestoreFromSnapshot takes no lock and launches at most one instance;
   * it launches none when the profile has no snapshot or no key is
   * configured, and the instance it reports is the one it appended, running
   * and found by the profile's search.
   */
  lemma RestoreLaunchesAtMostOne(e: Env, w: World, profile: string, keyName: Option<string>)
    ensures var s := RestoreSpec(e, w, profile, keyName);
            && Ec2Only(w, s.world)
            && |w.instances| <= |s.world.instances| <= |w.instances| + 1
            && (s.result == Ok(None) ==> s.world.instances == w.instances)
            && (keyName.None? ==> s.world.instances == w.instances && (s.result.Ok? ==> s.result == Ok(None)))
            && (s.result.Ok? && s.result.value.Some? ==>
                  && |s.world.instances| == |w.instances| + 1
                  && var x := s.world.instances[|w.instances|];
                     x.id == s.result.value.value && x.state == Ec2StatusChecker.Running && Ec2.Live(x, profile))
  {
    var d := DescribeSnapshotsStep(e, w, ProfileSnapshotFilters(profile));
    RecordEc2Only(w, w, Api.DescribeSnapshots, d.result.Ok?);
    if d.result.Ok? && d.result.value != [] {
      var r := RestoreFromSpec(e, d.world, profile, d.result.value[0].id, keyName);
      RestoreFromEffects(e, d.world, profile, d.result.value[0].id, keyName);
      Ec2OnlyTrans(w, d.world, r.world);
    }
  }

  /**
   * The deregistration loop only removes images, and only those it was
   * given; when it completes, none of them is left.
   */
  lemma DeregisterAllOutcome(e: Env, w: World, ids: seq<string>)
    ensures var g := DeregisterAllSpec(e, w, ids);
            && |w.log| <= |g.world.log|
            && (g.result.Ok? ==> forall id :: id in ids ==> !HasImage(g.world.images, id))
            && (forall x :: x in g.world.images ==> x in w.images)
            && (forall x :: x in w.images && x.id !in ids ==> x in g.world.images)
            && g.world.snapshots == w.snapshots && g.world.instances == w.instances
            && (forall c :: c in g.world.log[|w.log|..] ==> c.api.DeregisterImage?)
            && g.world.log[..|w.log|] == w.log
  {
    DeregisterAllImages(e, w, ids);
    DeregisterAllLog(e, w, ids);
  }

  /** What the deregistration loop does to the images, snapshots and instances. */
  lemma {:induction false} DeregisterAllImages(e: Env, w: World, ids: seq<string>)
    ensures var g := DeregisterAllSpec(e, w, ids);
            && (g.result.Ok? ==> forall id :: id in ids ==> !HasImage(g.world.images, id))
            && (forall x :: x in g.world.images ==> x in w.images)
            && (forall x :: x in w.images && x.id !in ids ==> x in g.world.images)
            && g.world.snapshots == w.snapshots && g.world.instances == w.instances
    decreases |ids|
  {
    if ids != [] {
      var d := DeregisterImageStep(e, w, ids[0]);
      if d.result {
        DeregisterAllImages(e, d.world, ids[1..]);
        var g := DeregisterAllSpec(e, d.world, ids[1..]);
        forall x | x in w.images && x.id !in ids
          ensures x in g.world.images
        {
          assert x.id != ids[0] && x.id !in ids[1..];
        }
        forall id | id in ids && g.result.Ok?
          ensures !HasImage(g.world.images, id)
        {
          if id !in ids[1..] {
            assert id == ids[0];
          }
        }
      }
    }
  }

  /** The deregistration loop appends DeregisterImage calls to the log and nothing else. */
  lemma {:induction false} DeregisterAllLog(e: Env, w: World, ids: seq<string>)
    ensures var g := DeregisterAllSpec(e, w, ids);
            Extends(w, g.world) && forall c :: c in Issued(w, g.world) ==> c.api.DeregisterImage?
    decreases |ids|
  {
    if ids != [] {
      var d := DeregisterImageStep(e, w, ids[0]);
      var w' := if d.result then w.(images := WithoutImage(w.images, ids[0])) else w;
      RecordIssues(w, w', Api.DeregisterImage(ids[0]), d.result);
      if d.result {
        DeregisterAllLog(e, d.world, ids[1..]);
        IssuedAppend(w, d.world, DeregisterAllSpec(e, d.world, ids[1..]).world);
      }
    }
  }

  /**
   * DeleteSnapshotAndAMIIfExists deletes the snapshot exactly when it
   * succeeds; on success no image at all uses the snapshot any more. Images
   * are only ever removed, and instances are untouched.
   */
  lemma DeleteSnapshotAndAmiOutcome(e: Env, w: World, snapshotId: string)
    ensures var s := DeleteSnapshotAndAmiSpec(e, w, snapshotId);
            && (s.result.Ok? ==> s.world.snapshots == WithoutSnapshot(w.snapshots, snapshotId)
                                 && !HasSnapshot(s.world.snapshots, snapshotId)
                                 && forall x :: x in s.world.images ==> !BackedBy(x, snapshotId))
            && (s.result.Err? ==> s.world.snapshots == w.snapshots)
            && (forall x :: x in s.world.images ==> x in w.images)
            && s.world.instances == w.instances
  {
    var d := DescribeImagesStep(e, w, BackingFilters(snapshotId));
    if d.result.Ok? {
      var g := DeregisterAllSpec(e, d.world, ImageIds(d.result.value));
      DeregisterAllOutcome(e, d.world, ImageIds(d.result.value));
      if g.result.Ok? {
        DeleteSnapshotStepOutcome(e, g.world, snapshotId);
      }
    }
  }

  /** DeleteSnapshot removes the snapshot only when no image uses it. */
  lemma DeleteSnapshotStepOutcome(e: Env, w: World, snapshotId: string)
    ensures var x := DeleteSnapshotStep(e, w, snapshotId);
            && x.world.images == w.images && x.world.instances == w.instances
            && (x.result ==> x.world.snapshots == WithoutSnapshot(w.snapshots, snapshotId)
                             && !HasSnapshot(x.world.snapshots, snapshotId)
                             && forall y :: y in x.world.images ==> !BackedBy(y, snapshotId))
            && (!x.result ==> x.world.snapshots == w.snapshots)
  {
    var x := DeleteSnapshotStep(e, w, snapshotId);
    if x.result {
      forall y | y in w.images
        ensures !BackedBy(y, snapshotId)
      {
        if BackedBy(y, snapshotId) {
          assert ImageMatchesAll(y, [ImageBackedBy(snapshotId)]);
        }
      }
    }
  }

  /**
   * A refused deregistration stops the sweep of that snapshot before any
   * DeleteSnapshot call.
   */
  lemma DeregisterFailureKeepsSnapshot(e: Env, w: World, snapshotId: string)
    requires !Fails(e, Api.DescribeImages)
    requires DeregisterAllSpec(e, Record(w, Api.DescribeImages, true),
                               ImageIds(SelectImages(w.images, BackingFilters(snapshotId)))).result.Err?
    ensures var s := DeleteSnapshotAndAmiSpec(e, w, snapshotId);
            && s.result.Err? && s.world.snapshots == w.snapshots && Extends(w, s.world)
            && forall c :: c in Issued(w, s.world) ==> !c.api.DeleteSnapshot?
  {
    var d := DescribeImagesStep(e, w, BackingFilters(snapshotId));
    assert d.world == Record(w, Api.DescribeImages, true);
    RecordIssues(w, w, Api.DescribeImages, true);
    var ids := ImageIds(SelectImages(w.images, BackingFilters(snapshotId)));
    var g := DeregisterAllSpec(e, d.world, ids);
    DeregisterAllImages(e, d.world, ids);
    DeregisterAllLog(e, d.world, ids);
    IssuedAppend(w, d.world, g.world);
  }

  /**
   * Every snapshot the sweep is given is either reported or gone afterwards;
   * only those snapshots can go; the report lists only them, after what was
   * reported before.
   */
  lemma {:induction false} SweepEachOutcome(e: Env, w: World, ids: seq<string>, reported: seq<string>)
    ensures var s := SweepEachSpec(e, w, ids, reported);
            && |reported| <= |s.result| && s.result[..|reported|] == reported
            && (forall id :: id in s.result[|reported|..] ==> id in ids)
            && (forall id :: id in ids ==> id in s.result || !HasSnapshot(s.world.snapshots, id))
            && (forall x :: x in s.world.snapshots ==> x in w.snapshots)
            && (forall x :: x in w.snapshots && x.id !in ids ==> x in s.world.snapshots)
            && s.world.instances == w.instances
    decreases |ids|
  {
    if ids != [] {
      var d := DeleteSnapshotAndAmiSpec(e, w, ids[0]);
      DeleteSnapshotAndAmiOutcome(e, w, ids[0]);
      var reported' := reported + if d.result.Err? then [ids[0]] else [];
      SweepEachOutcome(e, d.world, ids[1..], reported');
      var s := SweepEachSpec(e, d.world, ids[1..], reported');
      assert s.result[..|reported|] == s.result[..|reported'|][..|reported|];
      forall id | id in s.result[|reported|..]
        ensures id in ids
      {
        var k :| |reported| <= k < |s.result| && s.result[k] == id;
        if k >= |reported'| {
          assert id in s.result[|reported'|..];
        } else {
          assert id == reported'[k];
        }
      }
      forall id | id in ids
        ensures id in s.result || !HasSnapshot(s.world.snapshots, id)
      {
        if id != ids[0] {
          assert id in ids[1..];
        } else if d.result.Err? {
          assert s.result[|reported|] == reported'[|reported|];
        } else {
          assert !HasSnapshot(d.world.snapshots, id);
        }
      }
      forall x | x in w.snapshots && x.id !in ids
        ensures x in s.world.snapshots
      {
        assert x.id != ids[0] && x.id !in ids[1..];
      }
    }
  }

  /** The deregistration loop issues only EC2 calls. */
  lemma {:induction false} DeregisterAllEc2Only(e: Env, w: World, ids: seq<string>)
    ensures Ec2Only(w, DeregisterAllSpec(e, w, ids).world)
    decreases |ids|
  {
    if ids != [] {
      var d := DeregisterImageStep(e, w, ids[0]);
      var w0 := if d.result then w.(images := WithoutImage(w.images, ids[0])) else w;
      RecordEc2Only(w, w0, Api.DeregisterImage(ids[0]), d.result);
      if d.result {
        DeregisterAllEc2Only(e, d.world, ids[1..]);
        Ec2OnlyTrans(w, d.world, DeregisterAllSpec(e, d.world, ids[1..]).world);
      }
    }
  }

  /** Deleting a snapshot and its images issues only EC2 calls. */
  lemma DeleteSnapshotAndAmiEc2Only(e: Env, w: World, snapshotId: string)
    ensures Ec2Only(w, DeleteSnapshotAndAmiSpec(e, w, snapshotId).world)
  {
    var d := DescribeImagesStep(e, w, BackingFilters(snapshotId));
    RecordEc2Only(w, w, Api.DescribeImages, d.result.Ok?);
    if d.result.Ok? {
      var g := DeregisterAllSpec(e, d.world, ImageIds(d.result.value));
      DeregisterAllEc2Only(e, d.world, ImageIds(d.result.value));
      Ec2OnlyTrans(w, d.world, g.world);
      if g.result.Ok? {
        var x := DeleteSnapshotStep(e, g.world, snapshotId);
        var g0 := if x.result then g.world.(snapshots := WithoutSnapshot(g.world.snapshots, snapshotId)) else g.world;
        RecordEc2Only(g.world, g0, Api.DeleteSnapshot(snapshotId), x.result);
        Ec2OnlyTrans(w, g.world, x.world);
      }
    }
  }

  lemma {:induction false} SweepEachEc2Only(e: Env, w: World, ids: seq<string>, reported: seq<string>)
    ensures Ec2Only(w, SweepEachSpec(e, w, ids, reported).world)
    decreases |ids|
  {
    if ids == [] {
      assert Issued(w, w) == [];
    } else {
      var d := DeleteSnapshotAndAmiSpec(e, w, ids[0]);
      DeleteSnapshotAndAmiEc2Only(e, w, ids[0]);
      var reported' := reported + if d.result.Err? then [ids[0]] else [];
      SweepEachEc2Only(e, d.world, ids[1..], reported');
      Ec2OnlyTrans(w, d.world, SweepEachSpec(e, d.world, ids[1..], reported').world);
    }
  }

  /** The cleanup issues only EC2 calls and never touches the lock table. */
  lemma DeleteOldSnapshotsEc2Only(e: Env, w: World, profile: string)
    ensures Ec2Only(w, DeleteOldSnapshotsSpec(e, w, profile).world)
  {
    var d := DescribeSnapshotsStep(e, w, ProfileSnapshotFilters(profile));
    RecordEc2Only(w, w, Api.DescribeSnapshots, d.result.Ok?);
    if d.result.Ok? {
      var ids := SnapshotIds(d.result.value);
      SweepEachEc2Only(e, d.world, ids, []);
      Ec2OnlyTrans(w, d.world, SweepEachSpec(e, d.world, ids, []).world);
    }
  }

  /**
   * DeleteOldSnapshotsByProfile fails only when the search fails, and then
   * deletes nothing. Otherwise every snapshot of the profile, including one
   * a restore has just used, is either deleted or reported, and every other
   * snapshot is kept.
   */
  lemma DeleteOldSnapshotsOutcome(e: Env, w: World, profile: string)
    ensures var s := DeleteOldSnapshotsSpec(e, w, profile);
            && (s.result.Err? <==> Fails(e, Api.DescribeSnapshots))
            && (s.result.Err? ==> s.world == Record(w, Api.DescribeSnapshots, false))
            && (s.result.Ok? ==>
                  && (forall x :: x in w.snapshots && ProfileSnapshot(x, profile) ==>
                        x.id in s.result.value || !HasSnapshot(s.world.snapshots, x.id))
                  && (forall x :: (x in w.snapshots &&
                                    forall y :: y in w.snapshots && ProfileSnapshot(y, profile) ==> y.id != x.id) ==>
                        x in s.world.snapshots)
                  && (forall id :: id in s.result.value ==>
                        exists x :: x in w.snapshots && ProfileSnapshot(x, profile) && x.id == id))
            && s.world.instances == w.instances
  {
    var d := Record(w, Api.DescribeSnapshots, !Fails(e, Api.DescribeSnapshots));
    var ids := SnapshotIds(SelectSnapshots(w.snapshots, ProfileSnapshotFilters(profile)));
    SweepEachOutcome(e, d, ids, []);
    if !Fails(e, Api.DescribeSnapshots) {
      DeleteOldSnapshotsSwept(e, w, profile);
    }
  }

  /** The ids the search yields are exactly those of the profile's snapshots. */
  lemma ProfileSnapshotIds(snaps: seq<Snapshot>, profile: string)
    ensures var ids := SnapshotIds(SelectSnapshots(snaps, ProfileSnapshotFilters(profile)));
            && (forall x :: x in snaps && ProfileSnapshot(x, profile) ==> x.id in ids)
            && (forall id :: id in ids ==> exists x :: x in snaps && ProfileSnapshot(x, profile) && x.id == id)
  {
    var found := SelectSnapshots(snaps, ProfileSnapshotFilters(profile));
    var ids := SnapshotIds(found);
    forall x | x in snaps
      ensures x in found <==> ProfileSnapshot(x, profile)
    {
      ProfileFiltersMatch(x, profile);
    }
    forall x | x in snaps && ProfileSnapshot(x, profile)
      ensures x.id in ids
    {
      var k :| 0 <= k < |found| && found[k] == x;
      assert ids[k] == x.id;
    }
    forall id | id in ids
      ensures exists x :: x in snaps && ProfileSnapshot(x, profile) && x.id == id
    {
      var k :| 0 <= k < |ids| && ids[k] == id;
      assert found[k] in found;
    }
  }

  /** After a successful search, the sweep deletes or reports exactly the profile's snapshots. */
  lemma DeleteOldSnapshotsSwept(e: Env, w: World, profile: string)
    requires !Fails(e, Api.DescribeSnapshots)
    ensures var s := DeleteOldSnapshotsSpec(e, w, profile);
            && s.result.Ok?
            && (forall x :: x in w.snapshots && ProfileSnapshot(x, profile) ==>
                  x.id in s.result.value || !HasSnapshot(s.world.snapshots, x.id))
            && (forall x :: (x in w.snapshots &&
                              forall y :: y in w.snapshots && ProfileSnapshot(y, profile) ==> y.id != x.id) ==>
                  x in s.world.snapshots)
            && (forall id :: id in s.result.value ==>
                  exists x :: x in w.snapshots && ProfileSnapshot(x, profile) && x.id == id)
  {
    var d := Record(w, Api.DescribeSnapshots, true);
    var ids := SnapshotIds(SelectSnapshots(w.snapshots, ProfileSnapshotFilters(profile)));
    ProfileSnapshotIds(w.snapshots, profile);
    SweepEachOutcome(e, d, ids, []);
    var s := SweepEachSpec(e, d, ids, []);
    assert DeleteOldSnapshotsSpec(e, w, profile) == Step(s.world, Ok(s.result));
    forall x | x in w.snapshots && ProfileSnapshot(x, profile)
      ensures x.id in s.result || !HasSnapshot(s.world.snapshots, x.id)
    {
      assert x.id in ids;
    }
    forall x | x in w.snapshots && forall y :: y in w.snapshots && ProfileSnapshot(y, profile) ==> y.id != x.id
      ensures x in s.world.snapshots
    {
      assert x.id !in ids;
    }
    forall id | id in s.result
      ensures exists x :: x in w.snapshots && ProfileSnapshot(x, profile) && x.id == id
    {
      assert id in s.result[0..];
    }
  }
}

/**
 * TryRestoreFromSnapshot of dumie-cli/awsutils/ec2/snapshot.go. Its
 * CreateSnapshot is the same as the internal one and is `Snapshots.CreateSnapshot`.
 */
module LegacySnapshots {
  import opened Wrappers
  import opened Provider
  import Ec2StatusChecker
  import Ec2
  import LegacyEc2
  import Snapshots

  /** The older search: tagged with the profile's name and owned by the account. */
  function NamedSnapshotFilters(profile: string): seq<SnapshotFilter>
  {
    [SnapshotTag("Name", [profile]), SnapshotOwnedBy(OwnedBySelf)]
  }

  /**
   * The older restore; `keyName` is the answer of GenerateKeyPair (None: it
   * failed). The launch it calls uses the fixed key name.
   */
  function RestoreSpec(e: Env, w: World, profile: string, keyName: Option<string>): Step<Outcome<Option<string>>>
  {
    var d := DescribeSnapshotsStep(e, w, NamedSnapshotFilters(profile));
    if d.result.Err? then Step(d.world, Err(d.result.error))
    else if d.result.value == [] then Step(d.world, Ok(None))
    else
      var ami := Ec2.RegisterAmiSpec(e, d.world, d.result.value[0].id);
      if ami.result.Err? then Step(ami.world, Err(ami.result.error))
      else LaunchRestoredSpec(e, ami.world, profile, ami.result.value, keyName)
  }

  /** The older restore once the image is registered: the group, then the launch. */
  function LaunchRestoredSpec(e: Env, w: World, profile: string, amiId: string,
                              keyName: Option<string>): Step<Outcome<Option<string>>>
  {
    var sg := Ec2.SecurityGroupSpec(e, w, Ec2.DefaultGroupName);
    if sg.result.Err? then Step(sg.world, Err(sg.result.error))
    else if keyName.None? then Step(sg.world, Err(KeyPairUnavailable))
    else
      var l := LegacyEc2.LaunchSpec(e, sg.world, profile, amiId, Ec2.DefaultInstanceType, sg.result.value);
      Step(l.world, if l.result.Err? then Err(l.result.error) else Ok(Some(l.result.value)))
  }

  method TryRestoreFromSnapshot(cloud: Cloud, profile: string, keyName: Option<string>)
    returns (r: Outcome<Option<string>>)
    modifies cloud
    ensures Step(cloud.State(), r) == RestoreSpec(cloud.env, old(cloud.State()), profile, keyName)
  {
    var found := cloud.DescribeSnapshotsCall(NamedSnapshotFilters(profile));
    if found.Err? {
      return Err(found.error);
    }
    if found.value == [] {
      return Ok(None);
    }
    var ami := Ec2.RegisterAmiFromSnapshot(cloud, found.value[0].id);
    if ami.Err? {
      return Err(ami.error);
    }
    var sg := Ec2.CreateOrGetSecurityGroup(cloud, Ec2.DefaultGroupName);
    if sg.Err? {
      return Err(sg.error);
    }
    if keyName.None? {
      return Err(KeyPairUnavailable);
    }
    var launched := LegacyEc2.LaunchInstance(cloud, profile, ami.value, Ec2.DefaultInstanceType, sg.value);
    if launched.Err? {
      return Err(launched.error);
    }
    r := Ok(Some(launched.value));
  }

  /**
   * The older search finds the account's snapshots named after the profile
   * whatever their ManagedBy tag, so it finds every snapshot the newer search finds.
   */
  lemma OlderSearchIsWider(x: Snapshot, profile: string)
    ensures SnapshotMatchesAll(x, NamedSnapshotFilters(profile)) <==>
              TagMatches(x.tags, "Name", [profile]) && x.owner == OwnedBySelf
    ensures Snapshots.ProfileSnapshot(x, profile) ==> SnapshotMatchesAll(x, NamedSnapshotFilters(profile))
  {
    var fs := NamedSnapshotFilters(profile);
    assert SnapshotMatchesAll(x, fs) ==> SnapshotMatches(x, fs[0]) && SnapshotMatches(x, fs[1]);
  }

  /**
   * An older restore that answers an instance has launched one running
   * instance from the snapshot's image, tagged with the profile's Name only
   * and using the fixed key; without a key pair nothing is launched.
   */
  lemma RestoreOutcome(e: Env, w: World, profile: string, keyName: Option<string>)
    ensures var s := RestoreSpec(e, w, profile, keyName);
            && (s.result == Ok(None) <==>
                  !Fails(e, Api.DescribeSnapshots) && SelectSnapshots(w.snapshots, NamedSnapshotFilters(profile)) == [])
            && (keyName.None? ==> s.result.Ok? ==> s.result == Ok(None))
            && (keyName.None? || Fails(e, Api.RunInstances) ==> s.world.instances == w.instances)
            && (s.result.Ok? && s.result.value.Some? ==>
                  && |s.world.instances| == |w.instances| + 1
                  && var x := s.world.instances[|w.instances|];
                     && x.id == s.result.value.value && x.tags == [Tag("Name", profile)]
                     && x.keyName == Some(LegacyEc2.KeyName) && x.state == Ec2StatusChecker.Running
                     && x.instanceType == Ec2.DefaultInstanceType)
  {
    var d := DescribeSnapshotsStep(e, w, NamedSnapshotFilters(profile));
    if d.result.Ok? && d.result.value != [] {
      var ami := Ec2.RegisterAmiSpec(e, d.world, d.result.value[0].id);
      Ec2.RegisterAmiQuiet(e, d.world, d.result.value[0].id);
      if ami.result.Ok? {
        LaunchRestoredEffects(e, ami.world, profile, ami.result.value, keyName);
      }
    }
  }

  /**
   * The restore asks for the snapshots first, takes no lock, and launches at
   * most one instance; an instance it launches runs the image registered
   * from the FIRST snapshot named after the profile.
   */
  lemma RestoreEffects(e: Env, w: World, profile: string, keyName: Option<string>)
    ensures var s := RestoreSpec(e, w, profile, keyName);
            var found := SelectSnapshots(w.snapshots, NamedSnapshotFilters(profile));
            && Ec2Only(w, s.world) && |Issued(w, s.world)| >= 1
            && Issued(w, s.world)[0] == Call(Api.DescribeSnapshots, !Fails(e, Api.DescribeSnapshots))
            && |w.instances| <= |s.world.instances| <= |w.instances| + 1
            && (s.result == Ok(None) ==> s.world.instances == w.instances)
            && (|s.world.instances| > |w.instances| ==>
                  && !Fails(e, Api.DescribeSnapshots) && found != []
                  && var ami := Ec2.RegisterAmiSpec(e, Record(w, Api.DescribeSnapshots, true), found[0].id);
                     ami.result.Ok? && s.world.instances[|w.instances|].imageId == ami.result.value)
  {
    var d := DescribeSnapshotsStep(e, w, NamedSnapshotFilters(profile));
    RecordEc2Only(w, w, Api.DescribeSnapshots, d.result.Ok?);
    RecordIssues(w, w, Api.DescribeSnapshots, d.result.Ok?);
    if d.result.Ok? && d.result.value != [] {
      var ami := Ec2.RegisterAmiSpec(e, d.world, d.result.value[0].id);
      Ec2.RegisterAmiQuiet(e, d.world, d.result.value[0].id);
      IssuedAppend(w, d.world, ami.world);
      Ec2OnlyTrans(w, d.world, ami.world);
      if ami.result.Ok? {
        var l := LaunchRestoredSpec(e, ami.world, profile, ami.result.value, keyName);
        LaunchRestoredEffects(e, ami.world, profile, ami.result.value, keyName);
        IssuedAppend(w, ami.world, l.world);
        Ec2OnlyTrans(w, ami.world, l.world);
      }
    }
  }

  /**
   * After the registration the older restore launches at most one instance,
   * none without a key pair or when the run call fails; an instance it
   * reports runs the registered image, carries only the profile's Name tag
   * and the fixed key, and is running.
   */
  lemma LaunchRestoredEffects(e: Env, w: World, profile: string, amiId: string, keyName: Option<string>)
    ensures var s := LaunchRestoredSpec(e, w, profile, amiId, keyName);
            && Ec2Only(w, s.world) && s.result != Ok(None)
            && |w.instances| <= |s.world.instances| <= |w.instances| + 1
            && (keyName.None? ==> s.result.Err?)
            && (keyName.None? || Fails(e, Api.RunInstances) ==> s.world.instances == w.instances)
            && (|s.world.instances| > |w.instances| ==> s.world.instances[|w.instances|].imageId == amiId)
            && (s.result.Ok? ==>
                  && |s.world.instances| == |w.instances| + 1
                  && var x := s.world.instances[|w.instances|];
                     && x.id == s.result.value.value && x.tags == [Tag("Name", profile)]
                     && x.keyName == Some(LegacyEc2.KeyName) && x.state == Ec2StatusChecker.Running
                     && x.instanceType == Ec2.DefaultInstanceType)
  {
    var sg := Ec2.SecurityGroupSpec(e, w, Ec2.DefaultGroupName);
    Ec2.SecurityGroupQuiet(e, w, Ec2.DefaultGroupName);
    if sg.result.Ok? && keyName.Some? {
      var l := LegacyEc2.LaunchSpec(e, sg.world, profile, amiId, Ec2.DefaultInstanceType, sg.result.value);
      Ec2.RunAndWaitEc2Only(e, sg.world, amiId, Ec2.DefaultInstanceType, sg.result.value,
                            Some(LegacyEc2.KeyName), [Tag("Name", profile)]);
      LegacyEc2.LaunchOutcome(e, sg.world, profile, amiId, Ec2.DefaultInstanceType, sg.result.value);
      Ec2OnlyTrans(w, sg.world, l.world);
    }
  }

}
