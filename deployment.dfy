/**
 * The older deployment paths: RestoreOrCreateInstance and launchNewInstance of
 * dumie-cli/awsutils/ec2/deployment.go, and the `deploy manual` command of
 * dumie-cli/cmd/manual.go. Both take the profile's lock under the raw profile
 * name with the single-put acquire, and release it on every path after that.
 */
module Deployment {
  import opened Wrappers
  import opened Provider
  import Ec2StatusChecker
  import Lock
  import LegacyLock
  import Ec2
  import LegacyEc2
  import LegacySnapshots

  // ------------------------------------------------------------------ specifications

  /** launchNewInstance: the latest Amazon Linux image, the default group, the key pair, a launch. */
  function LaunchNewSpec(e: Env, w: World, profile: string, keyName: Option<string>): Step<Outcome<string>>
  {
    var ami := Ec2.LatestAmiSpec(e, w);
    if ami.result.Err? then Step(ami.world, Err(ami.result.error))
    else
      var sg := Ec2.SecurityGroupSpec(e, ami.world, Ec2.DefaultGroupName);
      if sg.result.Err? then Step(sg.world, Err(sg.result.error))
      else if keyName.None? then Step(sg.world, Err(KeyPairUnavailable))
      else LegacyEc2.LaunchSpec(e, sg.world, profile, ami.result.value, Ec2.DefaultInstanceType, sg.result.value)
  }

  /** What RestoreOrCreateInstance does while it holds the lock. */
  function DeployLockedSpec(e: Env, w: World, profile: string, keyName: Option<string>): Step<Outcome<string>>
  {
    var found := Ec2.SearchInstanceSpec(e, w, profile);
    if found.result.Err? then Step(found.world, Err(found.result.error))
    else if found.result.value.Some? then Step(found.world, Err(InstanceExists(found.result.value.value)))
    else
      var restored := LegacySnapshots.RestoreSpec(e, found.world, profile, keyName);
      if restored.result.Err? then Step(restored.world, Err(restored.result.error))
      else if restored.result.value.Some? then Step(restored.world, Ok(restored.result.value.value))
      else LaunchNewSpec(e, restored.world, profile, keyName)
  }

  /**
   * RestoreOrCreateInstance at time `now`; `keyName` is the answer of
   * GenerateKeyPair. The release's own error is only printed.
   */
  function RestoreOrCreateSpec(e: Env, w: World, profile: string, now: int,
                               keyName: Option<string>): Step<Outcome<string>>
  {
    var acquired := LegacyLock.AcquireLockSpec(e, w, profile, now);
    if acquired.result.Err? then Step(acquired.world, Err(acquired.result.error))
    else
      var body := DeployLockedSpec(e, acquired.world, profile, keyName);
      var released := Lock.ReleaseLockSpec(e, body.world, profile);
      Step(released.world, body.result)
  }

  /** What `deploy manual` does while it holds the lock: image and group first, then the search. */
  function ManualLockedSpec(e: Env, w: World, profile: string): Step<Outcome<string>>
  {
    var ami := Ec2.LatestAmiSpec(e, w);
    if ami.result.Err? then Step(ami.world, Err(ami.result.error))
    else
      var sg := Ec2.SecurityGroupSpec(e, ami.world, Ec2.DefaultGroupName);
      if sg.result.Err? then Step(sg.world, Err(sg.result.error))
      else
        ManualSearchSpec(e, sg.world, profile, ami.result.value, sg.result.value)
  }

  /** The tail of `deploy manual`: the instance search, then the launch when none is live. */
  function ManualSearchSpec(e: Env, w: World, profile: string, amiId: string, groupId: string): Step<Outcome<string>>
  {
    var found := Ec2.SearchInstanceSpec(e, w, profile);
    if found.result.Err? then Step(found.world, Err(found.result.error))
    else if found.result.value.Some? then Step(found.world, Err(InstanceExists(found.result.value.value)))
    else LegacyEc2.LaunchSpec(e, found.world, profile, amiId, Ec2.DefaultInstanceType, groupId)
  }

  /** `deploy manual <profile>` at time `now`: the answer is what the command reports. */
  function ManualSpec(e: Env, w: World, args: seq<string>, now: int): Step<Outcome<string>>
    requires |args| > 0
  {
    var profile := args[0];
    var acquired := LegacyLock.AcquireLockSpec(e, w, profile, now);
    if acquired.result.Err? then Step(acquired.world, Err(acquired.result.error))
    else
      var body := ManualLockedSpec(e, acquired.world, profile);
      var released := Lock.ReleaseLockSpec(e, body.world, profile);
      Step(released.world, body.result)
  }

  // ------------------------------------------------------------------ the operations

  method LaunchNewInstance(cloud: Cloud, profile: string, keyName: Option<string>) returns (r: Outcome<string>)
    modifies cloud
    ensures Step(cloud.State(), r) == LaunchNewSpec(cloud.env, old(cloud.State()), profile, keyName)
  {
    var ami := Ec2.GetLatestAmazonLinuxAmi(cloud);
    if ami.Err? {
      return Err(ami.error);
    }
    var sg := Ec2.CreateOrGetSecurityGroup(cloud, Ec2.DefaultGroupName);
    if sg.Err? {
      return Err(sg.error);
    }
    if keyName.None? {
      return Err(KeyPairUnavailable);
    }
    r := LegacyEc2.LaunchInstance(cloud, profile, ami.value, Ec2.DefaultInstanceType, sg.value);
  }

  method DeployLocked(cloud: Cloud, profile: string, keyName: Option<string>) returns (r: Outcome<string>)
    modifies cloud
    ensures Step(cloud.State(), r) == DeployLockedSpec(cloud.env, old(cloud.State()), profile, keyName)
  {
    var existing := Ec2.SearchInstance(cloud, profile);
    if existing.Err? {
      return Err(existing.error);
    }
    if existing.value.Some? {
      return Err(InstanceExists(existing.value.value));
    }
    var restored := LegacySnapshots.TryRestoreFromSnapshot(cloud, profile, keyName);
    if restored.Err? {
      return Err(restored.error);
    }
    if restored.value.Some? {
      return Ok(restored.value.value);
    }
    r := LaunchNewInstance(cloud, profile, keyName);
  }

  method RestoreOrCreateInstance(cloud: Cloud, profile: string, now: int, keyName: Option<string>)
    returns (r: Outcome<string>)
    modifies cloud
    ensures Step(cloud.State(), r) == RestoreOrCreateSpec(cloud.env, old(cloud.State()), profile, now, keyName)
  {
    var acquired := LegacyLock.AcquireLock(cloud, profile, now);
    if acquired.Err? {
      return Err(acquired.error);
    }
    r := DeployLocked(cloud, profile, keyName);
    var _ := Lock.ReleaseLock(cloud, profile);
  }

  method ManualLocked(cloud: Cloud, profile: string) returns (r: Outcome<string>)
    modifies cloud
    ensures Step(cloud.State(), r) == ManualLockedSpec(cloud.env, old(cloud.State()), profile)
  {
    var ami := Ec2.GetLatestAmazonLinuxAmi(cloud);
    if ami.Err? {
      return Err(ami.error);
    }
    var sg := Ec2.CreateOrGetSecurityGroup(cloud, Ec2.DefaultGroupName);
    if sg.Err? {
      return Err(sg.error);
    }
    var existing := Ec2.SearchInstance(cloud, profile);
    if existing.Err? {
      return Err(existing.error);
    }
    if existing.value.Some? {
      return Err(InstanceExists(existing.value.value));
    }
    r := LegacyEc2.LaunchInstance(cloud, profile, ami.value, Ec2.DefaultInstanceType, sg.value);
  }

  /** The Run function of `deploy manual`; the profile is the first argument. */
  method Manual(cloud: Cloud, args: seq<string>, now: int) returns (r: Outcome<string>)
    requires |args| > 0
    modifies cloud
    ensures Step(cloud.State(), r) == ManualSpec(cloud.env, old(cloud.State()), args, now)
  {
    var profile := args[0];
    var acquired := LegacyLock.AcquireLock(cloud, profile, now);
    if acquired.Err? {
      return Err(acquired.error);
    }
    r := ManualLocked(cloud, profile);
    var _ := Lock.ReleaseLock(cloud, profile);
  }

  // ------------------------------------------------------------------ properties

  /**
   * launchNewInstance looks up the image first, then the group, then the key,
   * and launches last: an instance is launched only when all three were
   * obtained, from the latest Amazon Linux image, in the default group, as a
   * t2.micro with the fixed key and the Name tag.
   */
  lemma LaunchNewOrder(e: Env, w: World, profile: string, keyName: Option<string>)
    ensures var s := LaunchNewSpec(e, w, profile, keyName);
            var ami := Ec2.LatestAmiSpec(e, w);
            var sg := Ec2.SecurityGroupSpec(e, ami.world, Ec2.DefaultGroupName);
            && Ec2Only(w, s.world) && |Issued(w, s.world)| >= 1
            && Issued(w, s.world)[0] == Call(Api.DescribeImages, !Fails(e, Api.DescribeImages))
            && |w.instances| <= |s.world.instances| <= |w.instances| + 1
            && (|s.world.instances| > |w.instances| ==>
                  && ami.result.Ok? && sg.result.Ok? && keyName.Some?
                  && Issued(w, s.world)[|Issued(w, s.world)| - 1] == Call(Api.RunInstances, true)
                  && var x := s.world.instances[|w.instances|];
                     && x.imageId == ami.result.value && x.securityGroupIds == [sg.result.value]
                     && x.instanceType == Ec2.DefaultInstanceType && x.keyName == Some(LegacyEc2.KeyName)
                     && x.tags == [Tag("Name", profile)])
            && (s.result.Ok? ==> |s.world.instances| == |w.instances| + 1 &&
                                 s.world.instances[|w.instances|].id == s.result.value)
  {
    var ami := Ec2.LatestAmiSpec(e, w);
    Ec2.LatestAmiQuiet(e, w);
    if ami.result.Ok? {
      var sg := Ec2.SecurityGroupSpec(e, ami.world, Ec2.DefaultGroupName);
      Ec2.SecurityGroupQuiet(e, ami.world, Ec2.DefaultGroupName);
      IssuedAppend(w, ami.world, sg.world);
      Ec2OnlyTrans(w, ami.world, sg.world);
      if sg.result.Ok? && keyName.Some? {
        var l := LegacyEc2.LaunchSpec(e, sg.world, profile, ami.result.value, Ec2.DefaultInstanceType, sg.result.value);
        Ec2.RunAndWaitEc2Only(e, sg.world, ami.result.value, Ec2.DefaultInstanceType, sg.result.value,
                              Some(LegacyEc2.KeyName), [Tag("Name", profile)]);
        LegacyEc2.LaunchOutcome(e, sg.world, profile, ami.result.value, Ec2.DefaultInstanceType, sg.result.value);
        IssuedAppend(w, sg.world, l.world);
        Ec2OnlyTrans(w, sg.world, l.world);
      }
    }
  }

  /** An instance already live for the profile is an error: nothing is restored or launched. */
  lemma DeployExistingIsError(e: Env, w: World, profile: string, keyName: Option<string>)
    ensures var s := DeployLockedSpec(e, w, profile, keyName);
            var found := Ec2.SearchInstanceSpec(e, w, profile);
            found.result.Ok? && found.result.value.Some? ==>
              && s.result == Err(InstanceExists(found.result.value.value))
              && Extends(w, s.world) && Issued(w, s.world) == [Call(Api.DescribeInstances, true)]
              && s.world.instances == w.instances
  {
    Ec2.SearchQuiet(e, w, profile);
  }

  /**
   * Restore before create: with no live instance the next call asks for the
   * profile's snapshots, and when that describe fails nothing is launched.
   */
  lemma DeployRestoresFirst(e: Env, w: World, profile: string, keyName: Option<string>)
    ensures var s := DeployLockedSpec(e, w, profile, keyName);
            var found := Ec2.SearchInstanceSpec(e, w, profile);
            found.result == Ok(None) ==>
              && Extends(w, s.world) && |Issued(w, s.world)| >= 2
              && Issued(w, s.world)[0] == Call(Api.DescribeInstances, true)
              && Issued(w, s.world)[1] == Call(Api.DescribeSnapshots, !Fails(e, Api.DescribeSnapshots))
              && (Fails(e, Api.DescribeSnapshots) ==> s.result.Err? && s.world.instances == w.instances)
  {
    var found := Ec2.SearchInstanceSpec(e, w, profile);
    Ec2.SearchQuiet(e, w, profile);
    if found.result == Ok(None) {
      var restored := LegacySnapshots.RestoreSpec(e, found.world, profile, keyName);
      LegacySnapshots.RestoreEffects(e, found.world, profile, keyName);
      IssuedAppend(w, found.world, restored.world);
      if restored.result == Ok(None) {
        var l := LaunchNewSpec(e, restored.world, profile, keyName);
        LaunchNewOrder(e, restored.world, profile, keyName);
        IssuedAppend(w, restored.world, l.world);
        assert Issued(w, l.world)[1] == Issued(found.world, restored.world)[0];
      }
    }
  }

  /**
   * The deploy takes no lock of its own and launches at most one instance.
   * With a snapshot named after the profile, a launched instance runs the
   * image registered from that snapshot; only without one is the latest
   * Amazon Linux image launched.
   */
  lemma DeployLaunchesOnce(e: Env, w: World, profile: string, keyName: Option<string>)
    ensures var s := DeployLockedSpec(e, w, profile, keyName);
            var snaps := SelectSnapshots(w.snapshots, LegacySnapshots.NamedSnapshotFilters(profile));
            var w2 := Record(Record(w, Api.DescribeInstances, true), Api.DescribeSnapshots, true);
            && Ec2Only(w, s.world)
            && |w.instances| <= |s.world.instances| <= |w.instances| + 1
            && (|s.world.instances| > |w.instances| && snaps != [] ==>
                  s.world.instances[|w.instances|].imageId == Ec2.RegisterAmiSpec(e, w2, snaps[0].id).result.value)
            && (|s.world.instances| > |w.instances| && snaps == [] ==>
                  s.world.instances[|w.instances|].imageId == Ec2.LatestAmiSpec(e, w2).result.value)
  {
    var found := Ec2.SearchInstanceSpec(e, w, profile);
    Ec2.SearchQuiet(e, w, profile);
    if found.result == Ok(None) {
      var restored := LegacySnapshots.RestoreSpec(e, found.world, profile, keyName);
      LegacySnapshots.RestoreEffects(e, found.world, profile, keyName);
      LegacySnapshots.RestoreOutcome(e, found.world, profile, keyName);
      Ec2OnlyTrans(w, found.world, restored.world);
      if restored.result == Ok(None) {
        var l := LaunchNewSpec(e, restored.world, profile, keyName);
        LaunchNewOrder(e, restored.world, profile, keyName);
        Ec2OnlyTrans(w, restored.world, l.world);
      }
    }
  }

  /** Calls of a run that holds the lock: the put, then only EC2 calls, then the release. */
  predicate LockedRun(calls: seq<Call>, lockId: string)
  {
    && |calls| >= 2
    && calls[0] == Call(Api.PutItem(lockId), true)
    && calls[|calls| - 1].api == Api.DeleteItem(lockId)
    && forall i :: 0 < i < |calls| - 1 ==> !IsDynamoDBCall(calls[i].api)
  }

  /** A run between a successful put and the release, as the log and the lock table see it. */
  lemma ReleaseAfter(e: Env, w: World, a: World, b: World, lockId: string)
    requires Extends(w, a) && Issued(w, a) == [Call(Api.PutItem(lockId), true)]
    requires Ec2Only(a, b)
    ensures var r := Lock.ReleaseLockSpec(e, b, lockId);
            && Extends(w, r.world) && LockedRun(Issued(w, r.world), lockId)
            && r.world.locks - {lockId} == a.locks - {lockId}
            && (r.result.Ok? ==> lockId !in r.world.locks)
  {
    var r := Lock.ReleaseLockSpec(e, b, lockId);
    var ok := ItemCallOk(e, b, Api.DeleteItem(lockId));
    var b0 := if ok then b.(locks := b.locks - {lockId}) else b;
    RecordIssues(b, b0, Api.DeleteItem(lockId), ok);
    IssuedAppend(w, a, b);
    IssuedAppend(w, b, r.world);
    var calls := Issued(w, r.world);
    assert calls == [Call(Api.PutItem(lockId), true)] + Issued(a, b) + [Call(Api.DeleteItem(lockId), ok)];
    forall i | 0 < i < |calls| - 1
      ensures !IsDynamoDBCall(calls[i].api)
    {
      assert calls[i] == Issued(a, b)[i - 1];
      assert calls[i] in Issued(a, b);
    }
  }

  /**
   * RestoreOrCreateInstance takes the lock under the raw profile name with
   * one conditional put. When the put fails it stops there, before any EC2
   * call; otherwise every later exit releases the lock, as the last call,
   * and no other lock call happens in between.
   */
  lemma RestoreOrCreateLockDiscipline(e: Env, w: World, profile: string, now: int, keyName: Option<string>)
    ensures var s := RestoreOrCreateSpec(e, w, profile, now, keyName);
            var acquired := LegacyLock.AcquireLockSpec(e, w, profile, now);
            && Extends(w, s.world)
            && (acquired.result.Err? ==>
                  && s.result == Err(acquired.result.error) && s.world.instances == w.instances
                  && Issued(w, s.world) == [Call(Api.PutItem(profile), false)])
            && (acquired.result.Ok? ==>
                  && LockedRun(Issued(w, s.world), profile)
                  && s.world.locks - {profile} == w.locks - {profile})
  {
    var acquired := LegacyLock.AcquireLockSpec(e, w, profile, now);
    var p := PutItemIfFreeStep(e, w, profile, now + Lock.Ttl, now);
    var p0 := if p.result == Written then w.(locks := w.locks[profile := Epoch(now + Lock.Ttl)]) else w;
    RecordIssues(w, p0, Api.PutItem(profile), p.result == Written);
    if acquired.result.Ok? {
      var body := DeployLockedSpec(e, acquired.world, profile, keyName);
      DeployLaunchesOnce(e, acquired.world, profile, keyName);
      ReleaseAfter(e, w, acquired.world, body.world, profile);
    }
  }

  /**
   * `deploy manual` resolves the image and the group BEFORE it searches for
   * an instance: a failure of either stops it before the search and the
   * launch, and an existing instance stops it after the group may already
   * have been created. An instance is launched only when none is live, from
   * the latest Amazon Linux image, in the default group, as a t2.micro.
   */
  lemma ManualOrder(e: Env, w: World, profile: string)
    ensures var s := ManualLockedSpec(e, w, profile);
            var ami := Ec2.LatestAmiSpec(e, w);
            var sg := Ec2.SecurityGroupSpec(e, ami.world, Ec2.DefaultGroupName);
            var found := Ec2.SearchInstanceSpec(e, sg.world, profile);
            && Ec2Only(w, s.world) && |Issued(w, s.world)| >= 1
            && Issued(w, s.world)[0] == Call(Api.DescribeImages, !Fails(e, Api.DescribeImages))
            && (ami.result.Err? ==> Issued(w, s.world) == [Call(Api.DescribeImages, !Fails(e, Api.DescribeImages))])
            && (ami.result.Ok? && sg.result.Err? ==>
                  forall i :: 1 <= i < |Issued(w, s.world)| ==> Ec2.IsGroupCall(Issued(w, s.world)[i].api))
            && (ami.result.Ok? && sg.result.Ok? && found.result.Ok? && found.result.value.Some? ==>
                  && s.result == Err(InstanceExists(found.result.value.value))
                  && s.world.instances == w.instances && s.world.groups == sg.world.groups)
            && |w.instances| <= |s.world.instances| <= |w.instances| + 1
            && (|s.world.instances| > |w.instances| ==>
                  && ami.result.Ok? && sg.result.Ok? && found.result == Ok(None)
                  && var x := s.world.instances[|w.instances|];
                     && x.imageId == ami.result.value && x.securityGroupIds == [sg.result.value]
                     && x.instanceType == Ec2.DefaultInstanceType && x.tags == [Tag("Name", profile)])
  {
    var s := ManualLockedSpec(e, w, profile);
    var ami := Ec2.LatestAmiSpec(e, w);
    Ec2.LatestAmiQuiet(e, w);
    if ami.result.Ok? {
      var sg := Ec2.SecurityGroupSpec(e, ami.world, Ec2.DefaultGroupName);
      Ec2.SecurityGroupQuiet(e, ami.world, Ec2.DefaultGroupName);
      IssuedAppend(w, ami.world, sg.world);
      Ec2OnlyTrans(w, ami.world, sg.world);
      if sg.result.Err? {
        var calls := Issued(w, sg.world);
        forall i | 1 <= i < |calls|
          ensures Ec2.IsGroupCall(calls[i].api)
        {
          assert calls[i] == Issued(ami.world, sg.world)[i - 1];
          assert calls[i] in Issued(ami.world, sg.world);
        }
      } else {
        ManualSearchOrder(e, sg.world, profile, ami.result.value, sg.result.value);
        IssuedAppend(w, sg.world, s.world);
        Ec2OnlyTrans(w, sg.world, s.world);
      }
    }
  }

  /**
   * After the image and the group: a live instance is reported and nothing
   * changes; otherwise at most one instance is launched, from the given image
   * into the given group, as a t2.micro named after the profile.
   */
  lemma ManualSearchOrder(e: Env, w: World, profile: string, amiId: string, groupId: string)
    ensures var s := ManualSearchSpec(e, w, profile, amiId, groupId);
            var found := Ec2.SearchInstanceSpec(e, w, profile);
            && Ec2Only(w, s.world)
            && (found.result.Ok? && found.result.value.Some? ==>
                  && s.result == Err(InstanceExists(found.result.value.value))
                  && s.world.instances == w.instances && s.world.groups == w.groups)
            && |w.instances| <= |s.world.instances| <= |w.instances| + 1
            && (|s.world.instances| > |w.instances| ==>
                  && found.result == Ok(None)
                  && var x := s.world.instances[|w.instances|];
                     && x.imageId == amiId && x.securityGroupIds == [groupId]
                     && x.instanceType == Ec2.DefaultInstanceType && x.tags == [Tag("Name", profile)])
  {
    var found := Ec2.SearchInstanceSpec(e, w, profile);
    Ec2.SearchQuiet(e, w, profile);
    if found.result == Ok(None) {
      var l := LegacyEc2.LaunchSpec(e, found.world, profile, amiId, Ec2.DefaultInstanceType, groupId);
      Ec2.RunAndWaitEc2Only(e, found.world, amiId, Ec2.DefaultInstanceType, groupId,
                            Some(LegacyEc2.KeyName), [Tag("Name", profile)]);
      Ec2OnlyTrans(w, found.world, l.world);
    }
  }


  /**
   * `deploy manual` holds the lock named after the raw profile: a failed put
   * stops it before any EC2 call, and after a successful one the release is
   * the last call on every path.
   */
  lemma ManualLockDiscipline(e: Env, w: World, args: seq<string>, now: int)
    requires |args| > 0
    ensures var s := ManualSpec(e, w, args, now);
            var acquired := LegacyLock.AcquireLockSpec(e, w, args[0], now);
            && Extends(w, s.world)
            && (acquired.result.Err? ==>
                  s.result.Err? && s.world.instances == w.instances &&
                  Issued(w, s.world) == [Call(Api.PutItem(args[0]), false)])
            && (acquired.result.Ok? ==>
                  && LockedRun(Issued(w, s.world), args[0])
                  && s.world.locks - {args[0]} == w.locks - {args[0]})
  {
    var profile := args[0];
    var acquired := LegacyLock.AcquireLockSpec(e, w, profile, now);
    var p := PutItemIfFreeStep(e, w, profile, now + Lock.Ttl, now);
    var p0 := if p.result == Written then w.(locks := w.locks[profile := Epoch(now + Lock.Ttl)]) else w;
    RecordIssues(w, p0, Api.PutItem(profile), p.result == Written);
    if acquired.result.Ok? {
      var body := ManualLockedSpec(e, acquired.world, profile);
      ManualOrder(e, acquired.world, profile);
      ReleaseAfter(e, w, acquired.world, body.world, profile);
    }
  }
}
