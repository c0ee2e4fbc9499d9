/**
 * The EC2 helpers of internal/aws/ec2/ec2_utils.go. The older copy in
 * dumie-cli/awsutils/ec2/ec2_utils.go and the oldest in
 * dumie-cli/awsutils/ec2_utils.go share every helper here except the launch,
 * whose older forms are in `LegacyEc2`.
 */
module Ec2 {
  import opened Wrappers
  import opened Strings
  import opened Provider
  import Poller
  import opened Ec2StatusChecker

  const DefaultGroupName := "dumie-default-sg"
  const GroupDescription := "Security Group managed by Dumie"
  /** The one ingress rule a new group gets: SSH from anywhere. */
  const SshRule := Rule("tcp", 22, 22, "0.0.0.0/0")
  const DefaultInstanceType := "t2.micro"
  const AmiNamePrefix := "dumie-ami-from-"

  /** Owner amazon, name `amzn2-ami-hvm-*-x86_64-gp2`, state available. */
  const AmazonLinuxFilters := [ImageOwnedBy(OwnedByAmazon), ImageNameLike("amzn2-ami-hvm-", "-x86_64-gp2"),
                               ImageStateIs("available")]

  /** The name of the image registered from a snapshot. */
  function AmiName(snapshotId: string): string
  {
    AmiNamePrefix + snapshotId
  }

  /** SearchEC2Instance's filters: tag Name = profile, state running or pending. */
  function LiveFilters(profile: string): seq<InstanceFilter>
  {
    [InstanceTag("Name", [profile]), InstanceStateIn([Running, Pending])]
  }

  predicate Live(x: Instance, profile: string)
  {
    TagMatches(x.tags, "Name", [profile]) && (x.state == Running || x.state == Pending)
  }

  lemma LiveFiltersMatch(x: Instance, profile: string)
    ensures InstanceMatchesAll(x, LiveFilters(profile)) <==> Live(x, profile)
  {
    var fs := LiveFilters(profile);
    assert InstanceMatchesAll(x, fs) ==> InstanceMatches(x, fs[0]) && InstanceMatches(x, fs[1]);
  }

  // ------------------------------------------------------------------ specifications

  function DefaultVpcIdSpec(e: Env, w: World): Step<Outcome<string>>
  {
    var d := DescribeDefaultVpcsStep(e, w);
    Step(d.world, if d.result.Err? then Err(d.result.error)
                  else if d.result.value == [] then Err(NoDefaultVpc)
                  else Ok(d.result.value[0].id))
  }

  function SecurityGroupSpec(e: Env, w: World, name: string): Step<Outcome<string>>
  {
    var d := DescribeSecurityGroupsStep(e, w, name);
    if d.result.Ok? && d.result.value != [] then Step(d.world, Ok(d.result.value[0].id))
    else
      var v := DefaultVpcIdSpec(e, d.world);
      if v.result.Err? then Step(v.world, Err(v.result.error))
      else CreateGroupSpec(e, v.world, name, v.result.value)
  }

  /** Creating the group in the VPC, then opening SSH on it. */
  function CreateGroupSpec(e: Env, w: World, name: string, vpcId: string): Step<Outcome<string>>
  {
    var c := CreateSecurityGroupStep(e, w, name, GroupDescription, vpcId);
    if c.result.Err? then Step(c.world, Err(c.result.error))
    else
      var a := AuthorizeIngressStep(e, c.world, c.result.value, SshRule);
      Step(a.world, if a.result then Ok(c.result.value) else Err(ApiFailed(Api.AuthorizeIngress)))
  }

  function SearchInstanceSpec(e: Env, w: World, profile: string): Step<Outcome<Option<string>>>
  {
    var d := DescribeInstancesStep(e, w, LiveFilters(profile));
    Step(d.world, if d.result.Err? then Err(d.result.error)
                  else if d.result.value == [] then Ok(None)
                  else Ok(Some(d.result.value[0].id)))
  }

  /** The probe waitForInstanceRunning polls with. */
  function InstanceChecker(e: Env, instanceId: string): Poller.Checker
  {
    NewChecker((i: nat) => e.boot(instanceId, i), instanceId)
  }

  /** The instance record after a wait: it shows the last status the poller saw, if it decided on one. */
  function Observe(w: World, instanceId: string, waited: Poller.WaitResult): World
  {
    match waited
    case Reached(s) => Settle(w, instanceId, s)
    case ErrorState(s) => Settle(w, instanceId, s)
    case _ => w
  }

  function WaitRunningSpec(e: Env, w: World, instanceId: string): Step<Outcome<()>>
  {
    var waited := Poller.Wait(InstanceChecker(e, instanceId));
    Step(Observe(w, instanceId, waited), if waited.Reached? then Ok(()) else Err(WaitFailed(waited)))
  }

  /** Run one instance, then wait for it to be running; shared by both launches that wait. */
  function RunAndWaitSpec(e: Env, w: World, amiId: string, instanceType: string, groupId: string,
                          keyName: Option<string>, tags: seq<Tag>): Step<Outcome<string>>
  {
    var run := RunInstancesStep(e, w, amiId, instanceType, [groupId], keyName, tags);
    if run.result.Err? then Step(run.world, Err(run.result.error))
    else
      var waited := WaitRunningSpec(e, run.world, run.result.value);
      Step(waited.world, if waited.result.Ok? then Ok(run.result.value) else Err(waited.result.error))
  }

  function LaunchTags(profile: string): seq<Tag>
  {
    [Tag("Name", profile), ManagedBy]
  }

  function LaunchSpec(e: Env, w: World, profile: string, amiId: string, instanceType: string,
                      groupId: string, keyName: string): Step<Outcome<string>>
  {
    RunAndWaitSpec(e, w, amiId, instanceType, groupId, Some(keyName), LaunchTags(profile))
  }

  /** The scan of GetLatestAmazonLinuxAMI from position `i`, with the latest so far at `k`. */
  function LatestFrom(imgs: seq<Image>, i: nat, k: nat): (r: nat)
    requires k < |imgs| && i <= |imgs|
    ensures r < |imgs|
    decreases |imgs| - i
  {
    if i == |imgs| then k
    else LatestFrom(imgs, i + 1, if Less(imgs[k].creationDate, imgs[i].creationDate) then i else k)
  }

  function LatestIndex(imgs: seq<Image>): (k: nat)
    requires |imgs| > 0
    ensures k < |imgs|
  {
    LatestFrom(imgs, 0, 0)
  }

  function LatestAmiSpec(e: Env, w: World): Step<Outcome<string>>
  {
    var d := DescribeImagesStep(e, w, AmazonLinuxFilters);
    Step(d.world, if d.result.Err? then Err(d.result.error)
                  else if d.result.value == [] then Err(NoAmazonLinuxAmi)
                  else Ok(d.result.value[LatestIndex(d.result.value)].id))
  }

  /** The volume of the first mapping named `name`. */
  function DeviceVolume(devices: seq<Device>, name: string): Option<string>
  {
    if devices == [] then None
    else if devices[0].deviceName == name then Some(devices[0].id)
    else DeviceVolume(devices[1..], name)
  }

  function RootVolumeSpec(e: Env, w: World, instanceId: string): Step<Outcome<string>>
  {
    var d := DescribeInstancesStep(e, w, [InstanceIdIs(instanceId)]);
    Step(d.world, if d.result.Err? || d.result.value == [] then Err(InstanceNotFound(instanceId))
                  else match DeviceVolume(d.result.value[0].devices, RootDevice)
                    case None => Err(RootVolumeNotFound(instanceId))
                    case Some(v) => Ok(v))
  }

  function TerminateSpec(e: Env, w: World, instanceId: string): Step<Outcome<()>>
  {
    var t := TerminateInstancesStep(e, w, instanceId);
    Step(t.world, if t.result then Ok(()) else Err(ApiFailed(Api.TerminateInstances(instanceId))))
  }

  function RegisterAmiSpec(e: Env, w: World, snapshotId: string): Step<Outcome<string>>
  {
    var name := AmiName(snapshotId);
    var d := DescribeImagesStep(e, w, [ImageNameIs(name), ImageOwnedBy(OwnedBySelf)]);
    if d.result.Ok? && d.result.value != [] then Step(d.world, Ok(d.result.value[0].id))
    else RegisterImageStep(e, d.world, name, snapshotId)
  }

  // ------------------------------------------------------------------ the operations

  /** GetDefaultVPCID: the first default VPC; none is an error. */
  method GetDefaultVpcId(cloud: Cloud) returns (r: Outcome<string>)
    modifies cloud
    ensures Step(cloud.State(), r) == DefaultVpcIdSpec(cloud.env, old(cloud.State()))
  {
    var d := cloud.DescribeDefaultVpcsCall();
    if d.Err? {
      return Err(d.error);
    }
    if d.value == [] {
      return Err(NoDefaultVpc);
    }
    r := Ok(d.value[0].id);
  }

  /** CreateOrGetSecurityGroup: an existing group's id, or a new group in the default VPC opened to SSH. */
  method CreateOrGetSecurityGroup(cloud: Cloud, name: string) returns (r: Outcome<string>)
    modifies cloud
    ensures Step(cloud.State(), r) == SecurityGroupSpec(cloud.env, old(cloud.State()), name)
  {
    var d := cloud.DescribeSecurityGroupsCall(name);
    if d.Ok? && d.value != [] {
      return Ok(d.value[0].id);
    }
    var vpcId := GetDefaultVpcId(cloud);
    if vpcId.Err? {
      return Err(vpcId.error);
    }
    var created := cloud.CreateSecurityGroupCall(name, GroupDescription, vpcId.value);
    if created.Err? {
      return Err(created.error);
    }
    var authorized := cloud.AuthorizeIngressCall(created.value, SshRule);
    if !authorized {
      return Err(ApiFailed(Api.AuthorizeIngress));
    }
    r := Ok(created.value);
  }

  /** SearchEC2Instance: the first running or pending instance named after the profile, if any. */
  method SearchInstance(cloud: Cloud, profile: string) returns (r: Outcome<Option<string>>)
    modifies cloud
    ensures Step(cloud.State(), r) == SearchInstanceSpec(cloud.env, old(cloud.State()), profile)
  {
    var d := cloud.DescribeInstancesCall(LiveFilters(profile));
    if d.Err? {
      return Err(d.error);
    }
    if d.value == [] {
      return Ok(None);
    }
    r := Ok(Some(d.value[0].id));
  }

  /** waitForInstanceRunning: polls the instance; its record then shows what the poller saw. */
  method WaitForInstanceRunning(cloud: Cloud, instanceId: string) returns (r: Outcome<()>)
    modifies cloud
    ensures Step(cloud.State(), r) == WaitRunningSpec(cloud.env, old(cloud.State()), instanceId)
  {
    var waited, _ := Poller.WaitForResourceStatus(InstanceChecker(cloud.env, instanceId));
    match waited {
      case Reached(s) => cloud.SettleCall(instanceId, s);
      case ErrorState(s) => cloud.SettleCall(instanceId, s);
      case _ =>
    }
    r := if waited.Reached? then Ok(()) else Err(WaitFailed(waited));
  }

  method RunAndWait(cloud: Cloud, amiId: string, instanceType: string, groupId: string,
                    keyName: Option<string>, tags: seq<Tag>) returns (r: Outcome<string>)
    modifies cloud
    ensures Step(cloud.State(), r) == RunAndWaitSpec(cloud.env, old(cloud.State()), amiId, instanceType,
                                                     groupId, keyName, tags)
  {
    var run := cloud.RunInstancesCall(amiId, instanceType, [groupId], keyName, tags);
    if run.Err? {
      return Err(run.error);
    }
    var waited := WaitForInstanceRunning(cloud, run.value);
    r := if waited.Ok? then Ok(run.value) else Err(waited.error);
  }

  /** LaunchEC2Instance: one instance tagged Name = profile and ManagedBy = Dumie, returned once running. */
  method LaunchInstance(cloud: Cloud, profile: string, amiId: string, instanceType: string,
                        groupId: string, keyName: string) returns (r: Outcome<string>)
    modifies cloud
    ensures Step(cloud.State(), r) == LaunchSpec(cloud.env, old(cloud.State()), profile, amiId, instanceType,
                                                 groupId, keyName)
  {
    r := RunAndWait(cloud, amiId, instanceType, groupId, Some(keyName), LaunchTags(profile));
  }

  /** The selection loop of GetLatestAmazonLinuxAMI: the last strictly later creation date wins. */
  method LatestImage(imgs: seq<Image>) returns (k: nat)
    requires |imgs| > 0
    ensures k == LatestIndex(imgs)
    ensures k < |imgs| && forall j :: 0 <= j < |imgs| ==> !Less(imgs[k].creationDate, imgs[j].creationDate)
    ensures forall j :: 0 <= j < k ==> Less(imgs[j].creationDate, imgs[k].creationDate)
  {
    k := 0;
    var i := 0;
    while i < |imgs|
      invariant 0 <= i <= |imgs| && k < |imgs|
      invariant LatestFrom(imgs, i, k) == LatestIndex(imgs)
    {
      if Less(imgs[k].creationDate, imgs[i].creationDate) {
        k := i;
      }
      i := i + 1;
    }
    LatestIsLatest(imgs);
  }

  /** GetLatestAmazonLinuxAMI: the Amazon Linux 2 image with the latest creation date. */
  method GetLatestAmazonLinuxAmi(cloud: Cloud) returns (r: Outcome<string>)
    modifies cloud
    ensures Step(cloud.State(), r) == LatestAmiSpec(cloud.env, old(cloud.State()))
  {
    var d := cloud.DescribeImagesCall(AmazonLinuxFilters);
    if d.Err? {
      return Err(d.error);
    }
    if d.value == [] {
      return Err(NoAmazonLinuxAmi);
    }
    var k := LatestImage(d.value);
    r := Ok(d.value[k].id);
  }

  /** The mapping scan of GetRootVolumeID. */
  method FindDevice(devices: seq<Device>, name: string) returns (r: Option<string>)
    ensures r == DeviceVolume(devices, name)
    ensures r.None? <==> forall d :: d in devices ==> d.deviceName != name
    ensures r.Some? ==> exists k :: 0 <= k < |devices| && devices[k] == Device(name, r.value) &&
                                    forall j :: 0 <= j < k ==> devices[j].deviceName != name
  {
    var i := 0;
    while i < |devices|
      invariant 0 <= i <= |devices|
      invariant DeviceVolume(devices[i..], name) == DeviceVolume(devices, name)
      invariant forall j :: 0 <= j < i ==> devices[j].deviceName != name
    {
      if devices[i].deviceName == name {
        DeviceVolumeIsFirst(devices, name);
        return Some(devices[i].id);
      }
      assert devices[i..][1..] == devices[i + 1..];
      i := i + 1;
    }
    DeviceVolumeIsFirst(devices, name);
    r := None;
  }

  /** GetRootVolumeID: the volume mapped at /dev/xvda on the instance. */
  method GetRootVolumeId(cloud: Cloud, instanceId: string) returns (r: Outcome<string>)
    modifies cloud
    ensures Step(cloud.State(), r) == RootVolumeSpec(cloud.env, old(cloud.State()), instanceId)
  {
    var d := cloud.DescribeInstancesCall([InstanceIdIs(instanceId)]);
    if d.Err? || d.value == [] {
      return Err(InstanceNotFound(instanceId));
    }
    var v := FindDevice(d.value[0].devices, RootDevice);
    r := if v.None? then Err(RootVolumeNotFound(instanceId)) else Ok(v.value);
  }

  /** TerminateInstance. */
  method TerminateInstance(cloud: Cloud, instanceId: string) returns (r: Outcome<()>)
    modifies cloud
    ensures Step(cloud.State(), r) == TerminateSpec(cloud.env, old(cloud.State()), instanceId)
  {
    var ok := cloud.TerminateInstancesCall(instanceId);
    r := if ok then Ok(()) else Err(ApiFailed(Api.TerminateInstances(instanceId)));
  }

  /** RegisterAMIFromSnapshot: the image already registered from the snapshot, or a new one. */
  method RegisterAmiFromSnapshot(cloud: Cloud, snapshotId: string) returns (r: Outcome<string>)
    modifies cloud
    ensures Step(cloud.State(), r) == RegisterAmiSpec(cloud.env, old(cloud.State()), snapshotId)
  {
    var name := AmiName(snapshotId);
    var d := cloud.DescribeImagesCall([ImageNameIs(name), ImageOwnedBy(OwnedBySelf)]);
    if d.Ok? && d.value != [] {
      return Ok(d.value[0].id);
    }
    r := cloud.RegisterImageCall(name, snapshotId);
  }

  /** Registering twice from one snapshot in a row: the same image both times, at most one new image. */
  method RegisterTwice(cloud: Cloud, snapshotId: string) returns (first: Outcome<string>, second: Outcome<string>)
    modifies cloud
    ensures |cloud.images| <= |old(cloud.images)| + 1
    ensures first.Ok? && second.Ok? ==> first == second
  {
    ghost var w := cloud.State();
    first := RegisterAmiFromSnapshot(cloud, snapshotId);
    second := RegisterAmiFromSnapshot(cloud, snapshotId);
    RegisterAtMostOnce(cloud.env, w, snapshotId);
  }

  // ------------------------------------------------------------------ properties

  /** The no-VPC case is an error, and an answer is always a default VPC of the account. */
  lemma DefaultVpcOutcome(e: Env, w: World)
    ensures var s := DefaultVpcIdSpec(e, w);
            && (!Fails(e, Api.DescribeVpcs) && DefaultVpcs(e.vpcs) == [] ==> s.result == Err(NoDefaultVpc))
            && (s.result.Ok? ==> exists v :: v in e.vpcs && v.isDefault && v.id == s.result.value)
            && s.world == Record(w, Api.DescribeVpcs, !Fails(e, Api.DescribeVpcs))
  {
    var s := DefaultVpcIdSpec(e, w);
    if s.result.Ok? {
      assert DefaultVpcs(e.vpcs)[0] in DefaultVpcs(e.vpcs);
    }
  }

  /** An existing group is returned as is and nothing is created. */
  lemma ExistingGroupReused(e: Env, w: World, name: string)
    requires !Fails(e, Api.DescribeSecurityGroups) && GroupsNamed(w.groups, name) != []
    ensures SecurityGroupSpec(e, w, name) ==
              Step(Record(w, Api.DescribeSecurityGroups, true), Ok(GroupsNamed(w.groups, name)[0].id))
  {
  }

  /** Without an existing group and without a default VPC, nothing is created and the answer is an error. */
  lemma NoDefaultVpcNoGroup(e: Env, w: World, name: string)
    requires GroupsNamed(w.groups, name) == [] && DefaultVpcs(e.vpcs) == []
    ensures SecurityGroupSpec(e, w, name).result.Err?
    ensures SecurityGroupSpec(e, w, name).world.groups == w.groups
  {
  }

  /**
   * A group that had to be created lives in a default VPC and carries the SSH
   * rule when the call succeeds; when only the ingress call fails, the group
   * stays behind without the rule.
   */
  lemma CreatedGroupOutcome(e: Env, w: World, name: string)
    requires GroupsNamed(w.groups, name) == [] && !Fails(e, Api.DescribeVpcs) && DefaultVpcs(e.vpcs) != []
    requires !Fails(e, Api.CreateSecurityGroup(name))
    ensures var s := SecurityGroupSpec(e, w, name);
            var g := SecurityGroup(MintId("sg-", w.nextId), name, GroupDescription, DefaultVpcs(e.vpcs)[0].id, []);
            && (s.result.Ok? <==> !Fails(e, Api.AuthorizeIngress))
            && (s.result.Ok? ==> s.result.value == g.id && s.world.groups == AddRule(w.groups + [g], g.id, SshRule))
            && (s.result.Err? ==> s.result == Err(ApiFailed(Api.AuthorizeIngress)) && s.world.groups == w.groups + [g])
            && |s.world.groups| == |w.groups| + 1
            && s.world.groups[|w.groups|] == (if s.result.Ok? then g.(ingress := [SshRule]) else g)
  {
    var s := SecurityGroupSpec(e, w, name);
    var g := SecurityGroup(MintId("sg-", w.nextId), name, GroupDescription, DefaultVpcs(e.vpcs)[0].id, []);
    assert (w.groups + [g])[|w.groups|] == g;
    assert HasGroup(w.groups + [g], g.id);
  }

  /** A group id returned is that of a group with the requested name. */
  lemma GroupAnswerIsNamed(e: Env, w: World, name: string)
    ensures var s := SecurityGroupSpec(e, w, name);
            s.result.Ok? ==> exists g :: g in s.world.groups && g.id == s.result.value && g.name == name
  {
    var s := SecurityGroupSpec(e, w, name);
    if s.result.Ok? {
      if !Fails(e, Api.DescribeSecurityGroups) && GroupsNamed(w.groups, name) != [] {
        assert GroupsNamed(w.groups, name)[0] in GroupsNamed(w.groups, name);
      } else {
        var g := SecurityGroup(MintId("sg-", w.nextId), name, GroupDescription, DefaultVpcs(e.vpcs)[0].id, []);
        assert (w.groups + [g])[|w.groups|] == g;
        assert s.world.groups[|w.groups|] == g.(ingress := [SshRule]);
      }
    }
  }

  /**
   * The search looks only at running or pending instances named after the
   * profile: none means there is none, and an answer is the earliest of them.
   */
  lemma SearchFindsLive(e: Env, w: World, profile: string)
    ensures var s := SearchInstanceSpec(e, w, profile);
            && (s.result == Ok(None) <==> !Fails(e, Api.DescribeInstances) && forall x :: x in w.instances ==> !Live(x, profile))
            && (s.result.Ok? && s.result.value.Some? ==>
                  exists k :: 0 <= k < |w.instances| && w.instances[k].id == s.result.value.value &&
                              Live(w.instances[k], profile) &&
                              forall j :: 0 <= j < k ==> !Live(w.instances[j], profile))
            && s.world == Record(w, Api.DescribeInstances, !Fails(e, Api.DescribeInstances))
  {
    var fs := LiveFilters(profile);
    var found := SelectInstances(w.instances, fs);
    forall x | x in w.instances
      ensures x in found <==> Live(x, profile)
    {
      LiveFiltersMatch(x, profile);
    }
    if found != [] {
      SelectInstancesFirst(w.instances, fs);
      var k :| 0 <= k < |w.instances| && w.instances[k] == found[0] &&
               forall j :: 0 <= j < k ==> !InstanceMatchesAll(w.instances[j], fs);
      LiveFiltersMatch(w.instances[k], profile);
      forall j | 0 <= j < k
        ensures !Live(w.instances[j], profile)
      {
        LiveFiltersMatch(w.instances[j], profile);
      }
    }
  }

  /**
   * A launch runs exactly one instance tagged Name = profile and ManagedBy =
   * Dumie; it answers its id only once the poller saw it running, and a poll
   * failure is reported as such.
   */
  lemma LaunchOutcome(e: Env, w: World, profile: string, amiId: string, instanceType: string,
                      groupId: string, keyName: string)
    ensures var s := LaunchSpec(e, w, profile, amiId, instanceType, groupId, keyName);
            var id := MintId("i-", w.nextId);
            var ran := !Fails(e, Api.RunInstances);
            && |s.world.instances| == |w.instances| + (if ran then 1 else 0)
            && s.world.log == w.log + [Call(Api.RunInstances, ran)]
            && (s.result.Ok? <==> ran && Poller.Wait(InstanceChecker(e, id)) == Poller.Reached(Running))
            && (s.result.Ok? ==> s.result.value == id &&
                                 s.world.instances[|w.instances|] ==
                                   PendingInstance(id, amiId, instanceType, [groupId], Some(keyName),
                                                   LaunchTags(profile), MintId("vol-", w.nextId)).(state := Running))
            && (ran && s.result.Err? ==> s.result.error.WaitFailed? && !s.result.error.result.Reached?)
  {
    var id := MintId("i-", w.nextId);
    InstanceWaitOutcome((i: nat) => e.boot(id, i), id);
  }

  /** The scan's loop invariant: everything scanned is no later than `k`, and everything before `k` earlier. */
  /** An instance launched with the profile's tags is found by the profile's search once it runs. */
  lemma LaunchedIsLive(x: Instance, profile: string)
    requires x.tags == LaunchTags(profile) && x.state == Running
    ensures Live(x, profile)
  {
    assert x.tags[0] == Tag("Name", profile);
  }

  lemma {:induction false} LatestFromIsLatest(imgs: seq<Image>, i: nat, k: nat)
    requires k < |imgs| && k <= i <= |imgs|
    requires forall j :: 0 <= j < i ==> !Less(imgs[k].creationDate, imgs[j].creationDate)
    requires forall j :: 0 <= j < k ==> Less(imgs[j].creationDate, imgs[k].creationDate)
    ensures var r := LatestFrom(imgs, i, k);
            && (forall j :: 0 <= j < |imgs| ==> !Less(imgs[r].creationDate, imgs[j].creationDate))
            && (forall j :: 0 <= j < r ==> Less(imgs[j].creationDate, imgs[r].creationDate))
    decreases |imgs| - i
  {
    if i < |imgs| {
      if Less(imgs[k].creationDate, imgs[i].creationDate) {
        forall j | 0 <= j < i
          ensures Less(imgs[j].creationDate, imgs[i].creationDate)
        {
          LessTotal(imgs[j].creationDate, imgs[k].creationDate);
          if Less(imgs[j].creationDate, imgs[k].creationDate) {
            LessTransitive(imgs[j].creationDate, imgs[k].creationDate, imgs[i].creationDate);
          }
        }
        forall j | 0 <= j < i + 1
          ensures !Less(imgs[i].creationDate, imgs[j].creationDate)
        {
          if j < i {
            LessAsymmetric(imgs[j].creationDate, imgs[i].creationDate);
          } else {
            LessIrreflexive(imgs[i].creationDate);
          }
        }
        LatestFromIsLatest(imgs, i + 1, i);
      } else {
        LatestFromIsLatest(imgs, i + 1, k);
      }
    }
  }

  /**
   * The selected image has the maximal creation date by string comparison, and
   * every image before it is strictly earlier: ties keep the first in list order.
   */
  lemma LatestIsLatest(imgs: seq<Image>)
    requires |imgs| > 0
    ensures var k := LatestIndex(imgs);
            && (forall j :: 0 <= j < |imgs| ==> !Less(imgs[k].creationDate, imgs[j].creationDate))
            && (forall j :: 0 <= j < k ==> Less(imgs[j].creationDate, imgs[k].creationDate))
  {
    LatestFromIsLatest(imgs, 0, 0);
  }

  /** Those two properties single out one position: the choice is determined by the dates alone. */
  lemma LatestIsUnique(imgs: seq<Image>, k: nat)
    requires k < |imgs|
    requires forall j :: 0 <= j < |imgs| ==> !Less(imgs[k].creationDate, imgs[j].creationDate)
    requires forall j :: 0 <= j < k ==> Less(imgs[j].creationDate, imgs[k].creationDate)
    ensures k == LatestIndex(imgs)
  {
    LatestIsLatest(imgs);
  }

  /** An empty image list is an error; otherwise the answer is the latest Amazon Linux 2 image. */
  lemma LatestAmiOutcome(e: Env, w: World)
    ensures var s := LatestAmiSpec(e, w);
            var found := SelectImages(w.images, AmazonLinuxFilters);
            && (!Fails(e, Api.DescribeImages) && found == [] ==> s.result == Err(NoAmazonLinuxAmi))
            && (s.result.Ok? ==> exists k :: 0 <= k < |found| && found[k].id == s.result.value &&
                                  ImageMatchesAll(found[k], AmazonLinuxFilters) &&
                                  forall j :: 0 <= j < |found| ==> !Less(found[k].creationDate, found[j].creationDate))
            && s.world == Record(w, Api.DescribeImages, !Fails(e, Api.DescribeImages))
  {
    var found := SelectImages(w.images, AmazonLinuxFilters);
    if !Fails(e, Api.DescribeImages) && found != [] {
      LatestIsLatest(found);
      var k := LatestIndex(found);
      assert found[k] in found;
    }
  }

  /** The device scan answers the first mapping of that name, and none only when there is none. */
  lemma {:induction false} DeviceVolumeIsFirst(devices: seq<Device>, name: string)
    ensures DeviceVolume(devices, name).None? <==> forall d :: d in devices ==> d.deviceName != name
    ensures DeviceVolume(devices, name).Some? ==>
              exists k :: 0 <= k < |devices| && devices[k] == Device(name, DeviceVolume(devices, name).value) &&
                          forall j :: 0 <= j < k ==> devices[j].deviceName != name
  {
    if devices != [] && devices[0].deviceName != name {
      DeviceVolumeIsFirst(devices[1..], name);
      assert forall d :: d in devices ==> d == devices[0] || d in devices[1..];
      if DeviceVolume(devices, name).Some? {
        var k :| 0 <= k < |devices[1..]| && devices[1..][k] == Device(name, DeviceVolume(devices, name).value) &&
                 forall j :: 0 <= j < k ==> devices[1..][j].deviceName != name;
        assert devices[k + 1] == devices[1..][k];
        forall j | 0 <= j < k + 1
          ensures devices[j].deviceName != name
        {
          if j > 0 {
            assert devices[j] == devices[1..][j - 1];
          }
        }
      }
    }
  }

  /** The root volume is that of the /dev/xvda mapping; an unknown instance or a missing mapping is an error. */
  lemma RootVolumeOutcome(e: Env, w: World, instanceId: string)
    ensures var s := RootVolumeSpec(e, w, instanceId);
            var found := SelectInstances(w.instances, [InstanceIdIs(instanceId)]);
            && (Fails(e, Api.DescribeInstances) || found == [] ==> s.result == Err(InstanceNotFound(instanceId)))
            && (s.result.Ok? ==> found != [] && Device(RootDevice, s.result.value) in found[0].devices &&
                                 found[0].id == instanceId)
            && (s.result == Err(RootVolumeNotFound(instanceId)) ==>
                  found != [] && forall d :: d in found[0].devices ==> d.deviceName != RootDevice)
  {
    var found := SelectInstances(w.instances, [InstanceIdIs(instanceId)]);
    if found != [] {
      assert found[0] in found;
      assert InstanceMatches(found[0], InstanceIdIs(instanceId));
      DeviceVolumeIsFirst(found[0].devices, RootDevice);
    }
  }

  /** An image the account already owns under the name is answered without registering anything. */
  lemma RegisterReusesExisting(e: Env, w: World, snapshotId: string)
    requires !Fails(e, Api.DescribeImages) && OwnImagesNamed(w.images, AmiName(snapshotId)) != []
    ensures RegisterAmiSpec(e, w, snapshotId) ==
              Step(Record(w, Api.DescribeImages, true), Ok(OwnImagesNamed(w.images, AmiName(snapshotId))[0].id))
  {
  }

  /** A newly registered image is named after the snapshot and maps /dev/xvda to it. */
  lemma RegisteredImageUsesSnapshot(e: Env, w: World, snapshotId: string)
    ensures var s := RegisterAmiSpec(e, w, snapshotId);
            |s.world.images| > |w.images| ==>
              && |s.world.images| == |w.images| + 1
              && s.world.images[|w.images|] ==
                   Image(s.result.value, AmiName(snapshotId), OwnedBySelf, "available", "", [Device(RootDevice, snapshotId)])
              && s.result.Ok?
  {
  }

  /** Registering from the same snapshot twice in a row registers at most once and answers the same image. */
  lemma RegisterAtMostOnce(e: Env, w: World, snapshotId: string)
    ensures var s1 := RegisterAmiSpec(e, w, snapshotId);
            var s2 := RegisterAmiSpec(e, s1.world, snapshotId);
            && |s2.world.images| <= |w.images| + 1
            && (s1.result.Ok? && s2.result.Ok? ==> s1.result == s2.result)
  {
    var name := AmiName(snapshotId);
    var s1 := RegisterAmiSpec(e, w, snapshotId);
    var fs := [ImageNameIs(name), ImageOwnedBy(OwnedBySelf)];
    if |s1.world.images| > |w.images| {
      var img := Image(s1.result.value, name, OwnedBySelf, "available", "", [Device(RootDevice, snapshotId)]);
      assert s1.world.images == w.images + [img];
      SelectImagesAppend(w.images, [img], fs);
      assert ImageMatchesAll(img, fs);
      assert SelectImages([img], fs) == [img] + SelectImages([], fs);
      assert OwnImagesNamed(s1.world.images, name) == [img];
    } else {
      assert s1.world.images == w.images;
    }
  }

  // ------------------------------------------------------------------ effects on the account

  /** Only EC2 calls, and no instance record changes. */
  predicate Quiet(w: World, w': World)
  {
    Ec2Only(w, w') && w'.instances == w.instances
  }

  lemma QuietTrans(w1: World, w2: World, w3: World)
    requires Quiet(w1, w2) && Quiet(w2, w3)
    ensures Quiet(w1, w3)
  {
    Ec2OnlyTrans(w1, w2, w3);
  }

  /** The image lookup is one describe and touches nothing. */
  lemma LatestAmiQuiet(e: Env, w: World)
    ensures var s := LatestAmiSpec(e, w);
            Quiet(w, s.world) && Issued(w, s.world) == [Call(Api.DescribeImages, !Fails(e, Api.DescribeImages))]
  {
    RecordEc2Only(w, w, Api.DescribeImages, !Fails(e, Api.DescribeImages));
  }

  /** The instance search is one describe and touches nothing. */
  lemma SearchQuiet(e: Env, w: World, profile: string)
    ensures var s := SearchInstanceSpec(e, w, profile);
            Quiet(w, s.world) && Issued(w, s.world) == [Call(Api.DescribeInstances, !Fails(e, Api.DescribeInstances))]
  {
    RecordEc2Only(w, w, Api.DescribeInstances, !Fails(e, Api.DescribeInstances));
  }

  /** The calls the group helper issues. */
  predicate IsGroupCall(api: Api)
  {
    api.DescribeSecurityGroups? || api.DescribeVpcs? || api.CreateSecurityGroup? || api.AuthorizeIngress?
  }

  predicate GroupCallsOnly(w: World, w': World)
  {
    Extends(w, w') && forall c :: c in Issued(w, w') ==> IsGroupCall(c.api)
  }

  lemma GroupCallsStep(w1: World, w2: World, w3: World)
    requires GroupCallsOnly(w1, w2) && Extends(w2, w3) && |Issued(w2, w3)| == 1 && IsGroupCall(Issued(w2, w3)[0].api)
    ensures GroupCallsOnly(w1, w3)
  {
    IssuedAppend(w1, w2, w3);
  }

  /**
   * The group helper may create a group, but issues only group and VPC calls,
   * starting with the group describe, and runs no instance.
   */
  lemma SecurityGroupQuiet(e: Env, w: World, name: string)
    ensures var s := SecurityGroupSpec(e, w, name);
            && Quiet(w, s.world) && |Issued(w, s.world)| >= 1
            && Issued(w, s.world)[0] == Call(Api.DescribeSecurityGroups, !Fails(e, Api.DescribeSecurityGroups))
            && GroupCallsOnly(w, s.world)
  {
    var d := DescribeSecurityGroupsStep(e, w, name);
    RecordEc2Only(w, w, Api.DescribeSecurityGroups, d.result.Ok?);
    if !(d.result.Ok? && d.result.value != []) {
      var v := DefaultVpcIdSpec(e, d.world);
      RecordEc2Only(d.world, d.world, Api.DescribeVpcs, !Fails(e, Api.DescribeVpcs));
      IssuedAppend(w, d.world, v.world);
      Ec2OnlyTrans(w, d.world, v.world);
      GroupCallsStep(w, d.world, v.world);
      if v.result.Ok? {
        var c := CreateGroupSpec(e, v.world, name, v.result.value);
        CreateGroupQuiet(e, v.world, name, v.result.value);
        QuietTrans(w, v.world, c.world);
        IssuedAppend(w, v.world, c.world);
      }
    }
  }

  /** Creating and opening the group issues only group calls and runs no instance. */
  lemma CreateGroupQuiet(e: Env, w: World, name: string, vpcId: string)
    ensures var s := CreateGroupSpec(e, w, name, vpcId);
            Quiet(w, s.world) && GroupCallsOnly(w, s.world)
  {
    var c := CreateSecurityGroupStep(e, w, name, GroupDescription, vpcId);
    var c0 := if c.result.Err? then w else w.(groups := c.world.groups, nextId := w.nextId + 1);
    RecordEc2Only(w, c0, Api.CreateSecurityGroup(name), c.result.Ok?);
    RecordIssues(w, c0, Api.CreateSecurityGroup(name), c.result.Ok?);
    if c.result.Ok? {
      var a := AuthorizeIngressStep(e, c.world, c.result.value, SshRule);
      var a0 := if a.result then c.world.(groups := AddRule(c.world.groups, c.result.value, SshRule))
                else c.world;
      RecordEc2Only(c.world, a0, Api.AuthorizeIngress, a.result);
      IssuedAppend(w, c.world, a.world);
      Ec2OnlyTrans(w, c.world, a.world);
      GroupCallsStep(w, c.world, a.world);
    }
  }

  /** Registering an image from a snapshot runs no instance and starts with the image describe. */
  lemma RegisterAmiQuiet(e: Env, w: World, snapshotId: string)
    ensures var s := RegisterAmiSpec(e, w, snapshotId);
            && Quiet(w, s.world) && |Issued(w, s.world)| >= 1
            && Issued(w, s.world)[0] == Call(Api.DescribeImages, !Fails(e, Api.DescribeImages))
  {
    var name := AmiName(snapshotId);
    var d := DescribeImagesStep(e, w, [ImageNameIs(name), ImageOwnedBy(OwnedBySelf)]);
    RecordEc2Only(w, w, Api.DescribeImages, d.result.Ok?);
    if !(d.result.Ok? && d.result.value != []) {
      var r := RegisterImageStep(e, d.world, name, snapshotId);
      var r0 := if r.result.Err? then d.world
                else d.world.(images := r.world.images, nextId := d.world.nextId + 1);
      RecordEc2Only(d.world, r0, Api.RegisterImage(name), r.result.Ok?);
      IssuedAppend(w, d.world, r.world);
      Ec2OnlyTrans(w, d.world, r.world);
    }
  }

  /**
   * A run-and-wait is one RunInstances call; it adds one instance record
   * when the call succeeds and none otherwise, and leaves the lock table alone.
   */
  lemma RunAndWaitEc2Only(e: Env, w: World, amiId: string, instanceType: string, groupId: string,
                          keyName: Option<string>, tags: seq<Tag>)
    ensures var s := RunAndWaitSpec(e, w, amiId, instanceType, groupId, keyName, tags);
            var ran := !Fails(e, Api.RunInstances);
            && Ec2Only(w, s.world)
            && Issued(w, s.world) == [Call(Api.RunInstances, ran)]
            && |s.world.instances| == |w.instances| + (if ran then 1 else 0)
            && (!ran ==> s.world.instances == w.instances && s.result.Err?)
            && (ran ==> s.world.instances[|w.instances|].imageId == amiId &&
                        s.world.instances[|w.instances|].instanceType == instanceType &&
                        s.world.instances[|w.instances|].securityGroupIds == [groupId] &&
                        s.world.instances[|w.instances|].keyName == keyName &&
                        s.world.instances[|w.instances|].tags == tags)
  {
    var run := RunInstancesStep(e, w, amiId, instanceType, [groupId], keyName, tags);
    var r0 := if run.result.Err? then w
              else w.(instances := run.world.instances, nextId := w.nextId + 1);
    RecordEc2Only(w, r0, Api.RunInstances, run.result.Ok?);
  }
}
