/**
 * The launches of the two older EC2 helper files. Every other helper of
 * dumie-cli/awsutils/ec2/ec2_utils.go and dumie-cli/awsutils/ec2_utils.go is
 * the same as in internal/aws/ec2/ec2_utils.go and is modelled once, in `Ec2`.
 */
module LegacyEc2 {
  import opened Wrappers
  import opened Provider
  import Poller
  import Ec2StatusChecker
  import Ec2

  /** The fixed key pair name of the older code. */
  const KeyName := "dumie-key-pair"

  /** The older LaunchEC2Instance: tag Name only, the fixed key, and a wait for running. */
  function LaunchSpec(e: Env, w: World, profile: string, amiId: string, instanceType: string,
                      groupId: string): Step<Outcome<string>>
  {
    Ec2.RunAndWaitSpec(e, w, amiId, instanceType, groupId, Some(KeyName), [Tag("Name", profile)])
  }

  /** The oldest LaunchEC2Instance: no tags, no key, and no wait. */
  function OldestLaunchSpec(e: Env, w: World, amiId: string, instanceType: string,
                            groupId: string): Step<Outcome<string>>
  {
    RunInstancesStep(e, w, amiId, instanceType, [groupId], None, [])
  }

  method LaunchInstance(cloud: Cloud, profile: string, amiId: string, instanceType: string,
                        groupId: string) returns (r: Outcome<string>)
    modifies cloud
    ensures Step(cloud.State(), r) == LaunchSpec(cloud.env, old(cloud.State()), profile, amiId, instanceType, groupId)
  {
    r := Ec2.RunAndWait(cloud, amiId, instanceType, groupId, Some(KeyName), [Tag("Name", profile)]);
  }

  method OldestLaunchInstance(cloud: Cloud, amiId: string, instanceType: string,
                              groupId: string) returns (r: Outcome<string>)
    modifies cloud
    ensures Step(cloud.State(), r) == OldestLaunchSpec(cloud.env, old(cloud.State()), amiId, instanceType, groupId)
  {
    r := cloud.RunInstancesCall(amiId, instanceType, [groupId], None, []);
  }

  /** The older launch tags only the Name, uses the fixed key, and answers only a running instance. */
  lemma LaunchOutcome(e: Env, w: World, profile: string, amiId: string, instanceType: string, groupId: string)
    ensures var s := LaunchSpec(e, w, profile, amiId, instanceType, groupId);
            var id := MintId("i-", w.nextId);
            && (s.result.Ok? <==> !Fails(e, Api.RunInstances) &&
                                  Poller.Wait(Ec2.InstanceChecker(e, id)) == Poller.Reached(Ec2StatusChecker.Running))
            && (s.result.Ok? ==> s.result.value == id &&
                                 s.world.instances[|w.instances|] ==
                                   PendingInstance(id, amiId, instanceType, [groupId], Some(KeyName),
                                                   [Tag("Name", profile)], MintId("vol-", w.nextId))
                                   .(state := Ec2StatusChecker.Running))
  {
    var id := MintId("i-", w.nextId);
    Ec2StatusChecker.InstanceWaitOutcome((i: nat) => e.boot(id, i), id);
  }

  /**
   * The oldest launch answers the new id straight from the run call: the
   * instance is still pending, untagged and without a key, and nothing is polled.
   */
  lemma OldestLaunchDoesNotWait(e: Env, w: World, amiId: string, instanceType: string, groupId: string)
    ensures var s := OldestLaunchSpec(e, w, amiId, instanceType, groupId);
            && (s.result.Ok? <==> !Fails(e, Api.RunInstances))
            && s.world.log == w.log + [Call(Api.RunInstances, s.result.Ok?)]
            && (s.result.Ok? ==>
                  s.world.instances == w.instances +
                    [PendingInstance(s.result.value, amiId, instanceType, [groupId], None, [], MintId("vol-", w.nextId))])
  {
  }
}
