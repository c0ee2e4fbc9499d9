/**
 * The in-memory stand-in for the AWS account the commands act on: the EC2
 * resources (instances, images, snapshots, security groups, VPCs) and the
 * DynamoDB lock table.
 *
 * Every SDK call the Go code makes is a step function from one `World` to the
 * next, paired with the call's answer; `Cloud` holds a world in its fields and
 * offers each step as a method. Every call appends a `Call` to the log, so the
 * order in which a command issues its calls can be stated over the log.
 * Which calls fail is fixed in advance by `Env.outages`; how instances and the
 * lock table progress while they are polled is `Env.boot` and `Env.table`.
 */
module Provider {
  import opened Wrappers
  import opened Strings
  import Poller
  import Ec2StatusChecker
  import TableStatusChecker

  // ---------------------------------------------------------------- data model

  datatype Tag = Tag(key: string, value: string)

  datatype Owner = OwnedBySelf | OwnedByAmazon | OwnedByOther

  /** A block device mapping: the device name and the volume (instances) or snapshot (images). */
  datatype Device = Device(deviceName: string, id: string)

  datatype Instance = Instance(
    id: string,
    imageId: string,
    instanceType: string,
    securityGroupIds: seq<string>,
    keyName: Option<string>,
    tags: seq<Tag>,
    state: string,
    publicIp: Option<string>,
    launchTime: Option<string>,
    devices: seq<Device>)

  datatype Image = Image(
    id: string,
    name: string,
    owner: Owner,
    state: string,
    creationDate: string,
    devices: seq<Device>)

  datatype Snapshot = Snapshot(
    id: string,
    volumeId: string,
    description: string,
    tags: seq<Tag>,
    owner: Owner,
    startTime: Option<string>,
    volumeSize: nat)

  datatype Rule = Rule(protocol: string, fromPort: int, toPort: int, cidr: string)

  datatype SecurityGroup = SecurityGroup(
    id: string,
    name: string,
    description: string,
    vpcId: string,
    ingress: seq<Rule>)

  datatype Vpc = Vpc(id: string, isDefault: bool)

  /**
   * The `Expires` attribute of a lock item: a whole number of epoch seconds,
   * or Malformed when it is missing or not of number type.
   */
  datatype Expires = Epoch(seconds: int) | Malformed

  /** The provider calls the commands issue. */
  datatype Api =
    | DescribeTable | CreateTable
    | GetItem(lockId: string) | PutItem(lockId: string) | DeleteItem(lockId: string)
    | DescribeInstances | RunInstances | TerminateInstances(instanceId: string)
    | DescribeImages | RegisterImage(imageName: string) | DeregisterImage(imageId: string)
    | DescribeSnapshots | CreateSnapshot(volumeId: string) | DeleteSnapshot(snapshotId: string)
    | DescribeVpcs | DescribeSecurityGroups | CreateSecurityGroup(groupName: string)
    | AuthorizeIngress

  /** One issued call and whether the provider carried it out. */
  datatype Call = Call(api: Api, ok: bool)

  predicate IsDynamoDBCall(api: Api)
  {
    api.DescribeTable? || api.CreateTable? || api.GetItem? || api.PutItem? || api.DeleteItem?
  }

  /** The error values the Go helpers return, one per distinct cause. */
  datatype Error =
    | ApiFailed(api: Api)
    | LockAlreadyHeld(lockId: string)
    | InvalidExpires(lockId: string)
    | UnparsableExpires(lockId: string)
    | LockConditionFailed(lockId: string)
    | LockTimeout(lastError: Error)
    | NoDefaultVpc
    | NoAmazonLinuxAmi
    | InstanceNotFound(instanceId: string)
    | RootVolumeNotFound(instanceId: string)
    | KeyPairUnavailable
    | WaitFailed(result: Poller.WaitResult)
    | InstanceExists(instanceId: string)
    | NoPublicDns(dnsInstanceId: string)
    | NoLiveInstance(profile: string)

  type Outcome<T> = Result<T, Error>

  /**
   * What the account does that the commands do not control: its VPCs, which
   * calls fail, and what the i-th status probe of an instance or of the lock
   * table answers.
   */
  datatype Env = Env(
    vpcs: seq<Vpc>,
    outages: set<Api>,
    boot: (string, nat) -> Ec2StatusChecker.DescribeAnswer,
    table: nat -> TableStatusChecker.TableAnswer)

  /** The account's mutable state and the log of calls issued so far. */
  datatype World = World(
    instances: seq<Instance>,
    images: seq<Image>,
    snapshots: seq<Snapshot>,
    groups: seq<SecurityGroup>,
    tableExists: bool,
    locks: map<string, Expires>,
    nextId: nat,
    log: seq<Call>)

  /** A call's effect: the world after it and its answer. */
  datatype Step<T> = Step(world: World, result: T)

  const RootDevice := "/dev/xvda"
  const ManagedBy := Tag("ManagedBy", "Dumie")

  /** Identifiers the provider hands out: a prefix and a serial number. */
  function MintId(prefix: string, n: nat): string
  {
    prefix + NatToString(n)
  }

  predicate Fails(e: Env, api: Api)
  {
    api in e.outages
  }

  /** The answer of a read-only call: the value, unless the call is down. */
  function Answer<T>(e: Env, api: Api, value: T): Outcome<T>
  {
    if Fails(e, api) then Err(ApiFailed(api)) else Ok(value)
  }

  function Record(w: World, api: Api, ok: bool): World
  {
    w.(log := w.log + [Call(api, ok)])
  }

  // ---------------------------------------------------------------- the call log

  /** `w'` continues `w`: its log is that of `w` with calls appended. */
  predicate Extends(w: World, w': World)
  {
    |w.log| <= |w'.log| && w'.log[..|w.log|] == w.log
  }

  /** The calls issued on the way from `w` to `w'`. */
  function Issued(w: World, w': World): seq<Call>
    requires Extends(w, w')
  {
    w'.log[|w.log|..]
  }

  /** Between `w` and `w'` only EC2 calls were issued and the lock table is as it was. */
  predicate Ec2Only(w: World, w': World)
  {
    && Extends(w, w')
    && (forall c :: c in Issued(w, w') ==> !IsDynamoDBCall(c.api))
    && w'.locks == w.locks && w'.tableExists == w.tableExists
  }

  lemma IssuedAppend(w1: World, w2: World, w3: World)
    requires Extends(w1, w2) && Extends(w2, w3)
    ensures Extends(w1, w3)
    ensures Issued(w1, w3) == Issued(w1, w2) + Issued(w2, w3)
  {
    assert w3.log[..|w1.log|] == w3.log[..|w2.log|][..|w1.log|];
    assert w3.log[|w1.log|..] == w3.log[|w1.log|..|w2.log|] + w3.log[|w2.log|..];
    assert w3.log[|w1.log|..|w2.log|] == w3.log[..|w2.log|][|w1.log|..];
  }

  lemma Ec2OnlyTrans(w1: World, w2: World, w3: World)
    requires Ec2Only(w1, w2) && Ec2Only(w2, w3)
    ensures Ec2Only(w1, w3)
  {
    IssuedAppend(w1, w2, w3);
  }

  /** Recording one call appends exactly that call. */
  lemma RecordIssues(w: World, w': World, api: Api, ok: bool)
    requires w'.log == w.log
    ensures Extends(w, Record(w', api, ok)) && Issued(w, Record(w', api, ok)) == [Call(api, ok)]
  {
  }

  /** An EC2 call that leaves the lock table alone. */
  lemma RecordEc2Only(w: World, w': World, api: Api, ok: bool)
    requires w'.log == w.log && !IsDynamoDBCall(api)
    requires w'.locks == w.locks && w'.tableExists == w.tableExists
    ensures Ec2Only(w, Record(w', api, ok))
  {
    RecordIssues(w, w', api, ok);
  }

  // ---------------------------------------------------------------- filters

  /** The `tag:<key>` filter: some tag with that key has one of the values. */
  predicate TagMatches(tags: seq<Tag>, key: string, values: seq<string>)
  {
    exists t :: t in tags && t.key == key && t.value in values
  }

  datatype InstanceFilter =
    | InstanceTag(key: string, values: seq<string>)
    | InstanceStateIn(states: seq<string>)
    | InstanceIdIs(instanceId: string)

  predicate InstanceMatches(x: Instance, f: InstanceFilter)
  {
    match f
    case InstanceTag(k, vs) => TagMatches(x.tags, k, vs)
    case InstanceStateIn(ss) => x.state in ss
    case InstanceIdIs(id) => x.id == id
  }

  predicate InstanceMatchesAll(x: Instance, fs: seq<InstanceFilter>)
  {
    forall f :: f in fs ==> InstanceMatches(x, f)
  }

  /** DescribeInstances with filters: the matching instances, in the provider's order. */
  function SelectInstances(s: seq<Instance>, fs: seq<InstanceFilter>): (r: seq<Instance>)
    ensures forall x :: x in r <==> x in s && InstanceMatchesAll(x, fs)
    ensures |r| <= |s|
  {
    if s == [] then []
    else (if InstanceMatchesAll(s[0], fs) then [s[0]] else []) + SelectInstances(s[1..], fs)
  }

  datatype ImageFilter =
    | ImageNameIs(name: string)
    | ImageNameLike(prefix: string, suffix: string)
    | ImageStateIs(state: string)
    | ImageOwnedBy(owner: Owner)
    | ImageBackedBy(snapshotId: string)

  /** The image maps some device to the snapshot. */
  predicate BackedBy(x: Image, snapshotId: string)
  {
    exists d :: d in x.devices && d.id == snapshotId
  }

  predicate ImageMatches(x: Image, f: ImageFilter)
  {
    match f
    case ImageNameIs(n) => x.name == n
    case ImageNameLike(p, s) => MatchesStar(x.name, p, s)
    case ImageStateIs(st) => x.state == st
    case ImageOwnedBy(o) => x.owner == o
    case ImageBackedBy(id) => BackedBy(x, id)
  }

  predicate ImageMatchesAll(x: Image, fs: seq<ImageFilter>)
  {
    forall f :: f in fs ==> ImageMatches(x, f)
  }

  function SelectImages(s: seq<Image>, fs: seq<ImageFilter>): (r: seq<Image>)
    ensures forall x :: x in r <==> x in s && ImageMatchesAll(x, fs)
    ensures |r| <= |s|
  {
    if s == [] then []
    else (if ImageMatchesAll(s[0], fs) then [s[0]] else []) + SelectImages(s[1..], fs)
  }

  datatype SnapshotFilter =
    | SnapshotTag(key: string, values: seq<string>)
    | SnapshotOwnedBy(owner: Owner)

  predicate SnapshotMatches(x: Snapshot, f: SnapshotFilter)
  {
    match f
    case SnapshotTag(k, vs) => TagMatches(x.tags, k, vs)
    case SnapshotOwnedBy(o) => x.owner == o
  }

  predicate SnapshotMatchesAll(x: Snapshot, fs: seq<SnapshotFilter>)
  {
    forall f :: f in fs ==> SnapshotMatches(x, f)
  }

  function SelectSnapshots(s: seq<Snapshot>, fs: seq<SnapshotFilter>): (r: seq<Snapshot>)
    ensures forall x :: x in r <==> x in s && SnapshotMatchesAll(x, fs)
    ensures |r| <= |s|
  {
    if s == [] then []
    else (if SnapshotMatchesAll(s[0], fs) then [s[0]] else []) + SelectSnapshots(s[1..], fs)
  }

  function GroupsNamed(s: seq<SecurityGroup>, name: string): (r: seq<SecurityGroup>)
    ensures forall g :: g in r <==> g in s && g.name == name
  {
    if s == [] then []
    else (if s[0].name == name then [s[0]] else []) + GroupsNamed(s[1..], name)
  }

  function DefaultVpcs(s: seq<Vpc>): (r: seq<Vpc>)
    ensures forall v :: v in r <==> v in s && v.isDefault
  {
    if s == [] then []
    else (if s[0].isDefault then [s[0]] else []) + DefaultVpcs(s[1..])
  }

  /** The first instance DescribeInstances returns is the earliest matching one. */
  lemma {:induction false} SelectInstancesFirst(s: seq<Instance>, fs: seq<InstanceFilter>)
    requires SelectInstances(s, fs) != []
    ensures exists k :: 0 <= k < |s| && s[k] == SelectInstances(s, fs)[0] &&
                        forall j :: 0 <= j < k ==> !InstanceMatchesAll(s[j], fs)
  {
    if InstanceMatchesAll(s[0], fs) {
      assert s[0] == SelectInstances(s, fs)[0];
    } else {
      assert SelectInstances(s, fs) == SelectInstances(s[1..], fs);
      SelectInstancesFirst(s[1..], fs);
      var k :| 0 <= k < |s[1..]| && s[1..][k] == SelectInstances(s[1..], fs)[0] &&
               forall j :: 0 <= j < k ==> !InstanceMatchesAll(s[1..][j], fs);
      assert s[k + 1] == SelectInstances(s, fs)[0];
      forall j | 0 <= j < k + 1
        ensures !InstanceMatchesAll(s[j], fs)
      {
        if j > 0 {
          assert s[j] == s[1..][j - 1];
        }
      }
    }
  }

  /** Describing images is done record by record: a concatenation is described part by part. */
  lemma {:induction false} SelectImagesAppend(a: seq<Image>, b: seq<Image>, fs: seq<ImageFilter>)
    ensures SelectImages(a + b, fs) == SelectImages(a, fs) + SelectImages(b, fs)
  {
    if a == [] {
      assert a + b == b;
    } else {
      assert (a + b)[0] == a[0];
      assert (a + b)[1..] == a[1..] + b;
      SelectImagesAppend(a[1..], b, fs);
    }
  }

  // ---------------------------------------------------------------- updates

  predicate HasInstance(s: seq<Instance>, id: string)
  {
    exists x :: x in s && x.id == id
  }

  predicate HasImage(s: seq<Image>, id: string)
  {
    exists x :: x in s && x.id == id
  }

  predicate HasSnapshot(s: seq<Snapshot>, id: string)
  {
    exists x :: x in s && x.id == id
  }

  predicate HasGroup(s: seq<SecurityGroup>, id: string)
  {
    exists g :: g in s && g.id == id
  }

  /** The instances with every record of `id` put in state `state`. */
  function SetState(s: seq<Instance>, id: string, state: string): (r: seq<Instance>)
  {
    seq(|s|, i requires 0 <= i < |s| => if s[i].id == id then s[i].(state := state) else s[i])
  }

  function WithoutImage(s: seq<Image>, id: string): (r: seq<Image>)
    ensures forall x :: x in r <==> x in s && x.id != id
  {
    if s == [] then []
    else (if s[0].id != id then [s[0]] else []) + WithoutImage(s[1..], id)
  }

  function WithoutSnapshot(s: seq<Snapshot>, id: string): (r: seq<Snapshot>)
    ensures forall x :: x in r <==> x in s && x.id != id
  {
    if s == [] then []
    else (if s[0].id != id then [s[0]] else []) + WithoutSnapshot(s[1..], id)
  }

  function AddRule(s: seq<SecurityGroup>, id: string, rule: Rule): (r: seq<SecurityGroup>)
  {
    seq(|s|, i requires 0 <= i < |s| => if s[i].id == id then s[i].(ingress := s[i].ingress + [rule]) else s[i])
  }

  /** The lock item stored under `lockId`, if any. */
  function ItemOf(locks: map<string, Expires>, lockId: string): Option<Expires>
  {
    if lockId in locks then Some(locks[lockId]) else None
  }

  /**
   * The DynamoDB condition `attribute_not_exists(LockID) OR Expires < :now` on
   * the stored item. A comparison with a missing or non-numeric attribute is false.
   */
  predicate ConditionHolds(item: Option<Expires>, now: int)
  {
    item.None? || (item.value.Epoch? && item.value.seconds < now)
  }

  /** The answer of the conditional PutItem. */
  datatype PutOutcome = Written | ConditionFailed | PutFailed

  // ---------------------------------------------------------------- the calls

  function DescribeTableStep(e: Env, w: World): Step<Outcome<bool>>
  {
    var r := Answer(e, Api.DescribeTable, w.tableExists);
    Step(Record(w, Api.DescribeTable, r.Ok?), r)
  }

  /** CreateTable: refused when the table already exists. The new table holds no items. */
  function CreateTableStep(e: Env, w: World): Step<bool>
  {
    var ok := !Fails(e, Api.CreateTable) && !w.tableExists;
    var w' := if ok then w.(tableExists := true, locks := map[]) else w;
    Step(Record(w', Api.CreateTable, ok), ok)
  }

  /** A call on the lock table's items goes through: it is not down and the table exists. */
  predicate ItemCallOk(e: Env, w: World, api: Api)
  {
    !Fails(e, api) && w.tableExists
  }

  /** GetItem: the item's Expires attribute, None when there is no item. */
  function GetItemStep(e: Env, w: World, lockId: string): Step<Outcome<Option<Expires>>>
  {
    var ok := ItemCallOk(e, w, Api.GetItem(lockId));
    Step(Record(w, Api.GetItem(lockId), ok),
         if ok then Ok(ItemOf(w.locks, lockId)) else Err(ApiFailed(Api.GetItem(lockId))))
  }

  /** The conditional PutItem: written only if the key is absent or `Expires < now`. */
  function PutItemIfFreeStep(e: Env, w: World, lockId: string, expires: int, now: int): Step<PutOutcome>
  {
    var r := if !ItemCallOk(e, w, Api.PutItem(lockId)) then PutFailed
             else if ConditionHolds(ItemOf(w.locks, lockId), now) then Written
             else ConditionFailed;
    var w' := if r == Written then w.(locks := w.locks[lockId := Epoch(expires)]) else w;
    Step(Record(w', Api.PutItem(lockId), r == Written), r)
  }

  /** DeleteItem: removes the key whoever holds it; deleting a missing key succeeds. */
  function DeleteItemStep(e: Env, w: World, lockId: string): Step<bool>
  {
    var ok := ItemCallOk(e, w, Api.DeleteItem(lockId));
    var w' := if ok then w.(locks := w.locks - {lockId}) else w;
    Step(Record(w', Api.DeleteItem(lockId), ok), ok)
  }

  function DescribeInstancesStep(e: Env, w: World, fs: seq<InstanceFilter>): Step<Outcome<seq<Instance>>>
  {
    var r := Answer(e, Api.DescribeInstances, SelectInstances(w.instances, fs));
    Step(Record(w, Api.DescribeInstances, r.Ok?), r)
  }

  /** The record of a just-launched instance: pending, with a fresh root volume. */
  function PendingInstance(id: string, imageId: string, instanceType: string, groupIds: seq<string>,
                           keyName: Option<string>, tags: seq<Tag>, volumeId: string): Instance
  {
    Instance(id, imageId, instanceType, groupIds, keyName, tags, Ec2StatusChecker.Pending, None, None,
             [Device(RootDevice, volumeId)])
  }

  /** RunInstances with MinCount = MaxCount = 1. */
  function RunInstancesStep(e: Env, w: World, imageId: string, instanceType: string, groupIds: seq<string>,
                            keyName: Option<string>, tags: seq<Tag>): Step<Outcome<string>>
  {
    var r := Answer(e, Api.RunInstances, MintId("i-", w.nextId));
    var w' := if r.Err? then w
              else w.(instances := w.instances + [PendingInstance(r.value, imageId, instanceType, groupIds,
                                                                  keyName, tags, MintId("vol-", w.nextId))],
                      nextId := w.nextId + 1);
    Step(Record(w', Api.RunInstances, r.Ok?), r)
  }

  /** The account's own progress: the records of instance `id` now show `state`. Not a call. */
  function Settle(w: World, id: string, state: string): World
  {
    w.(instances := SetState(w.instances, id, state))
  }

  /** TerminateInstances: refused for an unknown id; the instance starts shutting down. */
  function TerminateInstancesStep(e: Env, w: World, id: string): Step<bool>
  {
    var ok := !Fails(e, Api.TerminateInstances(id)) && HasInstance(w.instances, id);
    var w' := if ok then Settle(w, id, Ec2StatusChecker.ShuttingDown) else w;
    Step(Record(w', Api.TerminateInstances(id), ok), ok)
  }

  function DescribeImagesStep(e: Env, w: World, fs: seq<ImageFilter>): Step<Outcome<seq<Image>>>
  {
    var r := Answer(e, Api.DescribeImages, SelectImages(w.images, fs));
    Step(Record(w, Api.DescribeImages, r.Ok?), r)
  }

  /** The images the account owns under a name. */
  function OwnImagesNamed(s: seq<Image>, name: string): seq<Image>
  {
    SelectImages(s, [ImageNameIs(name), ImageOwnedBy(OwnedBySelf)])
  }

  /** RegisterImage: refused when the account already owns an image of that name. */
  function RegisterImageStep(e: Env, w: World, name: string, snapshotId: string): Step<Outcome<string>>
  {
    var r := if Fails(e, Api.RegisterImage(name)) || OwnImagesNamed(w.images, name) != []
             then Err(ApiFailed(Api.RegisterImage(name)))
             else Ok(MintId("ami-", w.nextId));
    var w' := if r.Err? then w
              else w.(images := w.images + [Image(r.value, name, OwnedBySelf, "available", "",
                                                  [Device(RootDevice, snapshotId)])],
                      nextId := w.nextId + 1);
    Step(Record(w', Api.RegisterImage(name), r.Ok?), r)
  }

  /** DeregisterImage: refused for an unknown id. */
  function DeregisterImageStep(e: Env, w: World, id: string): Step<bool>
  {
    var ok := !Fails(e, Api.DeregisterImage(id)) && HasImage(w.images, id);
    var w' := if ok then w.(images := WithoutImage(w.images, id)) else w;
    Step(Record(w', Api.DeregisterImage(id), ok), ok)
  }

  function DescribeSnapshotsStep(e: Env, w: World, fs: seq<SnapshotFilter>): Step<Outcome<seq<Snapshot>>>
  {
    var r := Answer(e, Api.DescribeSnapshots, SelectSnapshots(w.snapshots, fs));
    Step(Record(w, Api.DescribeSnapshots, r.Ok?), r)
  }

  /** CreateSnapshot: a new self-owned snapshot of the volume, with the given tags. */
  function CreateSnapshotStep(e: Env, w: World, volumeId: string, description: string,
                              tags: seq<Tag>): Step<Outcome<string>>
  {
    var r := Answer(e, Api.CreateSnapshot(volumeId), MintId("snap-", w.nextId));
    var w' := if r.Err? then w
              else w.(snapshots := w.snapshots + [Snapshot(r.value, volumeId, description, tags,
                                                           OwnedBySelf, None, 0)],
                      nextId := w.nextId + 1);
    Step(Record(w', Api.CreateSnapshot(volumeId), r.Ok?), r)
  }

  /** DeleteSnapshot: refused for an unknown id and for a snapshot a registered image still uses. */
  function DeleteSnapshotStep(e: Env, w: World, id: string): Step<bool>
  {
    var ok := !Fails(e, Api.DeleteSnapshot(id)) && HasSnapshot(w.snapshots, id) &&
              SelectImages(w.images, [ImageBackedBy(id)]) == [];
    var w' := if ok then w.(snapshots := WithoutSnapshot(w.snapshots, id)) else w;
    Step(Record(w', Api.DeleteSnapshot(id), ok), ok)
  }

  /** DescribeVpcs with the filter isDefault = true. */
  function DescribeDefaultVpcsStep(e: Env, w: World): Step<Outcome<seq<Vpc>>>
  {
    var r := Answer(e, Api.DescribeVpcs, DefaultVpcs(e.vpcs));
    Step(Record(w, Api.DescribeVpcs, r.Ok?), r)
  }

  /** DescribeSecurityGroups by group name. */
  function DescribeSecurityGroupsStep(e: Env, w: World, name: string): Step<Outcome<seq<SecurityGroup>>>
  {
    var r := Answer(e, Api.DescribeSecurityGroups, GroupsNamed(w.groups, name));
    Step(Record(w, Api.DescribeSecurityGroups, r.Ok?), r)
  }

  /** CreateSecurityGroup: refused when a group of that name exists. The new group has no rules. */
  function CreateSecurityGroupStep(e: Env, w: World, name: string, description: string,
                                   vpcId: string): Step<Outcome<string>>
  {
    var r := if Fails(e, Api.CreateSecurityGroup(name)) || GroupsNamed(w.groups, name) != []
             then Err(ApiFailed(Api.CreateSecurityGroup(name)))
             else Ok(MintId("sg-", w.nextId));
    var w' := if r.Err? then w
              else w.(groups := w.groups + [SecurityGroup(r.value, name, description, vpcId, [])],
                      nextId := w.nextId + 1);
    Step(Record(w', Api.CreateSecurityGroup(name), r.Ok?), r)
  }

  /** AuthorizeSecurityGroupIngress: adds the rule to the group; refused for an unknown group. */
  function AuthorizeIngressStep(e: Env, w: World, groupId: string, rule: Rule): Step<bool>
  {
    var ok := !Fails(e, Api.AuthorizeIngress) && HasGroup(w.groups, groupId);
    var w' := if ok then w.(groups := AddRule(w.groups, groupId, rule)) else w;
    Step(Record(w', Api.AuthorizeIngress, ok), ok)
  }

  // ---------------------------------------------------------------- the account

  /** The account a command runs against. */
  class Cloud {
    var instances: seq<Instance>
    var images: seq<Image>
    var snapshots: seq<Snapshot>
    var groups: seq<SecurityGroup>
    var tableExists: bool
    var locks: map<string, Expires>
    var nextId: nat
    var log: seq<Call>
    const env: Env

    constructor (w: World, env: Env)
      ensures State() == w && this.env == env
    {
      instances, images, snapshots, groups := w.instances, w.images, w.snapshots, w.groups;
      tableExists, locks, nextId, log := w.tableExists, w.locks, w.nextId, w.log;
      this.env := env;
    }

    function State(): World
      reads this
    {
      World(instances, images, snapshots, groups, tableExists, locks, nextId, log)
    }

    method Become(w: World)
      modifies this
      ensures State() == w
    {
      instances, images, snapshots, groups := w.instances, w.images, w.snapshots, w.groups;
      tableExists, locks, nextId, log := w.tableExists, w.locks, w.nextId, w.log;
    }

    method DescribeTableCall() returns (r: Outcome<bool>)
      modifies this
      ensures Step(State(), r) == DescribeTableStep(env, old(State()))
    {
      var s := DescribeTableStep(env, State());
      Become(s.world);
      r := s.result;
    }

    method CreateTableCall() returns (ok: bool)
      modifies this
      ensures Step(State(), ok) == CreateTableStep(env, old(State()))
    {
      var s := CreateTableStep(env, State());
      Become(s.world);
      ok := s.result;
    }

    method GetItemCall(lockId: string) returns (r: Outcome<Option<Expires>>)
      modifies this
      ensures Step(State(), r) == GetItemStep(env, old(State()), lockId)
    {
      var s := GetItemStep(env, State(), lockId);
      Become(s.world);
      r := s.result;
    }

    method PutItemIfFreeCall(lockId: string, expires: int, now: int) returns (r: PutOutcome)
      modifies this
      ensures Step(State(), r) == PutItemIfFreeStep(env, old(State()), lockId, expires, now)
    {
      var s := PutItemIfFreeStep(env, State(), lockId, expires, now);
      Become(s.world);
      r := s.result;
    }

    method DeleteItemCall(lockId: string) returns (ok: bool)
      modifies this
      ensures Step(State(), ok) == DeleteItemStep(env, old(State()), lockId)
    {
      var s := DeleteItemStep(env, State(), lockId);
      Become(s.world);
      ok := s.result;
    }

    method DescribeInstancesCall(fs: seq<InstanceFilter>) returns (r: Outcome<seq<Instance>>)
      modifies this
      ensures Step(State(), r) == DescribeInstancesStep(env, old(State()), fs)
    {
      var s := DescribeInstancesStep(env, State(), fs);
      Become(s.world);
      r := s.result;
    }

    method RunInstancesCall(imageId: string, instanceType: string, groupIds: seq<string>,
                            keyName: Option<string>, tags: seq<Tag>) returns (r: Outcome<string>)
      modifies this
      ensures Step(State(), r) == RunInstancesStep(env, old(State()), imageId, instanceType, groupIds, keyName, tags)
    {
      var s := RunInstancesStep(env, State(), imageId, instanceType, groupIds, keyName, tags);
      Become(s.world);
      r := s.result;
    }

    method SettleCall(id: string, state: string)
      modifies this
      ensures State() == Settle(old(State()), id, state)
    {
      Become(Settle(State(), id, state));
    }

    method TerminateInstancesCall(id: string) returns (ok: bool)
      modifies this
      ensures Step(State(), ok) == TerminateInstancesStep(env, old(State()), id)
    {
      var s := TerminateInstancesStep(env, State(), id);
      Become(s.world);
      ok := s.result;
    }

    method DescribeImagesCall(fs: seq<ImageFilter>) returns (r: Outcome<seq<Image>>)
      modifies this
      ensures Step(State(), r) == DescribeImagesStep(env, old(State()), fs)
    {
      var s := DescribeImagesStep(env, State(), fs);
      Become(s.world);
      r := s.result;
    }

    method RegisterImageCall(name: string, snapshotId: string) returns (r: Outcome<string>)
      modifies this
      ensures Step(State(), r) == RegisterImageStep(env, old(State()), name, snapshotId)
    {
      var s := RegisterImageStep(env, State(), name, snapshotId);
      Become(s.world);
      r := s.result;
    }

    method DeregisterImageCall(id: string) returns (ok: bool)
      modifies this
      ensures Step(State(), ok) == DeregisterImageStep(env, old(State()), id)
    {
      var s := DeregisterImageStep(env, State(), id);
      Become(s.world);
      ok := s.result;
    }

    method DescribeSnapshotsCall(fs: seq<SnapshotFilter>) returns (r: Outcome<seq<Snapshot>>)
      modifies this
      ensures Step(State(), r) == DescribeSnapshotsStep(env, old(State()), fs)
    {
      var s := DescribeSnapshotsStep(env, State(), fs);
      Become(s.world);
      r := s.result;
    }

    method CreateSnapshotCall(volumeId: string, description: string, tags: seq<Tag>) returns (r: Outcome<string>)
      modifies this
      ensures Step(State(), r) == CreateSnapshotStep(env, old(State()), volumeId, description, tags)
    {
      var s := CreateSnapshotStep(env, State(), volumeId, description, tags);
      Become(s.world);
      r := s.result;
    }

    method DeleteSnapshotCall(id: string) returns (ok: bool)
      modifies this
      ensures Step(State(), ok) == DeleteSnapshotStep(env, old(State()), id)
    {
      var s := DeleteSnapshotStep(env, State(), id);
      Become(s.world);
      ok := s.result;
    }

    method DescribeDefaultVpcsCall() returns (r: Outcome<seq<Vpc>>)
      modifies this
      ensures Step(State(), r) == DescribeDefaultVpcsStep(env, old(State()))
    {
      var s := DescribeDefaultVpcsStep(env, State());
      Become(s.world);
      r := s.result;
    }

    method DescribeSecurityGroupsCall(name: string) returns (r: Outcome<seq<SecurityGroup>>)
      modifies this
      ensures Step(State(), r) == DescribeSecurityGroupsStep(env, old(State()), name)
    {
      var s := DescribeSecurityGroupsStep(env, State(), name);
      Become(s.world);
      r := s.result;
    }

    method CreateSecurityGroupCall(name: string, description: string, vpcId: string) returns (r: Outcome<string>)
      modifies this
      ensures Step(State(), r) == CreateSecurityGroupStep(env, old(State()), name, description, vpcId)
    {
      var s := CreateSecurityGroupStep(env, State(), name, description, vpcId);
      Become(s.world);
      r := s.result;
    }

    method AuthorizeIngressCall(groupId: string, rule: Rule) returns (ok: bool)
      modifies this
      ensures Step(State(), ok) == AuthorizeIngressStep(env, old(State()), groupId, rule)
    {
      var s := AuthorizeIngressStep(env, State(), groupId, rule);
      Become(s.world);
      ok := s.result;
    }
  }
}
