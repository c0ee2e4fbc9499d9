/**
 * The `use <profile>` command of cmd/use.go: make sure the lock table exists,
 * take the profile's lock (retrying every five seconds for up to ten
 * minutes), reuse the profile's live instance or have one created, and once
 * the instance has a public DNS name sweep the profile's snapshots before
 * connecting. The lock is released on every exit after it was taken.
 *
 * The start time is the parameter `start`; attempt k of the lock happens
 * `k * RetryInterval` seconds after it. createNewInstance restores the
 * profile's snapshot or else launches a fresh instance; the IAM role lookup
 * and the key pair name lookup it depends on are the parameters `role` and
 * `keyName`. GetInstancePublicDNS is not part of this model: its answer is
 * the parameter `dns`.
 */
module UseCommand {
  import opened Wrappers
  import opened Provider
  import Lock
  import Ec2
  import Snapshots

  /** The retry budget and interval of the lock loop, in seconds. */
  const MaxRetryTime: int := 600
  const RetryInterval: int := 5

  /** The largest attempt number: the one made when the elapsed time first reaches the budget. */
  const LastAttempt: nat := 120

  /** The lock id of a profile. */
  function LockIdOf(profile: string): (id: string)
    ensures |id| == |profile| + 8 && id[..8] == "profile-" && id[8..] == profile
  {
    "profile-" + profile
  }

  /** What the command reports before connecting: the instance, its DNS name, and the cleanup's answer. */
  datatype UseReport = UseReport(instanceId: string, publicDns: string, created: bool,
                                 cleanup: Outcome<seq<string>>)

  // ------------------------------------------------------------------ specifications

  /** SearchDynamoDBLockTable, then CreateLockTable when the table is missing. */
  function EnsureTableSpec(e: Env, w: World): Step<Outcome<()>>
  {
    var d := DescribeTableStep(e, w);
    if d.result.Err? then Step(d.world, Err(d.result.error))
    else if d.result.value then Step(d.world, Ok(()))
    else Lock.CreateLockTableSpec(e, d.world)
  }

  /** The lock loop from attempt k on: the attempt that took the lock, or LockTimeout. */
  function AcquireRetrySpec(e: Env, w: World, lockId: string, start: int, k: nat): Step<Outcome<nat>>
    decreases MaxRetryTime - RetryInterval * k
  {
    var a := Lock.AcquireLockSpec(e, w, lockId, start + RetryInterval * k);
    if a.result.Ok? then Step(a.world, Ok(k))
    else if RetryInterval * k >= MaxRetryTime then Step(a.world, Err(LockTimeout(a.result.error)))
    else AcquireRetrySpec(e, a.world, lockId, start, k + 1)
  }

  /**
   * The fresh launch when the profile has no snapshot: the latest Amazon
   * Linux image, the default security group, the key, and a t2.micro launch
   * that waits for running.
   */
  function LaunchFreshSpec(e: Env, w: World, profile: string, keyName: Option<string>): Step<Outcome<string>>
  {
    var ami := Ec2.LatestAmiSpec(e, w);
    if ami.result.Err? then Step(ami.world, Err(ami.result.error))
    else
      var sg := Ec2.SecurityGroupSpec(e, ami.world, Ec2.DefaultGroupName);
      if sg.result.Err? then Step(sg.world, Err(sg.result.error))
      else if keyName.None? then Step(sg.world, Err(KeyPairUnavailable))
      else Ec2.LaunchSpec(e, sg.world, profile, ami.result.value, Ec2.DefaultInstanceType,
                          sg.result.value, keyName.value)
  }

  /**
   * createNewInstance: with the instance role at hand, restore the
   * profile's latest snapshot, or launch afresh when it has none.
   */
  function CreateInstanceSpec(e: Env, w: World, profile: string, role: Outcome<string>,
                              keyName: Option<string>): Step<Outcome<string>>
  {
    if role.Err? then Step(w, Err(role.error))
    else
      var restored := Snapshots.RestoreSpec(e, w, profile, keyName);
      if restored.result.Err? then Step(restored.world, Err(restored.result.error))
      else if restored.result.value.Some? then Step(restored.world, Ok(restored.result.value.value))
      else LaunchFreshSpec(e, restored.world, profile, keyName)
  }

  /** The instance the command connects to, and whether it was created for it. */
  datatype Picked = Picked(instanceId: string, created: bool)

  /** The profile's live instance, or a new one when it has none. */
  function PickInstanceSpec(e: Env, w: World, profile: string, role: Outcome<string>,
                            keyName: Option<string>): Step<Outcome<Picked>>
  {
    var found := Ec2.SearchInstanceSpec(e, w, profile);
    if found.result.Err? then Step(found.world, Err(found.result.error))
    else if found.result.value.Some? then Step(found.world, Ok(Picked(found.result.value.value, false)))
    else
      var c := CreateInstanceSpec(e, found.world, profile, role, keyName);
      Step(c.world, if c.result.Err? then Err(c.result.error) else Ok(Picked(c.result.value, true)))
  }

  /** What the command does while it holds the lock. */
  function UseLockedSpec(e: Env, w: World, profile: string, role: Outcome<string>, keyName: Option<string>,
                         dns: Outcome<string>): Step<Outcome<UseReport>>
  {
    var p := PickInstanceSpec(e, w, profile, role, keyName);
    if p.result.Err? then Step(p.world, Err(p.result.error))
    else
      var id := p.result.value.instanceId;
      if dns.Err? then Step(p.world, Err(dns.error))
      else if dns.value == "" then Step(p.world, Err(NoPublicDns(id)))
      else
        var c := Snapshots.DeleteOldSnapshotsSpec(e, p.world, profile);
        Step(c.world, Ok(UseReport(id, dns.value, p.result.value.created, c.result)))
  }

  /** The whole command; the release's own answer is dropped, as the deferred call drops it. */
  function UseSpec(e: Env, w: World, profile: string, start: int, role: Outcome<string>,
                   keyName: Option<string>, dns: Outcome<string>): Step<Outcome<UseReport>>
  {
    var t := EnsureTableSpec(e, w);
    if t.result.Err? then Step(t.world, Err(t.result.error))
    else
      var a := AcquireRetrySpec(e, t.world, LockIdOf(profile), start, 0);
      if a.result.Err? then Step(a.world, Err(a.result.error))
      else
        var b := UseLockedSpec(e, a.world, profile, role, keyName, dns);
        var r := Lock.ReleaseLockSpec(e, b.world, LockIdOf(profile));
        Step(r.world, b.result)
  }

  // ------------------------------------------------------------------ the operations

  method EnsureTable(cloud: Cloud) returns (r: Outcome<()>)
    modifies cloud
    ensures Step(cloud.State(), r) == EnsureTableSpec(cloud.env, old(cloud.State()))
  {
    var tableFound := Lock.SearchLockTable(cloud);
    if tableFound.Err? {
      return Err(tableFound.error);
    }
    if !tableFound.value {
      r := Lock.CreateLockTable(cloud);
      return;
    }
    r := Ok(());
  }

  /** The retry loop around AcquireLock; the answer is the number of the attempt that succeeded. */
  method AcquireWithRetry(cloud: Cloud, lockId: string, start: int) returns (r: Outcome<nat>)
    modifies cloud
    ensures Step(cloud.State(), r) == AcquireRetrySpec(cloud.env, old(cloud.State()), lockId, start, 0)
  {
    var k: nat := 0;
    while true
      invariant AcquireRetrySpec(cloud.env, cloud.State(), lockId, start, k) ==
                AcquireRetrySpec(cloud.env, old(cloud.State()), lockId, start, 0)
      decreases MaxRetryTime - RetryInterval * k
    {
      ghost var before := cloud.State();
      var err := Lock.AcquireLock(cloud, lockId, start + RetryInterval * k);
      assert AcquireRetrySpec(cloud.env, before, lockId, start, k) ==
             if err.Ok? then Step(cloud.State(), Ok(k))
             else if RetryInterval * k >= MaxRetryTime then Step(cloud.State(), Err(LockTimeout(err.error)))
             else AcquireRetrySpec(cloud.env, cloud.State(), lockId, start, k + 1);
      if err.Ok? {
        return Ok(k);
      }
      var elapsed := RetryInterval * k;
      if elapsed >= MaxRetryTime {
        return Err(LockTimeout(err.error));
      }
      k := k + 1;
    }
  }

  /** launchNewInstance: the fresh launch. */
  method LaunchFresh(cloud: Cloud, profile: string, keyName: Option<string>) returns (r: Outcome<string>)
    modifies cloud
    ensures Step(cloud.State(), r) == LaunchFreshSpec(cloud.env, old(cloud.State()), profile, keyName)
  {
    var ami := Ec2.GetLatestAmazonLinuxAmi(cloud);
    if ami.Err? {
      return Err(ami.error);
    }
    var sg := Ec2.CreateOrGetSecurityGroup(cloud, Ec2.DefaultGroupName);
    if sg.Err? {
      return Err(sg.error);
    }
    if keyName.None? {
      return Err(KeyPairUnavailable);
    }
    r := Ec2.LaunchInstance(cloud, profile, ami.value, Ec2.DefaultInstanceType, sg.value, keyName.value);
  }

  method CreateNewInstance(cloud: Cloud, profile: string, role: Outcome<string>, keyName: Option<string>)
    returns (r: Outcome<string>)
    modifies cloud
    ensures Step(cloud.State(), r) == CreateInstanceSpec(cloud.env, old(cloud.State()), profile, role, keyName)
  {
    if role.Err? {
      return Err(role.error);
    }
    var restored := Snapshots.TryRestoreFromSnapshot(cloud, profile, keyName);
    if restored.Err? {
      return Err(restored.error);
    }
    if restored.value.Some? {
      return Ok(restored.value.value);
    }
    r := LaunchFresh(cloud, profile, keyName);
  }

  method UseLocked(cloud: Cloud, profile: string, role: Outcome<string>, keyName: Option<string>,
                   dns: Outcome<string>) returns (r: Outcome<UseReport>)
    modifies cloud
    ensures Step(cloud.State(), r) == UseLockedSpec(cloud.env, old(cloud.State()), profile, role, keyName, dns)
  {
    var found := Ec2.SearchInstance(cloud, profile);
    if found.Err? {
      return Err(found.error);
    }
    var instanceId: string;
    if found.value.None? {
      var created := CreateNewInstance(cloud, profile, role, keyName);
      if created.Err? {
        return Err(created.error);
      }
      instanceId := created.value;
    } else {
      instanceId := found.value.value;
    }
    if dns.Err? {
      return Err(dns.error);
    }
    if dns.value == "" {
      return Err(NoPublicDns(instanceId));
    }
    var cleanup := Snapshots.DeleteOldSnapshotsByProfile(cloud, profile);
    r := Ok(UseReport(instanceId, dns.value, found.value.None?, cleanup));
  }

  /** The Run function of `use <profile>`, up to the SSH session. */
  method Use(cloud: Cloud, profile: string, start: int, role: Outcome<string>, keyName: Option<string>,
             dns: Outcome<string>) returns (r: Outcome<UseReport>)
    modifies cloud
    ensures Step(cloud.State(), r) == UseSpec(cloud.env, old(cloud.State()), profile, start, role, keyName, dns)
  {
    var table := EnsureTable(cloud);
    if table.Err? {
      return Err(table.error);
    }
    var lockId := LockIdOf(profile);
    var acquired := AcquireWithRetry(cloud, lockId, start);
    if acquired.Err? {
      return Err(acquired.error);
    }
    r := UseLocked(cloud, profile, role, keyName, dns);
    var _ := Lock.ReleaseLock(cloud, lockId);
  }

  // ------------------------------------------------------------------ properties

  predicate TableCall(c: Call)
  {
    c.api == Api.DescribeTable || c.api == Api.CreateTable
  }

  predicate LockCall(c: Call, lockId: string)
  {
    c.api == Api.GetItem(lockId) || c.api == Api.PutItem(lockId)
  }

  /** The EC2 resources are as they were. */
  predicate SameEc2(w: World, w': World)
  {
    w'.instances == w.instances && w'.images == w.images && w'.snapshots == w.snapshots &&
    w'.groups == w.groups && w'.nextId == w.nextId
  }

  /** The time of lock attempt k. */
  function AttemptTime(start: int, k: nat): int
  {
    start + RetryInterval * k
  }

  /**
   * An AcquireLock at `now` would take the lock: the read and the put go
   * through, the item read is readable and the put's condition holds.
   */
  predicate AttemptOk(e: Env, w: World, lockId: string, now: int)
  {
    ItemCallOk(e, w, Api.GetItem(lockId)) && ItemCallOk(e, w, Api.PutItem(lockId)) &&
    Lock.Readable(ItemOf(w.locks, lockId)) && ConditionHolds(ItemOf(w.locks, lockId), now)
  }

  /** Ensuring the table issues only table calls, and a success leaves the table in place. */
  lemma EnsureTableOutcome(e: Env, w: World)
    ensures var t := EnsureTableSpec(e, w);
            && Extends(w, t.world) && (forall c :: c in Issued(w, t.world) ==> TableCall(c))
            && SameEc2(w, t.world)
            && (t.result.Ok? ==> t.world.tableExists)
            && (t.result.Ok? && w.tableExists ==> t.world.locks == w.locks)
  {
    var d := DescribeTableStep(e, w);
    RecordIssues(w, w, Api.DescribeTable, d.result.Ok?);
    if d.result.Ok? && !d.result.value {
      var c := CreateTableStep(e, d.world);
      var w0 := if c.result then d.world.(tableExists := true, locks := map[]) else d.world;
      RecordIssues(d.world, w0, Api.CreateTable, c.result);
      IssuedAppend(w, d.world, c.world);
    }
  }

  /** AcquireLock issues only the read and the put of its own key. */
  lemma AcquireIssues(e: Env, w: World, lockId: string, now: int)
    ensures var a := Lock.AcquireLockSpec(e, w, lockId, now);
            Extends(w, a.world) && forall c :: c in Issued(w, a.world) ==> LockCall(c, lockId)
  {
    var g := GetItemStep(e, w, lockId);
    RecordIssues(w, w, Api.GetItem(lockId), g.result.Ok?);
    var a := Lock.AcquireLockSpec(e, w, lockId, now);
    if a.world != g.world {
      var p := PutItemIfFreeStep(e, g.world, lockId, now + Lock.Ttl, now);
      var w0 := if p.result == Written then g.world.(locks := g.world.locks[lockId := Epoch(now + Lock.Ttl)])
                else g.world;
      RecordIssues(g.world, w0, Api.PutItem(lockId), p.result == Written);
      IssuedAppend(w, g.world, p.world);
    }
  }

  /**
   * The lock loop from attempt k: it takes the lock at the first attempt, up
   * to attempt LastAttempt (600 seconds in), that finds the lock free; it
   * times out exactly when none does. Failed attempts change nothing, and the
   * loop issues only reads and puts of its key.
   */
  lemma {:induction false} RetryOutcome(e: Env, w: World, lockId: string, start: int, k: nat)
    requires k <= LastAttempt
    ensures var s := AcquireRetrySpec(e, w, lockId, start, k);
            && Extends(w, s.world) && (forall c :: c in Issued(w, s.world) ==> LockCall(c, lockId))
            && Lock.SameResources(w, s.world)
            && (s.result.Ok? <==> exists j :: k <= j <= LastAttempt && AttemptOk(e, w, lockId, AttemptTime(start, j)))
            && (s.result.Ok? ==>
                  && k <= s.result.value <= LastAttempt
                  && AttemptOk(e, w, lockId, AttemptTime(start, s.result.value))
                  && (forall j :: k <= j < s.result.value ==> !AttemptOk(e, w, lockId, AttemptTime(start, j)))
                  && s.world.locks == w.locks[lockId := Epoch(AttemptTime(start, s.result.value) + Lock.Ttl)])
            && (s.result.Err? ==> s.result.error.LockTimeout? && s.world.locks == w.locks)
    decreases LastAttempt - k
  {
    var now := AttemptTime(start, k);
    var a := Lock.AcquireLockSpec(e, w, lockId, now);
    Lock.AcquireSucceedsIff(e, w, lockId, now);
    AcquireIssues(e, w, lockId, now);
    if a.result.Err? && k < LastAttempt {
      RetryOutcome(e, a.world, lockId, start, k + 1);
      var s := AcquireRetrySpec(e, a.world, lockId, start, k + 1);
      IssuedAppend(w, a.world, s.world);
      assert forall t :: AttemptOk(e, a.world, lockId, t) == AttemptOk(e, w, lockId, t);
      if s.result.Ok? {
        forall j | k <= j < s.result.value
          ensures !AttemptOk(e, w, lockId, AttemptTime(start, j))
        {
          if j == k {
            assert AttemptTime(start, j) == now;
          }
        }
      }
    }
  }

  /**
   * The lock loop times out only after every attempt found the lock taken;
   * it then has issued only reads and puts of its key and changed nothing.
   */
  lemma RetryTimeout(e: Env, w: World, lockId: string, start: int)
    requires AcquireRetrySpec(e, w, lockId, start, 0).result.Err?
    ensures var a := AcquireRetrySpec(e, w, lockId, start, 0);
            && Extends(w, a.world) && (forall c :: c in Issued(w, a.world) ==> LockCall(c, lockId))
            && SameEc2(w, a.world) && a.world.locks == w.locks && a.result.error.LockTimeout?
            && forall j :: 0 <= j <= LastAttempt ==> !AttemptOk(e, w, lockId, AttemptTime(start, j))
  {
    RetryOutcome(e, w, lockId, start, 0);
  }

  /**
   * A lease of another invocation, taken before this one started, is waited
   * out: the lock is taken at the first attempt after the lease has run out,
   * which always comes within the retry budget.
   */
  lemma LiveLeaseIsWaitedOut(e: Env, w: World, lockId: string, start: int, taken: int)
    requires ItemCallOk(e, w, Api.GetItem(lockId)) && ItemCallOk(e, w, Api.PutItem(lockId))
    requires ItemOf(w.locks, lockId) == Some(Epoch(taken + Lock.Ttl)) && Lock.InInt64(taken + Lock.Ttl) && taken <= start
    ensures var s := AcquireRetrySpec(e, w, lockId, start, 0);
            && s.result.Ok?
            && AttemptTime(start, s.result.value) > taken + Lock.Ttl
            && (s.result.value > 0 ==> AttemptTime(start, s.result.value - 1) <= taken + Lock.Ttl)
  {
    RetryOutcome(e, w, lockId, start, 0);
    var j: nat := if start > taken + Lock.Ttl then 0 else (taken + Lock.Ttl - start) / RetryInterval + 1;
    assert AttemptOk(e, w, lockId, AttemptTime(start, j));
    var s := AcquireRetrySpec(e, w, lockId, start, 0);
    if s.result.value > 0 {
      assert !AttemptOk(e, w, lockId, AttemptTime(start, s.result.value - 1));
    }
  }

  /** A stale lease, expired before the command started, is taken at the first attempt. */
  lemma StaleLeaseTakenAtOnce(e: Env, w: World, lockId: string, start: int, expires: int)
    requires ItemCallOk(e, w, Api.GetItem(lockId)) && ItemCallOk(e, w, Api.PutItem(lockId))
    requires ItemOf(w.locks, lockId) == Some(Epoch(expires)) && Lock.InInt64(expires) && expires < start
    ensures AcquireRetrySpec(e, w, lockId, start, 0).result == Ok(0)
    ensures AcquireRetrySpec(e, w, lockId, start, 0).world.locks == w.locks[lockId := Epoch(start + Lock.Ttl)]
  {
    RetryOutcome(e, w, lockId, start, 0);
    assert AttemptOk(e, w, lockId, AttemptTime(start, 0));
  }

  /** Whether the profile has a running or pending instance named after it. */
  predicate HasLive(w: World, profile: string)
  {
    exists x :: x in w.instances && Ec2.Live(x, profile)
  }

  /** The cleanup was started: its snapshot search was issued. */
  predicate CleanupIssued(calls: seq<Call>)
  {
    exists c :: c in calls && c.api == Api.DescribeSnapshots
  }

  /** At most one instance was added. */
  predicate AtMostOneMore(w: World, w': World)
  {
    |w.instances| <= |w'.instances| <= |w.instances| + 1
  }

  /** Exactly one instance was added: `id`, running and found by the profile's search. */
  predicate AddedLive(w: World, w': World, profile: string, id: string)
  {
    && |w'.instances| == |w.instances| + 1
    && w'.instances[|w.instances|].id == id
    && w'.instances[|w.instances|].state == Ec2StatusChecker.Running
    && Ec2.Live(w'.instances[|w.instances|], profile)
  }

  /**
   * The fresh launch takes no lock and launches at most one instance, none
   * without a key or when the run call fails; the instance it reports is the
   * t2.micro it appended, from the latest Amazon Linux image, with the key,
   * running and found by the profile's search.
   */
  lemma LaunchFreshOutcome(e: Env, w: World, profile: string, keyName: Option<string>)
    ensures var s := LaunchFreshSpec(e, w, profile, keyName);
            && Ec2Only(w, s.world) && AtMostOneMore(w, s.world)
            && (keyName.None? || Fails(e, Api.RunInstances) ==> s.result.Err? && s.world.instances == w.instances)
            && (s.result.Ok? ==>
                  && AddedLive(w, s.world, profile, s.result.value)
                  && var x := s.world.instances[|w.instances|];
                     && Ec2.LatestAmiSpec(e, w).result == Ok(x.imageId)
                     && x.instanceType == Ec2.DefaultInstanceType && x.keyName == keyName)
  {
    var ami := Ec2.LatestAmiSpec(e, w);
    Ec2.LatestAmiQuiet(e, w);
    if ami.result.Ok? {
      var sg := Ec2.SecurityGroupSpec(e, ami.world, Ec2.DefaultGroupName);
      Ec2.SecurityGroupQuiet(e, ami.world, Ec2.DefaultGroupName);
      Ec2.QuietTrans(w, ami.world, sg.world);
      if sg.result.Ok? && keyName.Some? {
        var l := Ec2.LaunchSpec(e, sg.world, profile, ami.result.value, Ec2.DefaultInstanceType,
                                sg.result.value, keyName.value);
        Ec2.RunAndWaitEc2Only(e, sg.world, ami.result.value, Ec2.DefaultInstanceType, sg.result.value,
                              keyName, Ec2.LaunchTags(profile));
        Ec2.LaunchOutcome(e, sg.world, profile, ami.result.value, Ec2.DefaultInstanceType,
                          sg.result.value, keyName.value);
        Ec2OnlyTrans(w, sg.world, l.world);
        if l.result.Ok? {
          Ec2.LaunchedIsLive(l.world.instances[|w.instances|], profile);
        }
      }
    }
  }

  /**
   * createNewInstance takes no lock and adds at most one instance. Without
   * the instance role it does nothing at all; without a key it launches
   * nothing; without a snapshot of the profile it is the fresh launch after
   * the snapshot search. The instance it reports is the one it added,
   * running and found by the profile's search.
   */
  lemma CreateInstanceOutcome(e: Env, w: World, profile: string, role: Outcome<string>, keyName: Option<string>)
    ensures var s := CreateInstanceSpec(e, w, profile, role, keyName);
            && Ec2Only(w, s.world) && AtMostOneMore(w, s.world)
            && (role.Err? ==> s == Step(w, Err(role.error)))
            && (keyName.None? ==> s.result.Err? && s.world.instances == w.instances)
            && (role.Ok? && !Fails(e, Api.DescribeSnapshots) &&
                (forall x :: x in w.snapshots ==> !Snapshots.ProfileSnapshot(x, profile)) ==>
                  s == LaunchFreshSpec(e, Record(w, Api.DescribeSnapshots, true), profile, keyName))
            && (s.result.Ok? ==> AddedLive(w, s.world, profile, s.result.value))
  {
    if role.Ok? {
      var restored := Snapshots.RestoreSpec(e, w, profile, keyName);
      Snapshots.RestoreLaunchesAtMostOne(e, w, profile, keyName);
      Snapshots.RestoreFallsBackIff(e, w, profile, keyName);
      if restored.result == Ok(None) {
        var l := LaunchFreshSpec(e, restored.world, profile, keyName);
        LaunchFreshOutcome(e, restored.world, profile, keyName);
        Ec2OnlyTrans(w, restored.world, l.world);
      }
    } else {
      assert Issued(w, w) == [];
    }
  }

  /**
   * Picking the instance: a live instance is reused, and then neither the
   * role nor the key is consulted and nothing is added; only without one is
   * an instance created, and the pick says which happened.
   */
  lemma PickInstanceOutcome(e: Env, w: World, profile: string, role: Outcome<string>, keyName: Option<string>)
    ensures var p := PickInstanceSpec(e, w, profile, role, keyName);
            && Ec2Only(w, p.world) && AtMostOneMore(w, p.world)
            && (HasLive(w, profile) || Fails(e, Api.DescribeInstances) ==> p.world.instances == w.instances)
            && (Fails(e, Api.DescribeInstances) ==> p.result.Err?)
            && (!Fails(e, Api.DescribeInstances) && HasLive(w, profile) ==> p.result.Ok?)
            && (!HasLive(w, profile) && (role.Err? || keyName.None?) ==> p.result.Err? && p.world.instances == w.instances)
            && (p.result.Ok? ==> p.result.value.created == !HasLive(w, profile))
            && (p.result.Ok? && !p.result.value.created ==>
                  exists x :: x in w.instances && Ec2.Live(x, profile) && x.id == p.result.value.instanceId)
            && (p.result.Ok? && p.result.value.created ==> AddedLive(w, p.world, profile, p.result.value.instanceId))
  {
    var found := Ec2.SearchInstanceSpec(e, w, profile);
    Ec2.SearchFindsLive(e, w, profile);
    Ec2.SearchQuiet(e, w, profile);
    if found.result == Ok(None) {
      var c := CreateInstanceSpec(e, found.world, profile, role, keyName);
      CreateInstanceOutcome(e, found.world, profile, role, keyName);
      Ec2OnlyTrans(w, found.world, c.world);
    }
  }

  /**
   * Under the lock: the command gets through exactly when an instance is
   * picked and its DNS name is not empty; the snapshot cleanup runs exactly
   * then, after the pick, and its failure does not fail the command. Only EC2
   * calls are issued, at most one instance is added and none when the
   * profile already had a live one, and the instance reported is live: the
   * reused one, or the one added.
   */
  lemma UseLockedOutcome(e: Env, w: World, profile: string, role: Outcome<string>, keyName: Option<string>,
                         dns: Outcome<string>)
    ensures var s := UseLockedSpec(e, w, profile, role, keyName, dns);
            var p := PickInstanceSpec(e, w, profile, role, keyName);
            && Ec2Only(w, s.world) && AtMostOneMore(w, s.world)
            && (HasLive(w, profile) ==> s.world.instances == w.instances)
            && (s.result.Ok? <==> p.result.Ok? && dns.Ok? && dns.value != "")
            && Extends(p.world, s.world)
            && (CleanupIssued(Issued(p.world, s.world)) <==> s.result.Ok?)
            && (s.result.Ok? ==>
                  && s.result.value.publicDns == dns.value
                  && s.result.value.created == !HasLive(w, profile)
                  && exists x :: x in s.world.instances && Ec2.Live(x, profile) && x.id == s.result.value.instanceId)
  {
    var p := PickInstanceSpec(e, w, profile, role, keyName);
    PickInstanceOutcome(e, w, profile, role, keyName);
    var s := UseLockedSpec(e, w, profile, role, keyName, dns);
    if s.result.Ok? {
      var c := Snapshots.DeleteOldSnapshotsSpec(e, p.world, profile);
      var d := DescribeSnapshotsStep(e, p.world, Snapshots.ProfileSnapshotFilters(profile));
      RecordIssues(p.world, p.world, Api.DescribeSnapshots, d.result.Ok?);
      Snapshots.DeleteOldSnapshotsEc2Only(e, p.world, profile);
      Snapshots.DeleteOldSnapshotsOutcome(e, p.world, profile);
      if d.result.Ok? {
        var ids := Snapshots.SnapshotIds(d.result.value);
        Snapshots.SweepEachEc2Only(e, d.world, ids, []);
        IssuedAppend(p.world, d.world, c.world);
      }
      Ec2OnlyTrans(w, p.world, c.world);
      assert Issued(p.world, s.world)[0] == Call(Api.DescribeSnapshots, d.result.Ok?);
      if p.result.value.created {
        assert s.world.instances[|w.instances|] in s.world.instances;
      }
    } else {
      assert Issued(p.world, s.world) == [];
    }
  }

  /** With a live instance at hand the command's outcome does not depend on the role or the key. */
  lemma ReuseNeverCreates(e: Env, w: World, profile: string, role1: Outcome<string>, keyName1: Option<string>,
                          role2: Outcome<string>, keyName2: Option<string>, dns: Outcome<string>)
    requires !Fails(e, Api.DescribeInstances) && HasLive(w, profile)
    ensures UseLockedSpec(e, w, profile, role1, keyName1, dns) == UseLockedSpec(e, w, profile, role2, keyName2, dns)
  {
    Ec2.SearchFindsLive(e, w, profile);
  }

  /** The profile's lock item is released: a DeleteItem of the key was issued. */
  predicate ReleaseIssued(calls: seq<Call>, lockId: string)
  {
    exists c :: c in calls && c.api == Api.DeleteItem(lockId)
  }

  /**
   * The lock discipline of `use`: a failure to find or create the lock table
   * stops the command before any lock or EC2 call; giving up on the lock
   * (every attempt up to 600 seconds found it taken) stops it before any EC2
   * call and with nothing changed; the lock is released exactly when it was
   * taken, and then the release is the last call issued.
   */
  lemma UseLockDiscipline(e: Env, w: World, profile: string, start: int, role: Outcome<string>,
                          keyName: Option<string>, dns: Outcome<string>)
    ensures var s := UseSpec(e, w, profile, start, role, keyName, dns);
            var t := EnsureTableSpec(e, w);
            var lockId := LockIdOf(profile);
            var a := AcquireRetrySpec(e, t.world, lockId, start, 0);
            && Extends(w, s.world)
            && AtMostOneMore(w, s.world)
            && (HasLive(w, profile) ==> s.world.instances == w.instances)
            && (t.result.Err? ==> && s.result == Err(t.result.error) && s.world.instances == w.instances
                                  && forall c :: c in Issued(w, s.world) ==> TableCall(c))
            && (t.result.Ok? && a.result.Err? ==>
                  && s.result.Err? && s.result.error.LockTimeout?
                  && (forall j :: 0 <= j <= LastAttempt ==> !AttemptOk(e, t.world, lockId, AttemptTime(start, j)))
                  && (forall c :: c in Issued(w, s.world) ==> TableCall(c) || LockCall(c, lockId))
                  && SameEc2(w, s.world))
            && (ReleaseIssued(Issued(w, s.world), lockId) <==> t.result.Ok? && a.result.Ok?)
            && (t.result.Ok? && a.result.Ok? ==>
                  Issued(w, s.world)[|Issued(w, s.world)| - 1].api == Api.DeleteItem(lockId))
  {
    var t := EnsureTableSpec(e, w);
    if t.result.Err? {
      UseTableFailure(e, w, profile, start, role, keyName, dns);
    } else if AcquireRetrySpec(e, t.world, LockIdOf(profile), start, 0).result.Err? {
      UseLockTimeout(e, w, profile, start, role, keyName, dns);
    } else {
      UseReleasesLast(e, w, profile, start, role, keyName, dns);
    }
  }

  /** Without the lock table, `use` stops after table calls alone. */
  lemma UseTableFailure(e: Env, w: World, profile: string, start: int, role: Outcome<string>,
                        keyName: Option<string>, dns: Outcome<string>)
    requires EnsureTableSpec(e, w).result.Err?
    ensures var s := UseSpec(e, w, profile, start, role, keyName, dns);
            && Extends(w, s.world)
            && s.world.instances == w.instances
            && s.result == Err(EnsureTableSpec(e, w).result.error)
            && (forall c :: c in Issued(w, s.world) ==> TableCall(c))
            && !ReleaseIssued(Issued(w, s.world), LockIdOf(profile))
  {
    EnsureTableOutcome(e, w);
  }

  /**
   * Giving up on the lock: every attempt found it taken, only table and lock
   * calls were issued, EC2 is as it was and the lock is never released.
   */
  lemma UseLockTimeout(e: Env, w: World, profile: string, start: int, role: Outcome<string>,
                       keyName: Option<string>, dns: Outcome<string>)
    requires EnsureTableSpec(e, w).result.Ok?
    requires AcquireRetrySpec(e, EnsureTableSpec(e, w).world, LockIdOf(profile), start, 0).result.Err?
    ensures var s := UseSpec(e, w, profile, start, role, keyName, dns);
            var t := EnsureTableSpec(e, w);
            var lockId := LockIdOf(profile);
            && Extends(w, s.world)
            && s.world.instances == w.instances
            && s.result.Err? && s.result.error.LockTimeout?
            && (forall j :: 0 <= j <= LastAttempt ==> !AttemptOk(e, t.world, lockId, AttemptTime(start, j)))
            && (forall c :: c in Issued(w, s.world) ==> TableCall(c) || LockCall(c, lockId))
            && SameEc2(w, s.world)
            && !ReleaseIssued(Issued(w, s.world), lockId)
  {
    var t := EnsureTableSpec(e, w);
    var lockId := LockIdOf(profile);
    var a := AcquireRetrySpec(e, t.world, lockId, start, 0);
    UseStopsAtTimeout(e, w, profile, start, role, keyName, dns);
    EnsureTableOutcome(e, w);
    RetryTimeout(e, t.world, lockId, start);
    TableThenLockCalls(w, t.world, a.world, lockId);
  }

  /** Table calls followed by reads and puts of one key: no release among them. */
  lemma TableThenLockCalls(w: World, t: World, a: World, lockId: string)
    requires Extends(w, t) && forall c :: c in Issued(w, t) ==> TableCall(c)
    requires Extends(t, a) && forall c :: c in Issued(t, a) ==> LockCall(c, lockId)
    ensures Extends(w, a)
    ensures forall c :: c in Issued(w, a) ==> TableCall(c) || LockCall(c, lockId)
    ensures !ReleaseIssued(Issued(w, a), lockId)
  {
    IssuedAppend(w, t, a);
  }

  /** When the lock loop times out, `use` ends there with the loop's world and error. */
  lemma UseStopsAtTimeout(e: Env, w: World, profile: string, start: int, role: Outcome<string>,
                          keyName: Option<string>, dns: Outcome<string>)
    requires EnsureTableSpec(e, w).result.Ok?
    requires AcquireRetrySpec(e, EnsureTableSpec(e, w).world, LockIdOf(profile), start, 0).result.Err?
    ensures var a := AcquireRetrySpec(e, EnsureTableSpec(e, w).world, LockIdOf(profile), start, 0);
            UseSpec(e, w, profile, start, role, keyName, dns) == Step(a.world, Err(a.result.error))
  {
  }

  /** Once the lock is taken, the whole run extends the log and ends with its release. */
  lemma UseReleasesLast(e: Env, w: World, profile: string, start: int, role: Outcome<string>,
                        keyName: Option<string>, dns: Outcome<string>)
    requires EnsureTableSpec(e, w).result.Ok?
    requires AcquireRetrySpec(e, EnsureTableSpec(e, w).world, LockIdOf(profile), start, 0).result.Ok?
    ensures var s := UseSpec(e, w, profile, start, role, keyName, dns);
            && Extends(w, s.world)
            && AtMostOneMore(w, s.world)
            && (HasLive(w, profile) ==> s.world.instances == w.instances)
            && ReleaseIssued(Issued(w, s.world), LockIdOf(profile))
            && Issued(w, s.world)[|Issued(w, s.world)| - 1].api == Api.DeleteItem(LockIdOf(profile))
  {
    var s := UseSpec(e, w, profile, start, role, keyName, dns);
    var t := EnsureTableSpec(e, w);
    var lockId := LockIdOf(profile);
    EnsureTableOutcome(e, w);
    var a := AcquireRetrySpec(e, t.world, lockId, start, 0);
    RetryKeepsInstances(e, t.world, lockId, start);
    IssuedAppend(w, t.world, a.world);
    var b := UseLockedSpec(e, a.world, profile, role, keyName, dns);
    UseLockedBounds(e, a.world, profile, role, keyName, dns);
    IssuedAppend(w, a.world, b.world);
    UseEndsWithRelease(e, w, profile, start, role, keyName, dns);
    var ok := ItemCallOk(e, b.world, Api.DeleteItem(lockId));
    var b0 := if ok then b.world.(locks := b.world.locks - {lockId}) else b.world;
    RecordIssues(b.world, b0, Api.DeleteItem(lockId), ok);
    IssuedAppend(w, b.world, s.world);
    assert Issued(w, s.world) == Issued(w, b.world) + [Call(Api.DeleteItem(lockId), ok)];
  }

  /** Once the lock is taken, `use` answers what the locked part answers, after the release. */
  lemma UseEndsWithRelease(e: Env, w: World, profile: string, start: int, role: Outcome<string>,
                           keyName: Option<string>, dns: Outcome<string>)
    requires EnsureTableSpec(e, w).result.Ok?
    requires AcquireRetrySpec(e, EnsureTableSpec(e, w).world, LockIdOf(profile), start, 0).result.Ok?
    ensures var a := AcquireRetrySpec(e, EnsureTableSpec(e, w).world, LockIdOf(profile), start, 0);
            var b := UseLockedSpec(e, a.world, profile, role, keyName, dns);
            UseSpec(e, w, profile, start, role, keyName, dns) ==
              Step(Lock.ReleaseLockSpec(e, b.world, LockIdOf(profile)).world, b.result)
  {
  }

  /** The lock loop extends the log and leaves the instances alone. */
  lemma RetryKeepsInstances(e: Env, w: World, lockId: string, start: int)
    ensures var a := AcquireRetrySpec(e, w, lockId, start, 0);
            Extends(w, a.world) && a.world.instances == w.instances
  {
    RetryOutcome(e, w, lockId, start, 0);
  }

  /** The locked part of `use` extends the log and adds at most one instance, none when one is live. */
  lemma UseLockedBounds(e: Env, w: World, profile: string, role: Outcome<string>, keyName: Option<string>,
                        dns: Outcome<string>)
    ensures var b := UseLockedSpec(e, w, profile, role, keyName, dns);
            && Extends(w, b.world) && AtMostOneMore(w, b.world)
            && (HasLive(w, profile) ==> b.world.instances == w.instances)
  {
    UseLockedOutcome(e, w, profile, role, keyName, dns);
  }
}
