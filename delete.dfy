/**
 * The `delete <profile>` command of cmd/delete.go: find the profile's live
 * instance, snapshot its root volume, and only then terminate it. It takes
 * no lock and sweeps no old snapshots.
 */
module DeleteCommand {
  import opened Wrappers
  import opened Provider
  import Ec2
  import Snapshots
  import Ec2StatusChecker

  /** What the command reports: the instance terminated and the snapshot kept of it. */
  datatype DeleteReport = DeleteReport(instanceId: string, snapshotId: string)

  /**
   * The snapshot-then-terminate tail shared by both generations of the
   * command: the snapshot of the root volume carries `description` and `tags`.
   */
  function RetireSpec(e: Env, w: World, instanceId: string, description: string, tags: seq<Tag>)
    : Step<Outcome<DeleteReport>>
  {
    var vol := Ec2.RootVolumeSpec(e, w, instanceId);
    if vol.result.Err? then Step(vol.world, Err(vol.result.error))
    else
      var snap := CreateSnapshotStep(e, vol.world, vol.result.value, description, tags);
      if snap.result.Err? then Step(snap.world, Err(snap.result.error))
      else
        var term := Ec2.TerminateSpec(e, snap.world, instanceId);
        Step(term.world, if term.result.Err? then Err(term.result.error)
                         else Ok(DeleteReport(instanceId, snap.result.value)))
  }

  function DeleteSpec(e: Env, w: World, profile: string): Step<Outcome<DeleteReport>>
  {
    var found := Ec2.SearchInstanceSpec(e, w, profile);
    if found.result.Err? then Step(found.world, Err(found.result.error))
    else if found.result.value.None? then Step(found.world, Err(NoLiveInstance(profile)))
    else
      var id := found.result.value.value;
      RetireSpec(e, found.world, id, Snapshots.SnapshotDescription(id), Snapshots.SnapshotTags(profile, id))
  }

  /** The Run function of `delete <profile>`. */
  method Delete(cloud: Cloud, profile: string) returns (r: Outcome<DeleteReport>)
    modifies cloud
    ensures Step(cloud.State(), r) == DeleteSpec(cloud.env, old(cloud.State()), profile)
  {
    var found := Ec2.SearchInstance(cloud, profile);
    if found.Err? {
      return Err(found.error);
    }
    if found.value.None? {
      return Err(NoLiveInstance(profile));
    }
    var instanceId := found.value.value;
    var volumeId := Ec2.GetRootVolumeId(cloud, instanceId);
    if volumeId.Err? {
      return Err(volumeId.error);
    }
    var snapshotId := Snapshots.CreateSnapshot(cloud, volumeId.value, instanceId, profile);
    if snapshotId.Err? {
      return Err(snapshotId.error);
    }
    var terminated := Ec2.TerminateInstance(cloud, instanceId);
    if terminated.Err? {
      return Err(terminated.error);
    }
    r := Ok(DeleteReport(instanceId, snapshotId.value));
  }

  // ------------------------------------------------------------------ properties

  predicate SnapshotIssued(calls: seq<Call>)
  {
    exists c :: c in calls && c.api.CreateSnapshot?
  }

  predicate TerminateIssued(calls: seq<Call>)
  {
    exists c :: c in calls && c.api.TerminateInstances?
  }

  /** A failed root-volume lookup ends the tail after its one describe: no snapshot, no terminate. */
  lemma RetireStopsAtVolume(e: Env, w: World, instanceId: string, description: string, tags: seq<Tag>)
    requires Ec2.RootVolumeSpec(e, w, instanceId).result.Err?
    ensures var s := RetireSpec(e, w, instanceId, description, tags);
            && Extends(w, s.world)
            && Issued(w, s.world) == [Call(Api.DescribeInstances, !Fails(e, Api.DescribeInstances))]
            && s.world == Record(w, Api.DescribeInstances, !Fails(e, Api.DescribeInstances))
  {
    RecordIssues(w, w, Api.DescribeInstances, !Fails(e, Api.DescribeInstances));
  }

  /** A failed snapshot ends the tail before any terminate; no snapshot and no instance changes. */
  lemma RetireStopsAtSnapshot(e: Env, w: World, instanceId: string, description: string, tags: seq<Tag>)
    requires Ec2.RootVolumeSpec(e, w, instanceId).result.Ok?
    requires Fails(e, Api.CreateSnapshot(Ec2.RootVolumeSpec(e, w, instanceId).result.value))
    ensures var s := RetireSpec(e, w, instanceId, description, tags);
            && Extends(w, s.world) && s.result.Err?
            && Issued(w, s.world) == [Call(Api.DescribeInstances, true),
                                      Call(Api.CreateSnapshot(Ec2.RootVolumeSpec(e, w, instanceId).result.value), false)]
            && s.world.snapshots == w.snapshots && s.world.instances == w.instances
  {
    var vol := Ec2.RootVolumeSpec(e, w, instanceId);
    RecordIssues(w, w, Api.DescribeInstances, true);
    var snap := CreateSnapshotStep(e, vol.world, vol.result.value, description, tags);
    RecordIssues(vol.world, vol.world, Api.CreateSnapshot(vol.result.value), false);
    IssuedAppend(w, vol.world, snap.world);
  }

  /**
   * Once the snapshot of the root volume is taken, the instance is
   * terminated: the snapshot call comes right before the terminate, and the
   * command succeeds exactly when the terminate does.
   */
  lemma RetireTerminatesAfterSnapshot(e: Env, w: World, instanceId: string, description: string, tags: seq<Tag>)
    requires Ec2.RootVolumeSpec(e, w, instanceId).result.Ok?
    requires !Fails(e, Api.CreateSnapshot(Ec2.RootVolumeSpec(e, w, instanceId).result.value))
    ensures var s := RetireSpec(e, w, instanceId, description, tags);
            var v := Ec2.RootVolumeSpec(e, w, instanceId).result.value;
            var ok := !Fails(e, Api.TerminateInstances(instanceId)) && HasInstance(w.instances, instanceId);
            && Extends(w, s.world)
            && Issued(w, s.world) == [Call(Api.DescribeInstances, true), Call(Api.CreateSnapshot(v), true),
                                      Call(Api.TerminateInstances(instanceId), ok)]
            && s.world.snapshots == w.snapshots +
                 [Snapshot(MintId("snap-", w.nextId), v, description, tags, OwnedBySelf, None, 0)]
            && (s.result.Ok? <==> ok)
            && (s.result.Ok? ==> s.result.value == DeleteReport(instanceId, MintId("snap-", w.nextId)))
  {
    var vol := Ec2.RootVolumeSpec(e, w, instanceId);
    var v := vol.result.value;
    RecordIssues(w, w, Api.DescribeInstances, true);
    var snap := CreateSnapshotStep(e, vol.world, v, description, tags);
    var v0 := vol.world.(snapshots := snap.world.snapshots, nextId := vol.world.nextId + 1);
    RecordIssues(vol.world, v0, Api.CreateSnapshot(v), true);
    IssuedAppend(w, vol.world, snap.world);
    var ok := !Fails(e, Api.TerminateInstances(instanceId)) && HasInstance(snap.world.instances, instanceId);
    var term := Ec2.TerminateSpec(e, snap.world, instanceId);
    var t0 := if ok then Settle(snap.world, instanceId, Ec2StatusChecker.ShuttingDown) else snap.world;
    RecordIssues(snap.world, t0, Api.TerminateInstances(instanceId), ok);
    IssuedAppend(w, snap.world, term.world);
  }

  /** The tail issues only EC2 calls. */
  lemma RetireEc2Only(e: Env, w: World, instanceId: string, description: string, tags: seq<Tag>)
    ensures Ec2Only(w, RetireSpec(e, w, instanceId, description, tags).world)
  {
    var vol := Ec2.RootVolumeSpec(e, w, instanceId);
    RecordEc2Only(w, w, Api.DescribeInstances, !Fails(e, Api.DescribeInstances));
    if vol.result.Ok? {
      var v := vol.result.value;
      var snap := CreateSnapshotStep(e, vol.world, v, description, tags);
      var v0 := if snap.result.Err? then vol.world
                else vol.world.(snapshots := snap.world.snapshots, nextId := vol.world.nextId + 1);
      RecordEc2Only(vol.world, v0, Api.CreateSnapshot(v), snap.result.Ok?);
      Ec2OnlyTrans(w, vol.world, snap.world);
      if snap.result.Ok? {
        var term := Ec2.TerminateSpec(e, snap.world, instanceId);
        var ok := !Fails(e, Api.TerminateInstances(instanceId)) && HasInstance(snap.world.instances, instanceId);
        var t0 := if ok then Settle(snap.world, instanceId, Ec2StatusChecker.ShuttingDown) else snap.world;
        RecordEc2Only(snap.world, t0, Api.TerminateInstances(instanceId), ok);
        Ec2OnlyTrans(w, snap.world, term.world);
      }
    }
  }

  /**
   * Snapshot before terminate: a terminate is issued only for the instance
   * itself, as the last call, right after a successful snapshot of the volume
   * its /dev/xvda mapping names. Without a terminate no instance changes.
   */
  lemma TerminateOnlyAfterSnapshot(e: Env, w: World, instanceId: string, description: string, tags: seq<Tag>)
    ensures var s := RetireSpec(e, w, instanceId, description, tags);
            var vol := Ec2.RootVolumeSpec(e, w, instanceId);
            var found := SelectInstances(w.instances, [InstanceIdIs(instanceId)]);
            && Extends(w, s.world)
            && (!TerminateIssued(Issued(w, s.world)) ==> s.world.instances == w.instances)
            && (TerminateIssued(Issued(w, s.world)) ==>
                  && vol.result.Ok? && found != [] && found[0].id == instanceId
                  && Device(RootDevice, vol.result.value) in found[0].devices
                  && Issued(w, s.world)[|Issued(w, s.world)| - 2] == Call(Api.CreateSnapshot(vol.result.value), true)
                  && Issued(w, s.world)[|Issued(w, s.world)| - 1].api == Api.TerminateInstances(instanceId))
  {
    var vol := Ec2.RootVolumeSpec(e, w, instanceId);
    Ec2.RootVolumeOutcome(e, w, instanceId);
    if vol.result.Err? {
      RetireStopsAtVolume(e, w, instanceId, description, tags);
    } else if Fails(e, Api.CreateSnapshot(vol.result.value)) {
      RetireStopsAtSnapshot(e, w, instanceId, description, tags);
    } else {
      RetireTerminatesAfterSnapshot(e, w, instanceId, description, tags);
      var s := RetireSpec(e, w, instanceId, description, tags);
      var ok := !Fails(e, Api.TerminateInstances(instanceId)) && HasInstance(w.instances, instanceId);
      if !ok {
        assert s.world.instances == w.instances;
      }
    }
  }

  /**
   * "No running instance" is answered exactly when the profile has no
   * running or pending instance, after the one search and with nothing else
   * touched.
   */
  lemma DeleteWithoutInstance(e: Env, w: World, profile: string)
    ensures var s := DeleteSpec(e, w, profile);
            && Extends(w, s.world)
            && (s.result == Err(NoLiveInstance(profile)) <==>
                  !Fails(e, Api.DescribeInstances) && forall x :: x in w.instances ==> !Ec2.Live(x, profile))
            && (s.result == Err(NoLiveInstance(profile)) ==>
                  && Issued(w, s.world) == [Call(Api.DescribeInstances, true)]
                  && s.world.instances == w.instances && s.world.snapshots == w.snapshots)
  {
    Ec2.SearchFindsLive(e, w, profile);
    var found := Ec2.SearchInstanceSpec(e, w, profile);
    RecordIssues(w, w, Api.DescribeInstances, !Fails(e, Api.DescribeInstances));
    if found.result.Ok? && found.result.value.Some? {
      var id := found.result.value.value;
      var desc, tags := Snapshots.SnapshotDescription(id), Snapshots.SnapshotTags(profile, id);
      TerminateOnlyAfterSnapshot(e, found.world, id, desc, tags);
      IssuedAppend(w, found.world, RetireSpec(e, found.world, id, desc, tags).world);
    }
  }

  /** The command issues only EC2 calls: it takes no lock. */
  lemma DeleteEc2Only(e: Env, w: World, profile: string)
    ensures Ec2Only(w, DeleteSpec(e, w, profile).world)
  {
    var found := Ec2.SearchInstanceSpec(e, w, profile);
    RecordEc2Only(w, w, Api.DescribeInstances, !Fails(e, Api.DescribeInstances));
    if found.result.Ok? && found.result.value.Some? {
      var id := found.result.value.value;
      var desc, tags := Snapshots.SnapshotDescription(id), Snapshots.SnapshotTags(profile, id);
      RetireEc2Only(e, found.world, id, desc, tags);
      Ec2OnlyTrans(w, found.world, RetireSpec(e, found.world, id, desc, tags).world);
    }
  }

  /**
   * The instance terminated is the first running or pending instance of the
   * profile, and it is terminated last, right after its root volume was
   * snapshotted.
   */
  lemma DeleteTerminatesFirstLive(e: Env, w: World, profile: string)
    ensures var s := DeleteSpec(e, w, profile);
            && Extends(w, s.world)
            && (TerminateIssued(Issued(w, s.world)) ==>
                  exists k :: 0 <= k < |w.instances| && Ec2.Live(w.instances[k], profile) &&
                              (forall j :: 0 <= j < k ==> !Ec2.Live(w.instances[j], profile)) &&
                              TerminatedLast(Issued(w, s.world), w.instances[k].id))
  {
    Ec2.SearchFindsLive(e, w, profile);
    var found := Ec2.SearchInstanceSpec(e, w, profile);
    RecordIssues(w, w, Api.DescribeInstances, !Fails(e, Api.DescribeInstances));
    if found.result.Ok? && found.result.value.Some? {
      var id := found.result.value.value;
      var desc, tags := Snapshots.SnapshotDescription(id), Snapshots.SnapshotTags(profile, id);
      var r := RetireSpec(e, found.world, id, desc, tags);
      assert DeleteSpec(e, w, profile) == r;
      RetireTerminatesLast(e, found.world, id, desc, tags);
      IssuedAppend(w, found.world, r.world);
      PrefixKeepsTerminatedLast([Call(Api.DescribeInstances, true)], Issued(found.world, r.world), id);
    } else {
      assert DeleteSpec(e, w, profile).world == found.world;
    }
  }

  /**
   * A completed tail leaves every instance where it was, and the records of
   * the terminated one, and only those, show it shutting down.
   */
  lemma RetireShutsDown(e: Env, w: World, instanceId: string, description: string, tags: seq<Tag>)
    ensures var s := RetireSpec(e, w, instanceId, description, tags);
            s.result.Ok? ==>
              && |s.world.instances| == |w.instances|
              && forall i :: 0 <= i < |w.instances| ==>
                   s.world.instances[i] == if w.instances[i].id == instanceId
                                           then w.instances[i].(state := Ec2StatusChecker.ShuttingDown)
                                           else w.instances[i]
  {
  }

  /**
   * After a successful delete the instance reported is shutting down, no
   * other instance changed, and the profile's search no longer finds it.
   */
  lemma DeleteShutsDown(e: Env, w: World, profile: string)
    ensures var s := DeleteSpec(e, w, profile);
            s.result.Ok? ==>
              && |s.world.instances| == |w.instances|
              && (forall i :: 0 <= i < |w.instances| ==>
                    s.world.instances[i] == if w.instances[i].id == s.result.value.instanceId
                                            then w.instances[i].(state := Ec2StatusChecker.ShuttingDown)
                                            else w.instances[i])
              && forall x :: x in s.world.instances && x.id == s.result.value.instanceId ==> !Ec2.Live(x, profile)
  {
    var found := Ec2.SearchInstanceSpec(e, w, profile);
    if found.result.Ok? && found.result.value.Some? {
      var id := found.result.value.value;
      var desc, tags := Snapshots.SnapshotDescription(id), Snapshots.SnapshotTags(profile, id);
      RetireShutsDown(e, found.world, id, desc, tags);
    }
  }

  /** The last call terminates `id`, and the one before it is a successful snapshot. */
  predicate TerminatedLast(calls: seq<Call>, id: string)
  {
    && |calls| >= 2
    && calls[|calls| - 1].api == Api.TerminateInstances(id)
    && calls[|calls| - 2].api.CreateSnapshot?
    && calls[|calls| - 2].ok
  }

  lemma PrefixKeepsTerminatedLast(before: seq<Call>, calls: seq<Call>, id: string)
    ensures TerminateIssued(calls) ==> TerminateIssued(before + calls)
    ensures TerminateIssued(before + calls) && !TerminateIssued(before) ==> TerminateIssued(calls)
    ensures TerminatedLast(calls, id) ==> TerminatedLast(before + calls, id)
  {
    if TerminateIssued(calls) {
      var c :| c in calls && c.api.TerminateInstances?;
      assert c in before + calls;
    }
    if TerminateIssued(before + calls) && !TerminateIssued(before) {
      var c :| c in before + calls && c.api.TerminateInstances?;
      assert c in calls;
    }
  }

  lemma RetireTerminatesLast(e: Env, w: World, instanceId: string, description: string, tags: seq<Tag>)
    ensures var s := RetireSpec(e, w, instanceId, description, tags);
            && Extends(w, s.world)
            && (TerminateIssued(Issued(w, s.world)) ==> TerminatedLast(Issued(w, s.world), instanceId))
  {
    TerminateOnlyAfterSnapshot(e, w, instanceId, description, tags);
  }

  /**
   * A successful delete leaves exactly one new snapshot: of the terminated
   * instance's root volume, tagged Name = profile and ManagedBy = Dumie, so
   * a later `use` of the profile restores from it.
   */
  lemma DeleteKeepsProfileSnapshot(e: Env, w: World, profile: string)
    ensures var s := DeleteSpec(e, w, profile);
            s.result.Ok? ==>
              && |s.world.snapshots| == |w.snapshots| + 1
              && s.world.snapshots[..|w.snapshots|] == w.snapshots
              && s.world.snapshots[|w.snapshots|].id == s.result.value.snapshotId
              && s.world.snapshots[|w.snapshots|].description ==
                   Snapshots.SnapshotDescription(s.result.value.instanceId)
              && Snapshots.ProfileSnapshot(s.world.snapshots[|w.snapshots|], profile)
              && (exists k :: 0 <= k < |w.instances| && w.instances[k].id == s.result.value.instanceId &&
                              Ec2.Live(w.instances[k], profile) &&
                              forall j :: 0 <= j < k ==> !Ec2.Live(w.instances[j], profile))
  {
    Ec2.SearchFindsLive(e, w, profile);
    var found := Ec2.SearchInstanceSpec(e, w, profile);
    if found.result.Ok? && found.result.value.Some? {
      var id := found.result.value.value;
      var desc, tags := Snapshots.SnapshotDescription(id), Snapshots.SnapshotTags(profile, id);
      var vol := Ec2.RootVolumeSpec(e, found.world, id);
      Ec2.RootVolumeOutcome(e, found.world, id);
      if vol.result.Ok? && !Fails(e, Api.CreateSnapshot(vol.result.value)) {
        RetireTerminatesAfterSnapshot(e, found.world, id, desc, tags);
        assert tags[0] in tags && tags[2] in tags;
      }
    }
  }
}

/**
 * The `delete <instance-id>` command of the first generation
 * (dumie-cli/cmd/delete.go): the same snapshot-then-terminate tail, run
 * straight on the id given, with no profile lookup and no lock.
 */
module LegacyDeleteCommand {
  import opened Wrappers
  import opened Provider
  import Ec2
  import DeleteCommand

  /**
   * The first-generation snapshot call takes no profile; the snapshot it
   * takes carries no description and no tags here.
   */
  function LegacyDeleteSpec(e: Env, w: World, instanceId: string): Step<Outcome<DeleteCommand.DeleteReport>>
  {
    DeleteCommand.RetireSpec(e, w, instanceId, "", [])
  }

  method LegacyDelete(cloud: Cloud, instanceId: string) returns (r: Outcome<DeleteCommand.DeleteReport>)
    modifies cloud
    ensures Step(cloud.State(), r) == LegacyDeleteSpec(cloud.env, old(cloud.State()), instanceId)
  {
    var volumeId := Ec2.GetRootVolumeId(cloud, instanceId);
    if volumeId.Err? {
      return Err(volumeId.error);
    }
    var snapshotId := cloud.CreateSnapshotCall(volumeId.value, "", []);
    if snapshotId.Err? {
      return Err(snapshotId.error);
    }
    var terminated := Ec2.TerminateInstance(cloud, instanceId);
    if terminated.Err? {
      return Err(terminated.error);
    }
    r := Ok(DeleteCommand.DeleteReport(instanceId, snapshotId.value));
  }

  /**
   * The first call is the describe of the instance itself, every call is an
   * EC2 call, and a terminate comes only last, right after a successful
   * snapshot of the instance's /dev/xvda volume.
   */
  lemma LegacyDeleteOrdering(e: Env, w: World, instanceId: string)
    ensures var s := LegacyDeleteSpec(e, w, instanceId);
            var vol := Ec2.RootVolumeSpec(e, w, instanceId);
            && Ec2Only(w, s.world)
            && |Issued(w, s.world)| >= 1 && Issued(w, s.world)[0].api == Api.DescribeInstances
            && (DeleteCommand.TerminateIssued(Issued(w, s.world)) ==>
                  && vol.result.Ok?
                  && Issued(w, s.world)[|Issued(w, s.world)| - 2] == Call(Api.CreateSnapshot(vol.result.value), true)
                  && Issued(w, s.world)[|Issued(w, s.world)| - 1].api == Api.TerminateInstances(instanceId))
            && (s.result.Ok? <==> DeleteCommand.TerminateIssued(Issued(w, s.world)) &&
                                  Issued(w, s.world)[|Issued(w, s.world)| - 1].ok)
  {
    var vol := Ec2.RootVolumeSpec(e, w, instanceId);
    DeleteCommand.RetireEc2Only(e, w, instanceId, "", []);
    DeleteCommand.TerminateOnlyAfterSnapshot(e, w, instanceId, "", []);
    var calls := Issued(w, LegacyDeleteSpec(e, w, instanceId).world);
    if vol.result.Err? {
      DeleteCommand.RetireStopsAtVolume(e, w, instanceId, "", []);
      assert !DeleteCommand.TerminateIssued(calls);
    } else if Fails(e, Api.CreateSnapshot(vol.result.value)) {
      DeleteCommand.RetireStopsAtSnapshot(e, w, instanceId, "", []);
      assert !DeleteCommand.TerminateIssued(calls);
    } else {
      DeleteCommand.RetireTerminatesAfterSnapshot(e, w, instanceId, "", []);
      assert calls[2] in calls;
    }
  }
}
