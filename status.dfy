/**
 * The `status <profile>` command of cmd/status.go: show the profile's
 * instance, preferring a running one, or else the profile's snapshots.
 */
module StatusCommand {
  import opened Wrappers
  import opened Provider
  import Ec2StatusChecker

  /** One snapshot as the fallback lists it; a missing start time is shown as "-". */
  datatype SnapshotRow = SnapshotRow(snapshotId: string, createdAt: string, sizeGiB: nat)

  /** What the command reports once the instance describe has succeeded. */
  datatype StatusReport =
    | InstanceStatus(profile: string, instanceId: string, state: string, publicIp: string,
                     launchTime: string, source: string)
    | SnapshotsFound(profile: string, rows: seq<SnapshotRow>)
    | NothingFound(profile: string)
    | SnapshotCheckFailed(error: Error)

  const FromSnapshot := "snapshot"
  const FromBaseAmi := "base AMI"

  /** The instance query: Name = profile and ManagedBy = Dumie, in any state. */
  function InstanceFilters(profile: string): seq<InstanceFilter>
  {
    [InstanceTag("Name", [profile]), InstanceTag("ManagedBy", ["Dumie"])]
  }

  function SnapshotFilters(profile: string): seq<SnapshotFilter>
  {
    [SnapshotTag("ManagedBy", ["Dumie"]), SnapshotTag("Name", [profile]), SnapshotOwnedBy(OwnedBySelf)]
  }

  /**
   * The instance the selection loop ends on: each instance replaces the
   * selection when there is none yet or when it is running.
   */
  function Selected(insts: seq<Instance>): Option<Instance>
  {
    if insts == [] then None
    else
      var sel := Selected(insts[..|insts| - 1]);
      var x := insts[|insts| - 1];
      if sel.None? || x.state == Ec2StatusChecker.Running then Some(x) else sel
  }

  predicate IsRestoredTag(t: Tag)
  {
    t.key == "Restored" && t.value == "true"
  }

  /** The source label, as the tag loop with its early exit computes it. */
  function Source(tags: seq<Tag>): string
  {
    if tags == [] then FromBaseAmi
    else if IsRestoredTag(tags[0]) then FromSnapshot
    else Source(tags[1..])
  }

  function OrDash(v: Option<string>): string
  {
    if v.Some? then v.value else "-"
  }

  function Report(profile: string, x: Instance): StatusReport
  {
    InstanceStatus(profile, x.id, x.state, OrDash(x.publicIp), OrDash(x.launchTime), Source(x.tags))
  }

  function SnapshotRows(snaps: seq<Snapshot>): seq<SnapshotRow>
  {
    if snaps == [] then []
    else
      var x := snaps[|snaps| - 1];
      SnapshotRows(snaps[..|snaps| - 1]) + [SnapshotRow(x.id, OrDash(x.startTime), x.volumeSize)]
  }

  /** checkSnapshot: the profile's managed snapshots, or "nothing found". */
  function CheckSnapshotSpec(e: Env, w: World, profile: string): Step<StatusReport>
  {
    var d := DescribeSnapshotsStep(e, w, SnapshotFilters(profile));
    Step(d.world, if d.result.Err? then SnapshotCheckFailed(d.result.error)
                  else if d.result.value == [] then NothingFound(profile)
                  else SnapshotsFound(profile, SnapshotRows(d.result.value)))
  }

  function StatusSpec(e: Env, w: World, profile: string): Step<Outcome<StatusReport>>
  {
    var d := DescribeInstancesStep(e, w, InstanceFilters(profile));
    if d.result.Err? then Step(d.world, Err(d.result.error))
    else
      var sel := Selected(d.result.value);
      if sel.Some? then Step(d.world, Ok(Report(profile, sel.value)))
      else
        var c := CheckSnapshotSpec(e, d.world, profile);
        Step(c.world, Ok(c.result))
  }

  // ------------------------------------------------------------------ the command

  method SelectInstance(insts: seq<Instance>) returns (selected: Option<Instance>)
    ensures selected == Selected(insts)
  {
    selected := None;
    var i := 0;
    while i < |insts|
      invariant 0 <= i <= |insts|
      invariant selected == Selected(insts[..i])
    {
      assert insts[..i + 1][..i] == insts[..i];
      if selected.None? || insts[i].state == Ec2StatusChecker.Running {
        selected := Some(insts[i]);
      }
      i := i + 1;
    }
    assert insts[..i] == insts;
  }

  method SourceOf(tags: seq<Tag>) returns (source: string)
    ensures source == Source(tags)
  {
    source := FromBaseAmi;
    var i := 0;
    while i < |tags|
      invariant 0 <= i <= |tags|
      invariant Source(tags) == Source(tags[i..])
    {
      if tags[i].key == "Restored" && tags[i].value == "true" {
        source := FromSnapshot;
        return;
      }
      assert tags[i..][1..] == tags[i + 1..];
      i := i + 1;
    }
  }

  method ListSnapshotRows(snaps: seq<Snapshot>) returns (rows: seq<SnapshotRow>)
    ensures rows == SnapshotRows(snaps)
  {
    rows := [];
    var i := 0;
    while i < |snaps|
      invariant 0 <= i <= |snaps|
      invariant rows == SnapshotRows(snaps[..i])
    {
      assert snaps[..i + 1][..i] == snaps[..i];
      var createdAt := "-";
      if snaps[i].startTime.Some? {
        createdAt := snaps[i].startTime.value;
      }
      rows := rows + [SnapshotRow(snaps[i].id, createdAt, snaps[i].volumeSize)];
      i := i + 1;
    }
    assert snaps[..i] == snaps;
  }

  method CheckSnapshot(cloud: Cloud, profile: string) returns (r: StatusReport)
    modifies cloud
    ensures Step(cloud.State(), r) == CheckSnapshotSpec(cloud.env, old(cloud.State()), profile)
  {
    var snaps := cloud.DescribeSnapshotsCall(SnapshotFilters(profile));
    if snaps.Err? {
      return SnapshotCheckFailed(snaps.error);
    }
    if |snaps.value| > 0 {
      var rows := ListSnapshotRows(snaps.value);
      r := SnapshotsFound(profile, rows);
    } else {
      r := NothingFound(profile);
    }
  }

  /** The Run function of `status <profile>`. */
  method Status(cloud: Cloud, profile: string) returns (r: Outcome<StatusReport>)
    modifies cloud
    ensures Step(cloud.State(), r) == StatusSpec(cloud.env, old(cloud.State()), profile)
  {
    var insts := cloud.DescribeInstancesCall(InstanceFilters(profile));
    if insts.Err? {
      return Err(insts.error);
    }
    var selected := SelectInstance(insts.value);
    if selected.Some? {
      var inst := selected.value;
      var source := SourceOf(inst.tags);
      var publicIp := "-";
      if inst.publicIp.Some? {
        publicIp := inst.publicIp.value;
      }
      var launchTime := "-";
      if inst.launchTime.Some? {
        launchTime := inst.launchTime.value;
      }
      r := Ok(InstanceStatus(profile, inst.id, inst.state, publicIp, launchTime, source));
    } else {
      var report := CheckSnapshot(cloud, profile);
      r := Ok(report);
    }
  }

  // ------------------------------------------------------------------ properties

  /** The instance query matches any state: only the two tags are asked for. */
  lemma QueryIgnoresState(x: Instance, profile: string)
    ensures InstanceMatchesAll(x, InstanceFilters(profile)) <==>
              TagMatches(x.tags, "Name", [profile]) && TagMatches(x.tags, "ManagedBy", ["Dumie"])
    ensures forall st :: InstanceMatchesAll(x, InstanceFilters(profile)) ==
                         InstanceMatchesAll(x.(state := st), InstanceFilters(profile))
  {
    var fs := InstanceFilters(profile);
    assert fs[0] in fs && fs[1] in fs;
  }

  /**
   * The selection is the LAST running instance when there is one, and the
   * FIRST instance otherwise; there is a selection iff there is an instance.
   */
  lemma {:induction false} SelectedIsLastRunningOrFirst(insts: seq<Instance>)
    ensures Selected(insts).None? <==> insts == []
    ensures (forall i :: 0 <= i < |insts| ==> insts[i].state != Ec2StatusChecker.Running) && insts != [] ==>
              Selected(insts) == Some(insts[0])
    ensures (exists i :: 0 <= i < |insts| && insts[i].state == Ec2StatusChecker.Running) ==>
              exists k :: 0 <= k < |insts| && insts[k].state == Ec2StatusChecker.Running &&
                          Selected(insts) == Some(insts[k]) &&
                          forall j :: k < j < |insts| ==> insts[j].state != Ec2StatusChecker.Running
  {
    if insts != [] {
      var n := |insts| - 1;
      var init := insts[..n];
      SelectedIsLastRunningOrFirst(init);
      if insts[n].state != Ec2StatusChecker.Running {
        if init == [] {
          assert insts == [insts[n]];
        } else {
          assert init[0] == insts[0];
          if exists i :: 0 <= i < |insts| && insts[i].state == Ec2StatusChecker.Running {
            var i :| 0 <= i < |insts| && insts[i].state == Ec2StatusChecker.Running;
            assert init[i] == insts[i];
            var k :| 0 <= k < |init| && init[k].state == Ec2StatusChecker.Running &&
                     Selected(init) == Some(init[k]) &&
                     forall j :: k < j < |init| ==> init[j].state != Ec2StatusChecker.Running;
            assert insts[k] == init[k];
            forall j | k < j < |insts|
              ensures insts[j].state != Ec2StatusChecker.Running
            {
              if j < n {
                assert insts[j] == init[j];
              }
            }
          } else {
            forall i | 0 <= i < |init|
              ensures init[i].state != Ec2StatusChecker.Running
            {
              assert init[i] == insts[i];
            }
          }
        }
      }
    }
  }

  /** The source is "snapshot" iff the instance carries the tag Restored = true, "base AMI" otherwise. */
  lemma {:induction false} SourceIsRestoredTag(tags: seq<Tag>)
    ensures (exists i :: 0 <= i < |tags| && IsRestoredTag(tags[i])) ==> Source(tags) == FromSnapshot
    ensures (forall i :: 0 <= i < |tags| ==> !IsRestoredTag(tags[i])) ==> Source(tags) == FromBaseAmi
  {
    if tags != [] && !IsRestoredTag(tags[0]) {
      var rest := tags[1..];
      SourceIsRestoredTag(rest);
      if exists i :: 0 <= i < |tags| && IsRestoredTag(tags[i]) {
        var i :| 0 <= i < |tags| && IsRestoredTag(tags[i]);
        assert rest[i - 1] == tags[i];
      } else {
        forall i | 0 <= i < |rest|
          ensures !IsRestoredTag(rest[i])
        {
          assert rest[i] == tags[i + 1];
        }
      }
    }
  }

  /** The fallback lists one row per snapshot, in order, with "-" for a missing start time. */
  lemma {:induction false} SnapshotRowsMatch(snaps: seq<Snapshot>)
    ensures |SnapshotRows(snaps)| == |snaps|
    ensures forall i :: 0 <= i < |snaps| ==>
              && SnapshotRows(snaps)[i].snapshotId == snaps[i].id
              && SnapshotRows(snaps)[i].createdAt == OrDash(snaps[i].startTime)
              && SnapshotRows(snaps)[i].sizeGiB == snaps[i].volumeSize
  {
    if snaps != [] {
      var n := |snaps| - 1;
      SnapshotRowsMatch(snaps[..n]);
      forall i | 0 <= i < n
        ensures SnapshotRows(snaps)[i] == SnapshotRows(snaps[..n])[i]
      {
      }
    }
  }

  /**
   * The command only reads. A failed instance describe is its failure; with
   * an instance the report is that of the selected one, with "-" for a
   * missing IP or launch time, and no snapshot is asked for.
   */
  lemma StatusWithInstance(e: Env, w: World, profile: string)
    ensures var s := StatusSpec(e, w, profile);
            var insts := SelectInstances(w.instances, InstanceFilters(profile));
            && Extends(w, s.world) && s.world == w.(log := s.world.log)
            && (s.result.Err? <==> Fails(e, Api.DescribeInstances))
            && (s.result.Err? ==> Issued(w, s.world) == [Call(Api.DescribeInstances, false)])
            && (s.result.Ok? && insts != [] ==>
                  && Issued(w, s.world) == [Call(Api.DescribeInstances, true)]
                  && var x := Selected(insts).value;
                     && x in insts
                     && s.result.value == InstanceStatus(profile, x.id, x.state, OrDash(x.publicIp),
                                                         OrDash(x.launchTime), Source(x.tags))
                     && (x.publicIp.None? ==> s.result.value.publicIp == "-")
                     && (x.launchTime.None? ==> s.result.value.launchTime == "-"))
  {
    var insts := SelectInstances(w.instances, InstanceFilters(profile));
    SelectedIsLastRunningOrFirst(insts);
    var s := StatusSpec(e, w, profile);
    RecordIssues(w, w, Api.DescribeInstances, !Fails(e, Api.DescribeInstances));
    if !Fails(e, Api.DescribeInstances) {
      if insts != [] {
        if exists i :: 0 <= i < |insts| && insts[i].state == Ec2StatusChecker.Running {
          var k :| 0 <= k < |insts| && insts[k].state == Ec2StatusChecker.Running &&
                   Selected(insts) == Some(insts[k]) &&
                   forall j :: k < j < |insts| ==> insts[j].state != Ec2StatusChecker.Running;
          assert Selected(insts).value in insts;
        } else {
          assert Selected(insts).value in insts;
        }
      } else {
        var d := Record(w, Api.DescribeInstances, true);
        var c := CheckSnapshotSpec(e, d, profile);
        RecordIssues(d, d, Api.DescribeSnapshots, !Fails(e, Api.DescribeSnapshots));
        IssuedAppend(w, d, c.world);
      }
    }
  }

  /**
   * Without an instance, the profile's snapshots are listed: a failed
   * snapshot describe is reported as such, an empty answer as "no instance
   * or snapshot", any other answer as one row per snapshot of the profile.
   */
  lemma StatusWithoutInstance(e: Env, w: World, profile: string)
    ensures var s := StatusSpec(e, w, profile);
            var insts := SelectInstances(w.instances, InstanceFilters(profile));
            var snaps := SelectSnapshots(w.snapshots, SnapshotFilters(profile));
            !Fails(e, Api.DescribeInstances) && insts == [] ==>
              && Extends(w, s.world)
              && Issued(w, s.world) == [Call(Api.DescribeInstances, true),
                                        Call(Api.DescribeSnapshots, !Fails(e, Api.DescribeSnapshots))]
              && s.world == w.(log := s.world.log)
              && (Fails(e, Api.DescribeSnapshots) <==> s.result == Ok(SnapshotCheckFailed(ApiFailed(Api.DescribeSnapshots))))
              && (s.result == Ok(NothingFound(profile)) <==> !Fails(e, Api.DescribeSnapshots) && snaps == [])
              && (s.result.Ok? && s.result.value.SnapshotsFound? ==>
                    && |s.result.value.rows| == |snaps| > 0
                    && forall i :: 0 <= i < |snaps| ==> s.result.value.rows[i].snapshotId == snaps[i].id)
  {
    var snaps := SelectSnapshots(w.snapshots, SnapshotFilters(profile));
    SnapshotRowsMatch(snaps);
    var d := Record(w, Api.DescribeInstances, true);
    RecordIssues(w, w, Api.DescribeInstances, true);
    var c := CheckSnapshotSpec(e, d, profile);
    RecordIssues(d, d, Api.DescribeSnapshots, !Fails(e, Api.DescribeSnapshots));
    IssuedAppend(w, d, c.world);
  }

  /** The snapshot fallback asks for exactly the profile's managed snapshots of the account. */
  lemma FallbackFindsProfileSnapshots(x: Snapshot, profile: string)
    ensures SnapshotMatchesAll(x, SnapshotFilters(profile)) <==>
              TagMatches(x.tags, "ManagedBy", ["Dumie"]) && TagMatches(x.tags, "Name", [profile]) &&
              x.owner == OwnedBySelf
  {
    var fs := SnapshotFilters(profile);
    assert fs[0] in fs && fs[1] in fs && fs[2] in fs;
  }
}
