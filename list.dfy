/**
 * The `list [--all]` command of cmd/list.go: one row per profile name,
 * built from the Dumie-managed instances and, with `--all`, completed by
 * "archived" rows for profiles that only have snapshots left.
 */
module ListCommand {
  import opened Wrappers
  import opened Strings
  import opened Provider

  /** One row of the table. */
  datatype ProfileInfo = ProfileInfo(
    name: string,
    instanceId: string,
    status: string,
    publicIp: string,
    launchTime: string)

  /**
   * What the command prints: "no profiles" or a table. The rows come out of a
   * Go map, in no particular order: the specification keeps them as a set,
   * the command as the sequence it happened to print.
   */
  datatype Listing<T> = NoProfiles | Table(rows: T)

  const Archived := "archived"

  function InstanceFilters(): seq<InstanceFilter>
  {
    [InstanceTag("ManagedBy", ["Dumie"])]
  }

  function SnapshotFilters(): seq<SnapshotFilter>
  {
    [SnapshotTag("ManagedBy", ["Dumie"]), SnapshotOwnedBy(OwnedBySelf)]
  }

  /** The name an instance is listed under: the value of its last Name tag, "-" without one. */
  function NameTag(tags: seq<Tag>): string
  {
    if tags == [] then "-"
    else if tags[|tags| - 1].key == "Name" then tags[|tags| - 1].value
    else NameTag(tags[..|tags| - 1])
  }

  /** The profile a snapshot belongs to: the value of its first Name tag, "" without one. */
  function FirstNameTag(tags: seq<Tag>): string
  {
    if tags == [] then ""
    else if tags[0].key == "Name" then tags[0].value
    else FirstNameTag(tags[1..])
  }

  function OrDash(v: Option<string>): string
  {
    if v.Some? then v.value else "-"
  }

  /** The row of one instance; a missing launch time is left empty, not "-". */
  function InstanceRow(x: Instance): ProfileInfo
  {
    ProfileInfo(NameTag(x.tags), x.id, x.state, OrDash(x.publicIp),
                if x.launchTime.Some? then x.launchTime.value else "")
  }

  function ArchivedRow(profile: string): ProfileInfo
  {
    ProfileInfo(profile, "-", Archived, "-", "-")
  }

  /** The map after the instance loop: each instance in turn written under its name. */
  function CollectInstances(insts: seq<Instance>): map<string, ProfileInfo>
  {
    if insts == [] then map[]
    else
      var row := InstanceRow(insts[|insts| - 1]);
      CollectInstances(insts[..|insts| - 1])[row.name := row]
  }

  /** The map after the snapshot loop: an archived row for each new non-empty profile name. */
  function AddArchived(snaps: seq<Snapshot>, m: map<string, ProfileInfo>): map<string, ProfileInfo>
  {
    if snaps == [] then m
    else
      var m' := AddArchived(snaps[..|snaps| - 1], m);
      var profile := FirstNameTag(snaps[|snaps| - 1].tags);
      if profile != "" && profile !in m' then m'[profile := ArchivedRow(profile)] else m'
  }

  predicate Shown(p: ProfileInfo, showAll: bool)
  {
    showAll || HasPrefix(p.status, "running")
  }

  /** The rows printed from a map. */
  function Visible(m: map<string, ProfileInfo>, showAll: bool): set<ProfileInfo>
  {
    set k | k in m && Shown(m[k], showAll) :: m[k]
  }

  /** Every row sits under its own name. */
  predicate KeyedByName(m: map<string, ProfileInfo>)
  {
    forall k :: k in m ==> m[k].name == k
  }

  function ListSpec(e: Env, w: World, showAll: bool): Step<Outcome<Listing<set<ProfileInfo>>>>
  {
    var d := DescribeInstancesStep(e, w, InstanceFilters());
    if d.result.Err? then Step(d.world, Err(d.result.error))
    else
      var m := CollectInstances(d.result.value);
      if !showAll then
        Step(d.world, Ok(if m == map[] then NoProfiles else Table(Visible(m, false))))
      else
        var s := DescribeSnapshotsStep(e, d.world, SnapshotFilters());
        var m' := if s.result.Ok? then AddArchived(s.result.value, m) else m;
        Step(s.world, Ok(if m' == map[] then NoProfiles else Table(Visible(m', true))))
  }

  /** The printed listing, its order forgotten. */
  function AsSet(r: Outcome<Listing<seq<ProfileInfo>>>): Outcome<Listing<set<ProfileInfo>>>
  {
    if r.Err? then Err(r.error)
    else if r.value.NoProfiles? then Ok(NoProfiles)
    else Ok(Table(set p | p in r.value.rows))
  }

  // ------------------------------------------------------------------ the command

  method FindNameTag(tags: seq<Tag>) returns (name: string)
    ensures name == NameTag(tags)
  {
    name := "-";
    var i := 0;
    while i < |tags|
      invariant 0 <= i <= |tags|
      invariant name == NameTag(tags[..i])
    {
      assert tags[..i + 1][..i] == tags[..i];
      if tags[i].key == "Name" {
        name := tags[i].value;
      }
      i := i + 1;
    }
    assert tags[..i] == tags;
  }

  method FindFirstNameTag(tags: seq<Tag>) returns (profile: string)
    ensures profile == FirstNameTag(tags)
  {
    profile := "";
    var i := 0;
    while i < |tags|
      invariant 0 <= i <= |tags|
      invariant FirstNameTag(tags) == FirstNameTag(tags[i..])
    {
      if tags[i].key == "Name" {
        profile := tags[i].value;
        return;
      }
      assert tags[i..][1..] == tags[i + 1..];
      i := i + 1;
    }
  }

  method CollectInstanceRows(insts: seq<Instance>) returns (m: map<string, ProfileInfo>)
    ensures m == CollectInstances(insts)
  {
    m := map[];
    var i := 0;
    while i < |insts|
      invariant 0 <= i <= |insts|
      invariant m == CollectInstances(insts[..i])
    {
      assert insts[..i + 1][..i] == insts[..i];
      var inst := insts[i];
      var name := FindNameTag(inst.tags);
      var publicIp := "-";
      var launchTime := "";
      if inst.publicIp.Some? {
        publicIp := inst.publicIp.value;
      }
      if inst.launchTime.Some? {
        launchTime := inst.launchTime.value;
      }
      m := m[name := ProfileInfo(name, inst.id, inst.state, publicIp, launchTime)];
      i := i + 1;
    }
    assert insts[..i] == insts;
  }

  method AddArchivedRows(snaps: seq<Snapshot>, m0: map<string, ProfileInfo>) returns (m: map<string, ProfileInfo>)
    ensures m == AddArchived(snaps, m0)
  {
    m := m0;
    var i := 0;
    while i < |snaps|
      invariant 0 <= i <= |snaps|
      invariant m == AddArchived(snaps[..i], m0)
    {
      assert snaps[..i + 1][..i] == snaps[..i];
      var profile := FindFirstNameTag(snaps[i].tags);
      if profile != "" {
        if profile !in m {
          m := m[profile := ArchivedRow(profile)];
        }
      }
      i := i + 1;
    }
    assert snaps[..i] == snaps;
  }

  /** The final loop over the map, in whatever order the map yields its entries. */
  method VisibleRows(m: map<string, ProfileInfo>, showAll: bool) returns (rows: seq<ProfileInfo>)
    ensures forall p :: p in rows <==> p in Visible(m, showAll)
    ensures KeyedByName(m) ==> forall i, j :: 0 <= i < j < |rows| ==> rows[i].name != rows[j].name
  {
    rows := [];
    var todo := m.Keys;
    while todo != {}
      invariant todo <= m.Keys
      invariant forall p :: p in rows <==> exists k :: k in m && k !in todo && m[k] == p && Shown(p, showAll)
      invariant KeyedByName(m) ==> forall i :: 0 <= i < |rows| ==> rows[i].name in m && rows[i].name !in todo
      invariant KeyedByName(m) ==> forall i, j :: 0 <= i < j < |rows| ==> rows[i].name != rows[j].name
      decreases todo
    {
      var k :| k in todo;
      if showAll || HasPrefix(m[k].status, "running") {
        rows := rows + [m[k]];
      }
      todo := todo - {k};
    }
  }

  /** The Run function of `list`. */
  method List(cloud: Cloud, showAll: bool) returns (r: Outcome<Listing<seq<ProfileInfo>>>)
    modifies cloud
    ensures Step(cloud.State(), AsSet(r)) == ListSpec(cloud.env, old(cloud.State()), showAll)
    ensures r.Ok? && r.value.Table? ==>
              forall i, j :: 0 <= i < j < |r.value.rows| ==> r.value.rows[i].name != r.value.rows[j].name
  {
    var insts := cloud.DescribeInstancesCall(InstanceFilters());
    if insts.Err? {
      return Err(insts.error);
    }
    var profiles := CollectInstanceRows(insts.value);
    CollectedNames(insts.value);
    if showAll {
      var snaps := cloud.DescribeSnapshotsCall(SnapshotFilters());
      if snaps.Ok? {
        ArchivedKeyedByName(snaps.value, profiles);
        profiles := AddArchivedRows(snaps.value, profiles);
      }
    }
    if profiles == map[] {
      return Ok(NoProfiles);
    }
    var rows := VisibleRows(profiles, showAll);
    r := Ok(Table(rows));
    assert (set p | p in rows) == Visible(profiles, showAll);
  }

  // ------------------------------------------------------------------ properties

  /** An instance is listed under the value of its last Name tag, or "-" when it has none. */
  lemma {:induction false} NameTagIsLast(tags: seq<Tag>)
    ensures (forall k :: 0 <= k < |tags| ==> tags[k].key != "Name") ==> NameTag(tags) == "-"
    ensures (exists k :: 0 <= k < |tags| && tags[k].key == "Name") ==>
              exists k :: 0 <= k < |tags| && tags[k].key == "Name" && NameTag(tags) == tags[k].value &&
                          forall j :: k < j < |tags| ==> tags[j].key != "Name"
  {
    if tags != [] {
      var n := |tags| - 1;
      if tags[n].key != "Name" {
        var init := tags[..n];
        NameTagIsLast(init);
        assert NameTag(tags) == NameTag(init);
        if exists k :: 0 <= k < |tags| && tags[k].key == "Name" {
          var k0 :| 0 <= k0 < |tags| && tags[k0].key == "Name";
          assert init[k0] == tags[k0];
          var k :| 0 <= k < |init| && init[k].key == "Name" && NameTag(init) == init[k].value &&
                   forall j :: k < j < |init| ==> init[j].key != "Name";
          assert tags[k] == init[k];
          forall j | k < j < |tags|
            ensures tags[j].key != "Name"
          {
            if j < n {
              assert tags[j] == init[j];
            }
          }
        } else {
          forall k | 0 <= k < |init|
            ensures init[k].key != "Name"
          {
            assert init[k] == tags[k];
          }
        }
      }
    }
  }

  /** A snapshot belongs to the value of its first Name tag, or to "" when it has none. */
  lemma {:induction false} FirstNameTagIsFirst(tags: seq<Tag>)
    ensures (forall t :: t in tags ==> t.key != "Name") ==> FirstNameTag(tags) == ""
    ensures (exists t :: t in tags && t.key == "Name") ==>
              exists k :: 0 <= k < |tags| && tags[k].key == "Name" && FirstNameTag(tags) == tags[k].value &&
                          forall j :: 0 <= j < k ==> tags[j].key != "Name"
  {
    if tags != [] && tags[0].key != "Name" {
      var rest := tags[1..];
      FirstNameTagIsFirst(rest);
      assert forall t :: t in rest ==> t in tags;
      if exists t :: t in tags && t.key == "Name" {
        var t :| t in tags && t.key == "Name";
        assert t in rest;
        var k :| 0 <= k < |rest| && rest[k].key == "Name" && FirstNameTag(rest) == rest[k].value &&
                 forall j :: 0 <= j < k ==> rest[j].key != "Name";
        assert tags[k + 1] == rest[k];
        forall j | 0 <= j < k + 1
          ensures tags[j].key != "Name"
        {
          if j > 0 {
            assert tags[j] == rest[j - 1];
          }
        }
      }
    }
  }

  /**
   * An instance's row: its name as above, its id and state, its public IP
   * or "-", its launch time or "" when it has none.
   */
  lemma InstanceRowFields(x: Instance)
    ensures var row := InstanceRow(x);
            && row.instanceId == x.id && row.status == x.state
            && (x.publicIp.None? ==> row.publicIp == "-")
            && (x.publicIp.Some? ==> row.publicIp == x.publicIp.value)
            && (x.launchTime.None? ==> row.launchTime == "")
            && ((forall k :: 0 <= k < |x.tags| ==> x.tags[k].key != "Name") ==> row.name == "-")
  {
    NameTagIsLast(x.tags);
  }

  /** A name is in the instance map iff some instance is listed under it; each row sits under its name. */
  lemma {:induction false} CollectedNames(insts: seq<Instance>)
    ensures KeyedByName(CollectInstances(insts))
    ensures forall k :: k in CollectInstances(insts) <==>
              exists i :: 0 <= i < |insts| && InstanceRow(insts[i]).name == k
  {
    if insts != [] {
      var n := |insts| - 1;
      var init := insts[..n];
      CollectedNames(init);
      var row := InstanceRow(insts[n]);
      forall k
        ensures k in CollectInstances(insts) <==> exists i :: 0 <= i < |insts| && InstanceRow(insts[i]).name == k
      {
        if k != row.name {
          if k in CollectInstances(init) {
            var i :| 0 <= i < |init| && InstanceRow(init[i]).name == k;
            assert insts[i] == init[i];
          }
          if exists i :: 0 <= i < |insts| && InstanceRow(insts[i]).name == k {
            var i :| 0 <= i < |insts| && InstanceRow(insts[i]).name == k;
            assert i < n && init[i] == insts[i];
          }
        }
      }
    }
  }

  /**
   * Instances are keyed by name: the row under a name is that of the LAST
   * instance listed under it, so a later instance with the same name
   * overwrites an earlier one.
   */
  lemma {:induction false} LaterInstanceWins(insts: seq<Instance>)
    ensures forall k :: k in CollectInstances(insts) ==>
              exists i :: 0 <= i < |insts| && CollectInstances(insts)[k] == InstanceRow(insts[i]) &&
                          forall j :: i < j < |insts| ==> InstanceRow(insts[j]).name != k
  {
    if insts != [] {
      var n := |insts| - 1;
      var init := insts[..n];
      LaterInstanceWins(init);
      var m0 := CollectInstances(init);
      var m := CollectInstances(insts);
      var row := InstanceRow(insts[n]);
      assert m == m0[row.name := row];
      forall k | k in m
        ensures exists i :: 0 <= i < |insts| && m[k] == InstanceRow(insts[i]) &&
                            forall j :: i < j < |insts| ==> InstanceRow(insts[j]).name != k
      {
        if k != row.name {
          assert k in m0 && m[k] == m0[k];
          var i :| 0 <= i < |init| && m0[k] == InstanceRow(init[i]) &&
                   forall j :: i < j < |init| ==> InstanceRow(init[j]).name != k;
          assert insts[i] == init[i];
          forall j | i < j < |insts|
            ensures InstanceRow(insts[j]).name != k
          {
            if j < n {
              assert insts[j] == init[j];
            }
          }
        }
      }
    }
  }

  /** The snapshot loop only adds: a row already in the map stays, and every added row is archived. */
  lemma {:induction false} ArchivedOnlyAdds(snaps: seq<Snapshot>, m: map<string, ProfileInfo>)
    ensures forall k :: k in m ==> k in AddArchived(snaps, m) && AddArchived(snaps, m)[k] == m[k]
    ensures forall k :: k in AddArchived(snaps, m) && k !in m ==> AddArchived(snaps, m)[k] == ArchivedRow(k)
  {
    if snaps != [] {
      ArchivedOnlyAdds(snaps[..|snaps| - 1], m);
    }
  }

  /**
   * A name without an instance row gets an archived row exactly when it is
   * non-empty and some snapshot's profile name is that name.
   */
  lemma {:induction false} ArchivedNames(snaps: seq<Snapshot>, m: map<string, ProfileInfo>)
    ensures forall k :: k !in m ==>
              (k in AddArchived(snaps, m) <==> k != "" && exists i :: 0 <= i < |snaps| && FirstNameTag(snaps[i].tags) == k)
  {
    if snaps != [] {
      var n := |snaps| - 1;
      var init := snaps[..n];
      ArchivedNames(init, m);
      forall k | k !in m
        ensures k in AddArchived(snaps, m) <==> k != "" && exists i :: 0 <= i < |snaps| && FirstNameTag(snaps[i].tags) == k
      {
        if exists i :: 0 <= i < |snaps| && FirstNameTag(snaps[i].tags) == k {
          var i :| 0 <= i < |snaps| && FirstNameTag(snaps[i].tags) == k;
          if i < n {
            assert init[i] == snaps[i];
          }
        }
        if exists i :: 0 <= i < |init| && FirstNameTag(init[i].tags) == k {
          var i :| 0 <= i < |init| && FirstNameTag(init[i].tags) == k;
          assert snaps[i] == init[i];
        }
      }
    }
  }

  /** The archived rows keep every row under its own name. */
  lemma {:induction false} ArchivedKeyedByName(snaps: seq<Snapshot>, m: map<string, ProfileInfo>)
    requires KeyedByName(m)
    ensures KeyedByName(AddArchived(snaps, m))
  {
    if snaps != [] {
      ArchivedKeyedByName(snaps[..|snaps| - 1], m);
    }
  }

  /** With `--all` every row is printed; without it, exactly the rows whose status starts with "running". */
  lemma VisibleRowsFilter(m: map<string, ProfileInfo>)
    ensures Visible(m, true) == m.Values
    ensures forall p :: p in Visible(m, false) <==> p in m.Values && HasPrefix(p.status, "running")
  {
    forall p | p in m.Values
      ensures p in Visible(m, true)
    {
      var k :| k in m && m[k] == p;
    }
  }

  /**
   * The command only reads. A describe-instances failure is the command's
   * failure; without `--all` the snapshots are never asked for; with it, a
   * failed snapshot describe is ignored and the instance rows are listed as
   * if there were no snapshots.
   */
  lemma ListCalls(e: Env, w: World, showAll: bool)
    ensures var s := ListSpec(e, w, showAll);
            var insts := SelectInstances(w.instances, InstanceFilters());
            && Extends(w, s.world) && s.world == w.(log := s.world.log)
            && (Fails(e, Api.DescribeInstances) <==> s.result.Err?)
            && (Fails(e, Api.DescribeInstances) ==> Issued(w, s.world) == [Call(Api.DescribeInstances, false)])
            && (!showAll ==> Issued(w, s.world) == [Call(Api.DescribeInstances, !Fails(e, Api.DescribeInstances))])
            && (showAll && !Fails(e, Api.DescribeInstances) ==>
                  Issued(w, s.world) == [Call(Api.DescribeInstances, true),
                                         Call(Api.DescribeSnapshots, !Fails(e, Api.DescribeSnapshots))])
            && (showAll && !Fails(e, Api.DescribeInstances) && Fails(e, Api.DescribeSnapshots) ==>
                  var m := CollectInstances(insts);
                  s.result == Ok(if m == map[] then NoProfiles else Table(Visible(m, true))))
  {
    var d := DescribeInstancesStep(e, w, InstanceFilters());
    RecordIssues(w, w, Api.DescribeInstances, d.result.Ok?);
    if showAll && d.result.Ok? {
      var sn := DescribeSnapshotsStep(e, d.world, SnapshotFilters());
      RecordIssues(d.world, d.world, Api.DescribeSnapshots, sn.result.Ok?);
      IssuedAppend(w, d.world, sn.world);
    }
  }

  /** No snapshot names a profile. */
  predicate NoneNamed(snaps: seq<Snapshot>)
  {
    forall i :: 0 <= i < |snaps| ==> FirstNameTag(snaps[i].tags) == ""
  }

  /** The map is empty exactly when there is no instance and no snapshot names a profile. */
  lemma EmptyMapIff(insts: seq<Instance>, snaps: seq<Snapshot>)
    ensures CollectInstances(insts) == map[] <==> insts == []
    ensures AddArchived(snaps, CollectInstances(insts)) == map[] <==> insts == [] && NoneNamed(snaps)
  {
    var m := CollectInstances(insts);
    CollectedNames(insts);
    if insts != [] {
      assert InstanceRow(insts[0]).name in m;
    }
    ArchivedNames(snaps, m);
    ArchivedOnlyAdds(snaps, m);
    var m' := AddArchived(snaps, m);
    if m == map[] {
      if exists i :: 0 <= i < |snaps| && FirstNameTag(snaps[i].tags) != "" {
        var i :| 0 <= i < |snaps| && FirstNameTag(snaps[i].tags) != "";
        assert FirstNameTag(snaps[i].tags) in m';
      }
    }
  }

  /**
   * "No profiles" is printed exactly when the describe succeeds, no managed
   * instance exists and, with `--all`, no readable managed snapshot of the
   * account names a profile.
   */
  lemma NoProfilesIff(e: Env, w: World, showAll: bool)
    ensures var s := ListSpec(e, w, showAll);
            var insts := SelectInstances(w.instances, InstanceFilters());
            var snaps := SelectSnapshots(w.snapshots, SnapshotFilters());
            s.result == Ok(NoProfiles) <==>
              && !Fails(e, Api.DescribeInstances)
              && insts == []
              && (showAll && !Fails(e, Api.DescribeSnapshots) ==> NoneNamed(snaps))
  {
    var insts := SelectInstances(w.instances, InstanceFilters());
    var snaps := SelectSnapshots(w.snapshots, SnapshotFilters());
    EmptyMapIff(insts, snaps);
    var s := ListSpec(e, w, showAll);
    var m := CollectInstances(insts);
    if !Fails(e, Api.DescribeInstances) {
      if showAll && !Fails(e, Api.DescribeSnapshots) {
        var m' := AddArchived(snaps, m);
        assert s.result == Ok(if m' == map[] then NoProfiles else Table(Visible(m', true)));
      } else {
        assert s.result == Ok(if m == map[] then NoProfiles else Table(Visible(m, showAll)));
      }
    }
  }

  /** The printed rows: each profile at most once, rows sitting under their own name. */
  lemma ListRowsKeyed(e: Env, w: World, showAll: bool)
    ensures var s := ListSpec(e, w, showAll);
            s.result.Ok? && s.result.value.Table? ==>
              forall p, q :: p in s.result.value.rows && q in s.result.value.rows && p.name == q.name ==> p == q
  {
    var insts := SelectInstances(w.instances, InstanceFilters());
    var m := CollectInstances(insts);
    CollectedNames(insts);
    var snaps := SelectSnapshots(w.snapshots, SnapshotFilters());
    ArchivedKeyedByName(snaps, m);
  }
}
