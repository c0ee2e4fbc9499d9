# dumie-cli, modelled in Dafny

dumie-cli gives each named *profile* one disposable EC2 development machine.
`use <profile>` takes a per-profile lock in a DynamoDB table. It then reuses the
profile's live instance or has one created, sweeps the profile's old snapshots
and connects. `delete <profile>` snapshots the instance's root volume and
terminates the instance. The next `use`, or the older `deploy`, restores it from
that snapshot through an AMI registered from it. `list` and `status` report what
exists. The EC2 helpers come in three generations: `internal/aws/...`, and the
older `dumie-cli/awsutils/ec2/...` and `dumie-cli/awsutils/...`. Their lock
helpers come in two.

This project models those commands and helpers against an in-memory account.

* `Provider` is the account. An immutable `World` holds the instances, images,
  snapshots, security groups, the lock table and its items, and a log of the
  calls issued, in order. The status probes of the instance and table waits
  are the one exception: they are not logged (see "Left out"). `Env` fixes
  what the commands do not control: the VPCs, which calls fail, and what each
  status probe answers. Every SDK call is
  a step function `World -> Step(World, answer)`. The class `Provider.Cloud`
  holds a world in its fields and offers each step as a method.
* Each Go helper and command is a `method` on a `Cloud`. Its `ensures` ties the
  final state and answer to a specification function of the initial state, as
  in `Step(cloud.State(), r) == DeleteSpec(cloud.env, old(cloud.State()), profile)`.
  The properties the code promises are lemmas about those functions. Where the
  Go code loops, the method loops too, with invariants.
* Modules follow the source:
  * `Poller`: `WaitForResourceStatus`.
  * `Ec2StatusChecker` and `TableStatusChecker`: the two status checkers.
  * `Lock` and `LegacyLock`: the two DynamoDB locks.
  * `Ec2`, `LegacyEc2`, `Snapshots` and `LegacySnapshots`: the EC2 and snapshot helpers.
  * `UseCommand`, `DeleteCommand`, `LegacyDeleteCommand`, `ListCommand` and `StatusCommand`: the commands.
  * `Deployment`: the older `RestoreOrCreateInstance` and `deploy manual`.
  * `Strings`: Go's string order and the image-name pattern.
* Helpers that are identical across generations are modelled once, as follows:
  * `Ec2` covers GetDefaultVPCID, CreateOrGetSecurityGroup, SearchEC2Instance and GetLatestAmazonLinuxAMI of all three EC2 files.
  * `Lock` covers ReleaseLock and CheckLockStatus of both lock files.
  * `Snapshots` covers CreateSnapshot of both snapshot files.
  * `Poller` covers both copies of wait_utils.go.

## Model

| member | source | states |
|---|---|---|
| Poller.ProbesIssued | internal/aws/common/wait_utils.go:27-60 | the wait calls CheckStatus at least once and at most MaxRetries (300) times |
| Poller.FirstDecisive | internal/aws/common/wait_utils.go:27-49 | the index of the first probe that ends the loop (a probe error, a target status or an error status), or 300; every earlier probe was undecided |
| Poller.WaitForResourceStatus | internal/aws/common/wait_utils.go:22-67 | the polling loop answers what the reference `Wait` answers, after exactly `ProbesIssued` probes |
| Poller.WaitFromDecidedAt | internal/aws/common/wait_utils.go:27-66 | from probe i on, the wait answers the decision of the first decisive probe, or times out if there is none before 300 |
| Poller.WaitIsFirstDecisiveProbe | internal/aws/common/wait_utils.go:27-66 | every probe before the first decisive one was undecided; the wait answers that probe's decision, or a timeout when there is none |
| Poller.WaitReachesFirstTarget | internal/aws/common/wait_utils.go:33-40 | if probe k is the first decisive one and answers a target status, the wait succeeds with that status after k+1 probes |
| Poller.WaitStopsAtFirstError | internal/aws/common/wait_utils.go:42-49 | if probe k is the first decisive one and answers an error status that is not a target, the wait fails with that status after k+1 probes |
| Poller.WaitStopsAtProbeError | internal/aws/common/wait_utils.go:28-31 | if probe k is the first decisive one and CheckStatus itself fails, the wait fails with that error after k+1 probes |
| Poller.WaitTimesOutIff | internal/aws/common/wait_utils.go:27-66 | the wait times out if and only if all 300 probes were undecided, and then it made 300 probes |
| Poller.WaitReachedIsTarget | internal/aws/common/wait_utils.go:33-49 | a success names a target status; an error-state result names an error status that is not a target |
| Poller.FirstDecisiveIs | internal/aws/common/wait_utils.go:27-49 | a decisive probe preceded only by undecided ones is the first decisive probe |
| Poller.WaitDependsOnlyOnAnswers | internal/aws/common/wait_utils.go:22-67 | two checkers with the same probe answers and the same classification of those answers wait the same way |
| Ec2StatusChecker.StatusClasses | internal/aws/ec2/status_checker.go:40-47 | "running" is the only target; "terminated" and "shutting-down" are the only error states; pending, stopping and stopped keep the wait going |
| Ec2StatusChecker.CheckStatusCases | internal/aws/ec2/status_checker.go:23-38 | a probe fails if and only if the describe fails or finds no reservation or no instance; otherwise it answers the first instance's state |
| Ec2StatusChecker.InstanceWaitOutcome | internal/aws/ec2/status_checker.go:40-51 | the checker's resource id is the instance id; waiting on it succeeds only with "running" and fails in state only with "terminated" or "shutting-down" |
| Ec2StatusChecker.PendingThenRunning | internal/aws/common/wait_utils.go:27-40 | k pending probes followed by a running one make the wait succeed after k+1 probes |
| TableStatusChecker.StatusClasses | dumie-cli/awsutils/ddb/status_checker.go:37-43 | "ACTIVE" is the only target and "DELETING" the only error state; CREATING and UPDATING keep the wait going |
| TableStatusChecker.CheckStatusCases | dumie-cli/awsutils/ddb/status_checker.go:24-35 | a probe fails if and only if DescribeTable fails; otherwise it answers the table status |
| TableStatusChecker.TableWaitOutcome | dumie-cli/awsutils/ddb/status_checker.go:37-47 | the checker's resource id is the table name; waiting on it succeeds only with ACTIVE and fails in state only with DELETING |
| Lock.LockStatus | internal/aws/ddb/ddb_utils.go:145-160 | no item reads as free; a missing or non-numeric Expires is the "invalid Expires" error, and only that; a number outside the int64 range is the parse error, and only that; otherwise the lock reads as held if and only if Expires is later than now |
| Lock.SearchLockTable | internal/aws/ddb/ddb_utils.go:38-49 | the method answers and records exactly the DescribeTable call: whether the lock table exists, or the error |
| Lock.CreateLockTable | internal/aws/ddb/ddb_utils.go:51-86 | the method creates the table and then waits for it as `CreateLockTableSpec` says (see `CreateWaitsForActive`) |
| Lock.CheckLockStatus | internal/aws/ddb/ddb_utils.go:134-161 | the method reads the item once and answers `LockStatus` of it |
| Lock.AcquireLock | internal/aws/ddb/ddb_utils.go:88-117 | the method performs the pre-check and the conditional put as `AcquireLockSpec` says (see `AcquireSucceedsIff`) |
| Lock.ReleaseLock | internal/aws/ddb/ddb_utils.go:119-132 | the method issues one DeleteItem as `ReleaseLockSpec` says (see `ReleaseFrees`) |
| Lock.AbsentIsFree | internal/aws/ddb/ddb_utils.go:145-147 | a lock with no item reads as free, and the put's condition accepts it |
| Lock.StatusIsHeld | internal/aws/ddb/ddb_utils.go:149-160 | for a readable item (none, or an Expires number in the int64 range), the status check answers exactly whether the lock is held at now |
| Lock.StatusAgreesWithCondition | internal/aws/ddb/ddb_utils.go:106-108 | the pre-check's "free" (`Expires <= now`) and the put's condition (`Expires < now`) agree, except when Expires equals now: the lock reads free exactly when the item is readable and the put would write |
| Lock.AcquireSucceedsIff | internal/aws/ddb/ddb_utils.go:88-117 | the acquire succeeds if and only if the read and the put go through, the item read is readable and the condition holds; the item is then set to expire at now + 300 s and otherwise left alone; only DynamoDB calls are issued and no EC2 resource changes |
| Lock.HeldIsRefused | internal/aws/ddb/ddb_utils.go:89-95 | a held lock is refused after the read alone: "already held", nothing written |
| Lock.ExpirySecondGap | internal/aws/ddb/ddb_utils.go:93-110 | in the second when Expires equals now, the check reads the lock as free but the put's condition refuses it: the acquire fails and the item is unchanged |
| Lock.MalformedIsAnError | internal/aws/ddb/ddb_utils.go:150-153 | an item whose Expires is not a number makes both the check and the acquire fail with the invalid-Expires error |
| Lock.UnparsableIsAnError | internal/aws/ddb/ddb_utils.go:155-158 | an Expires number outside the int64 range makes the check and the acquire fail with the parse error, and the item stays, even where the put's condition would have let the write through |
| Lock.LeaseLastsTtl | internal/aws/ddb/ddb_utils.go:97-110 | after a successful acquire at `start`, another acquire fails up to start + 300 and succeeds after it |
| Lock.ReleaseFrees | internal/aws/ddb/ddb_utils.go:119-132 | after a successful release the lock reads as free and no other lock item or EC2 resource changes |
| Lock.ReleaseIgnoresHolder | internal/aws/ddb/ddb_utils.go:119-131 | the release succeeds if and only if the DeleteItem call goes through, whoever holds the lock |
| Lock.CreateWaitsForActive | internal/aws/ddb/ddb_utils.go:51-86 | creation succeeds only after the table status wait reached ACTIVE; a refused CreateTable is reported as such; success leaves an existing, empty table |
| LegacyLock.AcquireLock | dumie-cli/awsutils/ddb_lock.go:75-96 | the method issues the conditional put alone, as `LegacyLock.AcquireLockSpec` says |
| LegacyLock.CreateLockTable | dumie-cli/awsutils/ddb_lock.go:48-73 | the method issues CreateTable alone, as `LegacyLock.CreateLockTableSpec` says |
| LegacyLock.AcquireSucceedsIff | dumie-cli/awsutils/ddb_lock.go:75-96 | the older acquire succeeds if and only if the put goes through and its condition holds; it sets the item to now + 300 s on success and issues one PutItem |
| LegacyLock.PreCheckKeepsOutcome | dumie-cli/awsutils/ddb_lock.go:75-96 | when the read goes through, the newer acquire with its pre-check succeeds exactly when the older put-only acquire does and the item is readable; on a readable item both leave the same lock items |
| LegacyLock.CreateDoesNotWait | dumie-cli/awsutils/ddb_lock.go:48-73 | the older creation succeeds exactly when CreateTable does, and polls nothing |
| Ec2.LiveFiltersMatch | internal/aws/ec2/ec2_utils.go:85-96 | the search filters select exactly the instances named after the profile that are running or pending |
| Ec2.GetDefaultVpcId | internal/aws/ec2/ec2_utils.go:16-34 | the method issues one DescribeVpcs and answers as `DefaultVpcIdSpec` says (see `DefaultVpcOutcome`) |
| Ec2.CreateOrGetSecurityGroup | internal/aws/ec2/ec2_utils.go:36-82 | the method follows `SecurityGroupSpec`: reuse the named group, else create it in the default VPC and open SSH |
| Ec2.SearchInstance | internal/aws/ec2/ec2_utils.go:84-107 | the method issues one filtered DescribeInstances and answers as `SearchInstanceSpec` says (see `SearchFindsLive`) |
| Ec2.WaitForInstanceRunning | internal/aws/ec2/ec2_utils.go:151-154 | the method polls the instance with the EC2 status checker, as `WaitRunningSpec` says |
| Ec2.RunAndWait | internal/aws/ec2/ec2_utils.go:125-148 | the method runs one instance and waits for it to run, as `RunAndWaitSpec` says (see `RunAndWaitEc2Only`) |
| Ec2.LaunchInstance | internal/aws/ec2/ec2_utils.go:109-149 | the method launches with the Name and ManagedBy tags, as `LaunchSpec` says (see `LaunchOutcome`) |
| Ec2.LatestImage | internal/aws/ec2/ec2_utils.go:179-184 | the loop picks an image no other image is newer than, and the earliest such one: every earlier image is strictly older |
| Ec2.GetLatestAmazonLinuxAmi | internal/aws/ec2/ec2_utils.go:156-187 | the method describes the images once and answers as `LatestAmiSpec` says (see `LatestAmiOutcome`) |
| Ec2.FindDevice | internal/aws/ec2/ec2_utils.go:197-203 | the scan finds nothing if and only if no mapping has the device name; otherwise it answers the volume of the first mapping with that name |
| Ec2.GetRootVolumeId | internal/aws/ec2/ec2_utils.go:189-204 | the method describes the instance once and answers as `RootVolumeSpec` says (see `RootVolumeOutcome`) |
| Ec2.TerminateInstance | internal/aws/ec2/ec2_utils.go:206-217 | the method issues one TerminateInstances, as `TerminateSpec` says |
| Ec2.RegisterAmiFromSnapshot | internal/aws/ec2/ec2_utils.go:219-259 | the method looks for an own AMI named after the snapshot and registers one only when none is found, as `RegisterAmiSpec` says |
| Ec2.RegisterTwice | internal/aws/ec2/ec2_utils.go:219-259 | registering from the same snapshot twice adds at most one image, and two successes answer the same AMI |
| Ec2.DefaultVpcOutcome | internal/aws/ec2/ec2_utils.go:16-34 | no default VPC gives the "no default VPC" error; a success names a default VPC; exactly one DescribeVpcs is recorded |
| Ec2.ExistingGroupReused | internal/aws/ec2/ec2_utils.go:37-43 | when a group with the name exists and the describe goes through, the first such group is answered after that single call |
| Ec2.NoDefaultVpcNoGroup | internal/aws/ec2/ec2_utils.go:45-48 | with no such group and no default VPC, the call fails and creates no group |
| Ec2.CreatedGroupOutcome | internal/aws/ec2/ec2_utils.go:50-81 | a created group gets the name, the default VPC and the Dumie description; it is answered if and only if opening port 22 to 0.0.0.0/0 succeeds, and is left without the rule otherwise |
| Ec2.GroupAnswerIsNamed | internal/aws/ec2/ec2_utils.go:36-82 | a group id that is answered belongs to a group of that name |
| Ec2.SearchFindsLive | internal/aws/ec2/ec2_utils.go:84-107 | the search answers "none" if and only if the describe goes through and no instance of the profile is running or pending; otherwise it answers the first such instance |
| Ec2.LaunchOutcome | internal/aws/ec2/ec2_utils.go:109-149 | the launch adds one instance if RunInstances goes through, and logs that call alone (the wait's status probes are not logged); it succeeds if and only if the wait then reaches running; the new instance has the image, type, group, key and the Name and ManagedBy tags; a failed wait is reported as such |
| Ec2.LatestFromIsLatest | internal/aws/ec2/ec2_utils.go:179-184 | the rest of the scan keeps "no image is newer, all earlier images are strictly older" |
| Ec2.LatestIsLatest | internal/aws/ec2/ec2_utils.go:179-184 | the chosen image has no newer image, and every earlier one is strictly older |
| Ec2.LatestIsUnique | internal/aws/ec2/ec2_utils.go:179-184 | any index with those two properties is the chosen one |
| Ec2.LatestAmiOutcome | internal/aws/ec2/ec2_utils.go:156-187 | no matching Amazon Linux image gives the "no AMI" error; a success names a matching image with no newer match; one DescribeImages is recorded |
| Ec2.DeviceVolumeIsFirst | internal/aws/ec2/ec2_utils.go:197-203 | the device lookup fails if and only if no mapping has the name, and otherwise answers the first mapping with it |
| Ec2.RootVolumeOutcome | internal/aws/ec2/ec2_utils.go:189-204 | a failed or empty describe gives "could not find instance"; a success answers the volume on /dev/xvda of that instance; "root volume not found" means it has no /dev/xvda mapping |
| Ec2.RegisterReusesExisting | internal/aws/ec2/ec2_utils.go:220-235 | an existing own AMI named after the snapshot is answered after the describe alone |
| Ec2.RegisteredImageUsesSnapshot | internal/aws/ec2/ec2_utils.go:237-258 | a newly registered image is own, available, named after the snapshot, and backed by it on /dev/xvda |
| Ec2.RegisterAtMostOnce | internal/aws/ec2/ec2_utils.go:219-259 | two registrations from one snapshot add at most one image and agree when both succeed |
| Ec2.LatestAmiQuiet | internal/aws/ec2/ec2_utils.go:156-187 | the image lookup issues only DescribeImages and changes nothing |
| Ec2.SearchQuiet | internal/aws/ec2/ec2_utils.go:84-107 | the search issues only DescribeInstances and changes nothing |
| Ec2.SecurityGroupQuiet | internal/aws/ec2/ec2_utils.go:36-82 | the group helper starts with DescribeSecurityGroups, issues only group and VPC calls, and touches no instance |
| Ec2.CreateGroupQuiet | internal/aws/ec2/ec2_utils.go:50-81 | creating the group and opening SSH on it issues only group calls and touches no instance |
| Ec2.RegisterAmiQuiet | internal/aws/ec2/ec2_utils.go:219-259 | the registration starts with DescribeImages, issues only EC2 calls, and touches no instance |
| Ec2.RunAndWaitEc2Only | internal/aws/ec2/ec2_utils.go:125-148 | the launch logs one RunInstances and no other call (the wait's status probes are not logged); the new instance, when there is one, has exactly the requested image, type, group, key and tags |
| Strings.LessIrreflexive | internal/aws/ec2/ec2_utils.go:181 | Go's byte-wise `>` on creation dates is irreflexive |
| Strings.LessTransitive | internal/aws/ec2/ec2_utils.go:181 | the string order is transitive |
| Strings.LessTotal | internal/aws/ec2/ec2_utils.go:181 | any two strings are equal or ordered one way |
| Strings.LessAsymmetric | internal/aws/ec2/ec2_utils.go:181 | the string order is asymmetric |
| Strings.MatchesStarRoundTrip | internal/aws/ec2/ec2_utils.go:162 | every name of the form prefix + anything + suffix matches the `amzn2-ami-hvm-*-x86_64-gp2` style pattern |
| LegacyEc2.LaunchInstance | dumie-cli/awsutils/ec2/ec2_utils.go:109-145 | the method runs and waits with the Name tag and the fixed key, as `LegacyEc2.LaunchSpec` says |
| LegacyEc2.OldestLaunchInstance | dumie-cli/awsutils/ec2_utils.go:89-107 | the method issues one RunInstances with no tags and no key, as `OldestLaunchSpec` says |
| LegacyEc2.LaunchOutcome | dumie-cli/awsutils/ec2/ec2_utils.go:109-145 | the older launch succeeds if and only if the run goes through and the wait reaches running, and logs only the RunInstances call (the wait's status probes are not logged); the instance carries only the Name tag and the key "dumie-key-pair" |
| LegacyEc2.OldestLaunchDoesNotWait | dumie-cli/awsutils/ec2_utils.go:89-107 | the oldest launch succeeds exactly when RunInstances does, polls nothing, and adds one pending, untagged instance without a key |
| Snapshots.ProfileFiltersMatch | internal/aws/ec2/snapshot.go:58-70 | the restore filters select exactly the own snapshots tagged Name = profile and ManagedBy = Dumie |
| Snapshots.CreateSnapshot | internal/aws/ec2/snapshot.go:23-54 | the method issues one CreateSnapshot with the description and the three tags, as `CreateSnapshotSpec` says |
| Snapshots.TryRestoreFromSnapshot | internal/aws/ec2/snapshot.go:56-109 | the method searches, registers, gets the group and key, and launches, as `RestoreSpec` says |
| Snapshots.DeleteSnapshotAndAmiIfExists | internal/aws/ec2/snapshot.go:111-150 | the method deregisters every own AMI backed by the snapshot, stopping at the first failure, and then deletes the snapshot, as `DeleteSnapshotAndAmiSpec` says |
| Snapshots.DeleteOldSnapshotsByProfile | internal/aws/ec2/snapshot.go:152-185 | the method sweeps every snapshot of the profile and carries on past failures, as `DeleteOldSnapshotsSpec` says |
| Snapshots.CreatedSnapshotIsFound | internal/aws/ec2/snapshot.go:23-54 | a created snapshot is appended with the volume, the "Snapshot before deleting instance" description and the Name, InstanceID and ManagedBy tags, and the profile's restore search finds it |
| Snapshots.RestoreFallsBackIff | internal/aws/ec2/snapshot.go:72-79 | the restore answers "nothing to restore" if and only if the search goes through and no snapshot of the profile exists; it then made only that call |
| Snapshots.RestoreUsesFirstSnapshot | internal/aws/ec2/snapshot.go:77-85 | with snapshots found, the restore proceeds from the first one, which belongs to the profile |
| Snapshots.RestoreFromEffects | internal/aws/ec2/snapshot.go:84-108 | a restore from a snapshot takes no lock and adds at most one instance, none without a key; the instance it reports is the one added, running and found by the profile's search |
| Snapshots.RestoreLaunchesAtMostOne | internal/aws/ec2/snapshot.go:56-109 | the restore takes no lock and adds at most one instance, none without a snapshot or a key; the instance it reports is the one added, running and found by the profile's search |
| Snapshots.RestoreFromOutcome | internal/aws/ec2/snapshot.go:81-108 | a failed AMI, group or key step launches nothing; a success launches exactly one running t2.micro from the registered AMI with the group, the key and the Name and ManagedBy tags |
| Snapshots.DeregisterAllOutcome | internal/aws/ec2/snapshot.go:129-138 | the loop only removes images, removes none outside the list, removes all listed ones when it succeeds, and issues only DeregisterImage calls |
| Snapshots.DeregisterAllImages | internal/aws/ec2/snapshot.go:129-138 | the loop removes only listed images, all of them when it succeeds, and leaves snapshots and instances alone |
| Snapshots.DeregisterAllLog | internal/aws/ec2/snapshot.go:129-138 | the loop only appends to the call log, and every call it appends is a DeregisterImage |
| Snapshots.DeleteSnapshotAndAmiOutcome | internal/aws/ec2/snapshot.go:111-150 | success removes the snapshot and leaves no image backed by it; failure keeps the snapshot; no image appears and no instance changes |
| Snapshots.DeleteSnapshotStepOutcome | internal/aws/ec2/snapshot.go:141-146 | the DeleteSnapshot call removes the snapshot only when it goes through, and touches no image or instance |
| Snapshots.DeregisterFailureKeepsSnapshot | internal/aws/ec2/snapshot.go:129-146 | if a deregistration fails, the helper fails, the snapshot stays, and DeleteSnapshot is never issued |
| Snapshots.SweepEachOutcome | internal/aws/ec2/snapshot.go:177-182 | the sweep reports only listed snapshots; every listed snapshot is either gone or reported as failed; unlisted snapshots stay and no snapshot appears |
| Snapshots.DeregisterAllEc2Only | internal/aws/ec2/snapshot.go:129-138 | the deregistration loop issues only EC2 calls and leaves the lock table alone |
| Snapshots.DeleteSnapshotAndAmiEc2Only | internal/aws/ec2/snapshot.go:111-150 | deleting a snapshot and its AMIs issues only EC2 calls |
| Snapshots.SweepEachEc2Only | internal/aws/ec2/snapshot.go:177-182 | the sweep issues only EC2 calls |
| Snapshots.DeleteOldSnapshotsEc2Only | internal/aws/ec2/snapshot.go:152-185 | the cleanup issues only EC2 calls |
| Snapshots.DeleteOldSnapshotsOutcome | internal/aws/ec2/snapshot.go:152-185 | the cleanup fails if and only if the describe fails, and then changes nothing; otherwise every snapshot of the profile is gone or reported, every other snapshot stays, every reported id is a profile snapshot, and no instance changes |
| Snapshots.ProfileSnapshotIds | internal/aws/ec2/snapshot.go:158-176 | the ids the Name/ManagedBy/self search yields are exactly the ids of the profile's snapshots |
| Snapshots.DeleteOldSnapshotsSwept | internal/aws/ec2/snapshot.go:172-184 | after a successful search every profile snapshot is deleted or reported, every other snapshot stays, and only profile snapshots are reported |
| LegacySnapshots.TryRestoreFromSnapshot | dumie-cli/awsutils/ec2/snapshot.go:55-104 | the method follows the older restore, as `LegacySnapshots.RestoreSpec` says |
| LegacySnapshots.OlderSearchIsWider | dumie-cli/awsutils/ec2/snapshot.go:57-65 | the older search matches own snapshots tagged Name = profile, whatever their ManagedBy tag, and so finds every snapshot the newer one finds |
| LegacySnapshots.RestoreOutcome | dumie-cli/awsutils/ec2/snapshot.go:55-104 | "nothing to restore" if and only if the search goes through and finds nothing; without a key nothing is launched; a launched instance carries only the Name tag and the fixed key, is running, and is t2.micro |
| LegacySnapshots.RestoreEffects | dumie-cli/awsutils/ec2/snapshot.go:55-104 | the restore starts with DescribeSnapshots, issues only EC2 calls, and adds at most one instance; that instance uses the AMI registered from the first snapshot found |
| LegacySnapshots.LaunchRestoredEffects | dumie-cli/awsutils/ec2/snapshot.go:85-103 | after the registration at most one instance is launched, none without a key pair or when the run fails; a reported instance runs the registered image with the Name tag, the fixed key and t2.micro |
| UseCommand.LockIdOf | cmd/use.go:94 | the lock id is "profile-" followed by the profile name |
| UseCommand.EnsureTable | cmd/use.go:81-91 | the method checks for the table and creates it only when it is missing, as `EnsureTableSpec` says |
| UseCommand.AcquireWithRetry | cmd/use.go:93-114 | the retry loop ends as `AcquireRetrySpec` says, from attempt 0 (see `RetryOutcome`) |
| UseCommand.LaunchFresh | dumie-cli/awsutils/ec2/deployment.go:58-82 | the method looks up the latest Amazon Linux image, gets the default group and launches a t2.micro with the key, as `LaunchFreshSpec` says (see `LaunchFreshOutcome`) |
| UseCommand.CreateNewInstance | cmd/use.go:45-58 | the method fails with the role lookup's error, else restores the profile's snapshot, else launches afresh, as `CreateInstanceSpec` says (see `CreateInstanceOutcome`) |
| UseCommand.UseLocked | cmd/use.go:116-158 | the method performs the locked part of the command, as `UseLockedSpec` says (see `UseLockedOutcome`) |
| UseCommand.Use | cmd/use.go:67-159 | the method performs the whole command, as `UseSpec` says (see `UseLockDiscipline`) |
| UseCommand.EnsureTableOutcome | cmd/use.go:81-91 | ensuring the table issues only table calls, changes no EC2 resource, and on success leaves the table in place with its items untouched when it already existed |
| UseCommand.AcquireIssues | cmd/use.go:99-104 | one acquire attempt issues only calls on the profile's lock item |
| UseCommand.RetryOutcome | cmd/use.go:93-113 | the loop succeeds if and only if some attempt from 0 to 120 (one every 5 s up to the 10-minute budget) would take the lock; then it is the first such attempt, and the item expires 300 s after it; otherwise it fails with a timeout and leaves the items as they were; only lock calls are issued |
| UseCommand.RetryTimeout | cmd/use.go:93-113 | a timed-out lock loop found the lock taken at every attempt, issued only reads and puts of the key, and changed nothing |
| UseCommand.LiveLeaseIsWaitedOut | cmd/use.go:93-113 | a lease taken at or before the start is waited out: the lock is taken at the first attempt after it expires |
| UseCommand.StaleLeaseTakenAtOnce | cmd/use.go:93-113 | an already expired lease is taken on the first attempt |
| UseCommand.LaunchFreshOutcome | dumie-cli/awsutils/ec2/deployment.go:58-82 | the fresh launch takes no lock and adds at most one instance, none without a key or when RunInstances fails; the instance it reports is the one added: a running t2.micro from the latest Amazon Linux image, with the key, found by the profile's search |
| UseCommand.CreateInstanceOutcome | cmd/use.go:45-58 | creation takes no lock and adds at most one instance; a role lookup failure is reported with nothing done; without a key nothing is launched; without a snapshot of the profile it is the fresh launch after the snapshot search; the instance reported is the one added, running and found by the profile's search |
| UseCommand.PickInstanceOutcome | cmd/use.go:122-138 | a live instance is reused with nothing added, and the pick says so; only without one is an instance created, and then it is the one added, running and live; a role or key failure then fails the pick with nothing launched; a search failure fails it with nothing changed |
| UseCommand.UseLockedOutcome | cmd/use.go:122-153 | the locked part issues only EC2 calls and adds at most one instance, none when the profile has a live one; it succeeds if and only if an instance was picked and its DNS name is not empty; the snapshot cleanup runs after the pick exactly on success; the reported instance is live and marked created exactly when the profile had none |
| UseCommand.ReuseNeverCreates | cmd/use.go:128-138 | when a live instance exists, the role and key lookups make no difference to the command |
| UseCommand.UseLockDiscipline | cmd/use.go:67-159 | the command adds at most one instance, none when the profile has a live one; a table failure stops the command before any lock call; a lock timeout means no attempt could take the lock, and no EC2 call was made; the release is issued if and only if the lock was taken, and it is the last call |
| UseCommand.UseTableFailure | cmd/use.go:67-159 | without the lock table the command fails with that error after table calls alone, and never releases |
| UseCommand.UseLockTimeout | cmd/use.go:67-159 | a lock timeout ends the command with a timeout after table and lock calls only; EC2 is untouched and no release is issued |
| UseCommand.UseReleasesLast | cmd/use.go:67-159 | once the lock is taken, the release is issued and it is the last call; at most one instance is added, none when the profile has a live one |
| DeleteCommand.Delete | cmd/delete.go:17-63 | the method performs the command, as `DeleteSpec` says |
| DeleteCommand.RetireStopsAtVolume | cmd/delete.go:40-45 | when the root volume cannot be found, only the describe is issued |
| DeleteCommand.RetireStopsAtSnapshot | cmd/delete.go:47-53 | when the snapshot fails, the command stops there: no terminate, no new snapshot, no instance change |
| DeleteCommand.RetireTerminatesAfterSnapshot | cmd/delete.go:40-62 | after a successful snapshot the calls are describe, snapshot, terminate, and the new snapshot is appended; the command succeeds if and only if the terminate does, reporting the instance and the snapshot |
| DeleteCommand.RetireEc2Only | cmd/delete.go:40-62 | the snapshot-then-terminate tail issues only EC2 calls |
| DeleteCommand.TerminateOnlyAfterSnapshot | cmd/delete.go:40-62 | an instance is terminated only right after a successful snapshot of its /dev/xvda volume; without a terminate no instance changes |
| DeleteCommand.RetireTerminatesLast | cmd/delete.go:56-62 | when the terminate is issued it is the last call and names the instance |
| DeleteCommand.DeleteWithoutInstance | cmd/delete.go:28-37 | "no running instance" if and only if the search goes through and no instance of the profile is live; then only the search was issued and nothing changed |
| DeleteCommand.DeleteEc2Only | cmd/delete.go:17-63 | the command issues only EC2 calls |
| DeleteCommand.DeleteTerminatesFirstLive | cmd/delete.go:28-62 | the instance terminated is the profile's first live instance |
| DeleteCommand.RetireShutsDown | cmd/delete.go:56-62 | after a completed snapshot-then-terminate the terminated instance's records show "shutting-down" and every other instance is unchanged |
| DeleteCommand.DeleteShutsDown | cmd/delete.go:28-62 | after a successful delete the reported instance is shutting down, no other instance changed, and the profile's search no longer finds it |
| DeleteCommand.DeleteKeepsProfileSnapshot | cmd/delete.go:47-54 | a successful delete appends exactly one snapshot; it is the reported one, describes the instance, belongs to the profile (so the next restore finds it), and the instance was the profile's first live one |
| LegacyDeleteCommand.LegacyDelete | dumie-cli/cmd/delete.go:16-50 | the method performs the older command on an instance id, as `LegacyDeleteSpec` says |
| LegacyDeleteCommand.LegacyDeleteOrdering | dumie-cli/cmd/delete.go:27-49 | the older delete issues only EC2 calls, starting with the describe; a terminate comes last, right after a successful snapshot of the root volume; success if and only if that terminate went through |
| ListCommand.FindNameTag | cmd/list.go:80-84 | the scan answers `NameTag` of the tags (see `NameTagIsLast`) |
| ListCommand.FindFirstNameTag | cmd/list.go:117-123 | the scan with early exit answers `FirstNameTag` of the tags (see `FirstNameTagIsFirst`) |
| ListCommand.CollectInstanceRows | cmd/list.go:74-101 | the loop builds `CollectInstances` of the described instances |
| ListCommand.AddArchivedRows | cmd/list.go:116-135 | the loop builds `AddArchived` of the snapshots over the instance rows |
| ListCommand.VisibleRows | cmd/list.go:144-150 | the rows printed are exactly the visible rows of the map, each name once |
| ListCommand.List | cmd/list.go:47-153 | the command issues its calls and answers the table as `ListSpec` says, up to the order of the rows; the printed rows have pairwise distinct names |
| ListCommand.NameTagIsLast | cmd/list.go:76-84 | an instance's name is "-" without a Name tag, and otherwise the value of its last Name tag |
| ListCommand.FirstNameTagIsFirst | cmd/list.go:117-123 | a snapshot's profile is "" without a Name tag, and otherwise the value of its first Name tag |
| ListCommand.InstanceRowFields | cmd/list.go:76-99 | a row carries the instance id and state, "-" for a missing public IP, "" for a missing launch time, and "-" for a missing name |
| ListCommand.CollectedNames | cmd/list.go:74-101 | every row is keyed by its own name, and a name is a key if and only if some instance has it |
| ListCommand.LaterInstanceWins | cmd/list.go:93-99 | the row kept for a name is that of the last instance with that name |
| ListCommand.ArchivedOnlyAdds | cmd/list.go:124-134 | archived rows never replace an instance row, and every added row is the archived row of its name |
| ListCommand.ArchivedNames | cmd/list.go:116-135 | a name without an instance row is added if and only if it is non-empty and is the profile of some snapshot |
| ListCommand.ArchivedKeyedByName | cmd/list.go:124-134 | adding archived rows keeps every row keyed by its own name |
| ListCommand.VisibleRowsFilter | cmd/list.go:144-150 | with --all every row is shown; otherwise exactly the rows whose state starts with "running" |
| ListCommand.ListCalls | cmd/list.go:68-137 | list changes nothing; it fails if and only if DescribeInstances fails; it describes snapshots only with --all, and a snapshot failure there is ignored, leaving the instance rows |
| ListCommand.EmptyMapIff | cmd/list.go:139-142 | the map is empty if and only if no instance was found and no snapshot has a profile name |
| ListCommand.NoProfilesIff | cmd/list.go:139-142 | "no profiles" if and only if the describe goes through, no instance is found and, when snapshots were read, none names a profile |
| ListCommand.ListRowsKeyed | cmd/list.go:93-150 | no two rows in a listing share a name |
| StatusCommand.SelectInstance | cmd/status.go:51-59 | the loop answers `Selected` of the instances |
| StatusCommand.SourceOf | cmd/status.go:62-68 | the scan with early exit answers `Source` of the tags |
| StatusCommand.ListSnapshotRows | cmd/status.go:116-124 | the loop answers `SnapshotRows` of the snapshots |
| StatusCommand.CheckSnapshot | cmd/status.go:94-128 | the method describes the snapshots once and reports as `CheckSnapshotSpec` says |
| StatusCommand.Status | cmd/status.go:20-91 | the method performs the command, as `StatusSpec` says |
| StatusCommand.QueryIgnoresState | cmd/status.go:32-43 | the instance query matches Name = profile and ManagedBy = Dumie, whatever the instance state |
| StatusCommand.SelectedIsLastRunningOrFirst | cmd/status.go:51-59 | the selection is empty if and only if there are no instances; it is the last running instance if there is one, and the first instance otherwise |
| StatusCommand.SourceIsRestoredTag | cmd/status.go:62-68 | the source is "snapshot" if and only if some tag is Restored = true, and "base AMI" otherwise |
| StatusCommand.SnapshotRowsMatch | cmd/status.go:116-124 | one row per snapshot, in order, with its id, its start time or "-", and its size |
| StatusCommand.StatusWithInstance | cmd/status.go:45-86 | status changes nothing; it fails if and only if the describe fails; with instances it reports the selected instance's id, state, IP and launch time ("-" when missing) and source, after the describe alone |
| StatusCommand.StatusWithoutInstance | cmd/status.go:87-127 | without instances the snapshots are described next; a failure there is reported as such; "nothing found" if and only if no snapshot matches; otherwise one row per matching snapshot |
| StatusCommand.FallbackFindsProfileSnapshots | cmd/status.go:95-107 | the fallback query matches own snapshots tagged ManagedBy = Dumie and Name = profile |
| Deployment.LaunchNewInstance | dumie-cli/awsutils/ec2/deployment.go:58-82 | the method gets the image, the group and the key, then launches, as `LaunchNewSpec` says |
| Deployment.DeployLocked | dumie-cli/awsutils/ec2/deployment.go:31-55 | the method performs the locked part of RestoreOrCreateInstance, as `DeployLockedSpec` says |
| Deployment.RestoreOrCreateInstance | dumie-cli/awsutils/ec2/deployment.go:14-56 | the method takes the lock, performs the locked part and releases the lock, as `RestoreOrCreateSpec` says |
| Deployment.ManualLocked | dumie-cli/cmd/manual.go:49-87 | the method performs the locked part of `deploy manual`, as `ManualLockedSpec` says |
| Deployment.Manual | dumie-cli/cmd/manual.go:21-88 | the method performs `deploy manual`, as `ManualSpec` says |
| Deployment.LaunchNewOrder | dumie-cli/awsutils/ec2/deployment.go:58-82 | the fresh launch starts with DescribeImages and issues only EC2 calls; an instance appears only after the image, group and key steps succeed, with RunInstances as the last call logged (the wait's status probes are not logged); it has the latest image, the group, t2.micro, the fixed key and the Name tag; success answers its id |
| Deployment.DeployExistingIsError | dumie-cli/awsutils/ec2/deployment.go:36-42 | an existing live instance is reported as "instance already exists" after the search alone |
| Deployment.DeployRestoresFirst | dumie-cli/awsutils/ec2/deployment.go:44-48 | with no live instance, the snapshot search is the next call; when it fails, the command fails without launching |
| Deployment.DeployLaunchesOnce | dumie-cli/awsutils/ec2/deployment.go:36-55 | the locked part adds at most one instance; its image is the AMI registered from the first snapshot found, or the latest Amazon Linux image when there is none |
| Deployment.ReleaseAfter | dumie-cli/awsutils/ec2/deployment.go:24-29 | a put, then EC2 calls only, then the release, form a locked run that leaves other lock items as they were |
| Deployment.RestoreOrCreateLockDiscipline | dumie-cli/awsutils/ec2/deployment.go:14-30 | a refused lock fails the command with the lock's error after the put alone; otherwise all the work happens between a successful put and the final release, with no other lock call in between, and other lock items are untouched |
| Deployment.ManualOrder | dumie-cli/cmd/manual.go:55-87 | `deploy manual` looks up the image first, then the group, then searches; an existing instance is an error with no launch; a launched instance has the latest image, the group, t2.micro and the Name tag |
| Deployment.ManualSearchOrder | dumie-cli/cmd/manual.go:70-87 | a live instance is reported with nothing changed; otherwise at most one instance is launched, from the given image into the given group, as t2.micro with the Name tag |
| Deployment.ManualLockDiscipline | dumie-cli/cmd/manual.go:33-47 | a refused lock fails the command after the put alone; otherwise the work happens inside a locked run that ends with the release |

## Left out

- Printing, progress messages, SSH connection (`connectToInstance`, connect.go), the configure commands, IAM role set-up, key-pair file handling and client construction are not part of this model. The configuration and client helpers are error paths that happen before any call the model records.
- Time is a parameter. The clock reading of an acquire is `now` (but see `Lock.AcquireLock` below). `use` makes attempt k at `start + 5k` seconds, as if each attempt took no time. The sleeps of the status wait are left out, and only the number of probes is kept.
- Launch times and snapshot start times are modelled as already formatted strings. Go's local-time formatting is not modelled.
- `Ec2.WaitForInstanceRunning`, `Ec2.RunAndWaitEc2Only`, `Ec2.LaunchOutcome`, `LegacyEc2.LaunchOutcome`, `Deployment.LaunchNewOrder`, `Lock.CreateLockTable`: the status probes of the waits (up to 300 DescribeInstances or DescribeTable calls) are not logged. A probe's answer comes from `Env.boot` or `Env.table` alone, and an outage of DescribeInstances or DescribeTable does not reach it. The calls these members state as issued leave the probes out.
- `Lock.AcquireLock`, `Lock.ExpirySecondGap`: the Go acquire reads the clock twice, inside checkLockStatus (internal/aws/ddb/ddb_utils.go:149) and again for the put (ddb_utils.go:97). The model uses one reading `now` for both, so the gap it states holds when both readings fall in the same second. A second boundary between the two readings is not modelled.
- `Lock.LockStatus`: a stored Expires is a whole number or not a number at all. A number with a fraction or an exponent, which ParseInt also refuses, is not modelled. Clock readings and the expiry the acquire writes are unbounded integers; Go's int64 overflow of `now + 300` is not modelled.
- SDK waiters (`WaitForInstanceRunning`, `WaitForInstanceStatusOk` and the others built on `ec2.New...Waiter` in internal/aws/common/wait_utils.go) are not part of this model. No command in the model calls them.
- Concurrency between two processes is not modelled. Each command runs alone against the account; the lock's effect is stated as the calls it issues and the items it writes.
- Reservations are flattened to one sequence of instances, because every launch has MinCount = MaxCount = 1. The EC2 status probe keeps the reservation structure, because it tests both emptiness checks.
- `Ec2.LatestImage`: every image is assumed to carry a creation date. The nil-date branch of the Go comparison is not modelled.
- `UseCommand.CreateNewInstance`: the four-argument `RestoreOrCreateInstance` it calls is not part of this model. It stands in as the restore of internal/aws/ec2/snapshot.go followed, without a snapshot, by the fresh launch of the older `launchNewInstance` (dumie-cli/awsutils/ec2/deployment.go:58-82) on the internal helpers. The older version's own lock and repeated search are not repeated, because `use` already holds the profile's lock and has searched. The IAM role lookup is the parameter `role`; the user data and the role are not attached to the instance. The key pair lookup of the restore and the key generation of the fresh launch are one parameter `keyName`.
- `UseCommand.UseLocked`: `GetInstancePublicDNS` is not part of this model. Its answer is the parameter `dns`, so the model does not state which DNS name an instance has.
- `UseCommand.Use`: the command deletes ALL snapshots of the profile once the instance has a DNS name. No just-created snapshot is exempt. The model follows this code, not a "keep the newest" rule.
- `DeleteCommand.Delete`: the command snapshots and terminates and does nothing else. There is no cleanup of older snapshots in this code, and the model has none.
- `LegacyDeleteCommand.LegacyDelete`: the older command calls a three-argument CreateSnapshot that is not shown. Its snapshot is modelled with an empty description and no tags.
- `Deployment.RestoreOrCreateInstance` and `LegacySnapshots.TryRestoreFromSnapshot`: their lock package (`awsutils/ddb`), `RegisterAMIFromSnapshot` and six-argument `LaunchEC2Instance` are not shown. They are modelled as follows:
  - the lock with the shown ddb_lock.go (a single conditional put);
  - the registration with internal/aws/ec2/ec2_utils.go;
  - the launch with the shown five-parameter launch of dumie-cli/awsutils/ec2/ec2_utils.go, whose key is the fixed "dumie-key-pair". `GenerateKeyPair` is an `Option` parameter: None means the key step failed.
- `Snapshots.TryRestoreFromSnapshot`: the nine-argument launch it calls (user data, IAM role, Restored tag) is not shown. It is modelled with the shown six-parameter launch, so the restored instance carries no Restored tag.
- `Deployment.Manual`: requires a profile argument. The Go command has no argument check and would index past the end of an empty argument list; that panic is not modelled.
- `StatusCommand.SelectInstance`: the loop keeps a pointer to its loop variable. This is modelled with per-iteration variables (Go 1.22 and later). Under older Go the selection would always be the last instance.
- The release's own error in `use`, `RestoreOrCreateInstance` and `deploy manual` is only printed. The model drops it and keeps the answer of the work done under the lock.
- Go map iteration order: `ListCommand.List` states its rows as a set; the order in which they are printed is not modelled.
