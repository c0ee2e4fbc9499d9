/**
 * The lease lock of internal/aws/ddb/ddb_utils.go: one DynamoDB table
 * "dumie-lock-table" mapping a lock id to the epoch second at which the lease
 * runs out. Acquiring reads the item first and then writes it with a
 * conditional put; releasing deletes it whoever holds it. The current time is
 * the parameter `now`.
 */
module Lock {
  import opened Wrappers
  import opened Provider
  import Poller
  import TableStatusChecker

  const TableName := "dumie-lock-table"

  /** The lease length: five minutes, in seconds. */
  const Ttl: int := 300

  /** The range of Go's int64, which `strconv.ParseInt(…, 10, 64)` accepts. */
  predicate InInt64(x: int)
  {
    -0x8000_0000_0000_0000 <= x < 0x8000_0000_0000_0000
  }

  /** The status check can read the item: there is none, or its Expires is a number that fits an int64. */
  predicate Readable(item: Option<Expires>)
  {
    item.None? || (item.value.Epoch? && InInt64(item.value.seconds))
  }

  /** The lock is held at `now`: its item has a readable expiry strictly later. */
  predicate Held(locks: map<string, Expires>, lockId: string, now: int)
  {
    lockId in locks && locks[lockId].Epoch? && InInt64(locks[lockId].seconds) && locks[lockId].seconds > now
  }

  /**
   * checkLockStatus's verdict on the item it read: no item is free, an
   * Expires that is not a number is one error, a number that does not parse
   * as an int64 is another, and otherwise the lock is held exactly when it
   * expires after `now`.
   */
  function LockStatus(item: Option<Expires>, lockId: string, now: int): (r: Outcome<bool>)
    ensures r == Ok(true) <==> item.Some? && item.value.Epoch? && InInt64(item.value.seconds) &&
                               item.value.seconds > now
    ensures r.Err? <==> !Readable(item)
    ensures r == Err(InvalidExpires(lockId)) <==> item == Some(Malformed)
    ensures r == Err(UnparsableExpires(lockId)) <==> item.Some? && item.value.Epoch? && !InInt64(item.value.seconds)
  {
    match item
    case None => Ok(false)
    case Some(Malformed) => Err(InvalidExpires(lockId))
    case Some(Epoch(x)) => if InInt64(x) then Ok(x > now) else Err(UnparsableExpires(lockId))
  }

  /** Nothing but the lock table's items and the log differ between the two worlds. */
  predicate SameResources(w: World, w': World)
  {
    w'.instances == w.instances && w'.images == w.images && w'.snapshots == w.snapshots &&
    w'.groups == w.groups && w'.tableExists == w.tableExists && w'.nextId == w.nextId
  }

  // ------------------------------------------------------------------ specifications

  /** The table probe waitForTableActive polls with. */
  function TableChecker(e: Env): Poller.Checker
  {
    TableStatusChecker.NewChecker(e.table, TableName)
  }

  function CreateLockTableSpec(e: Env, w: World): Step<Outcome<()>>
  {
    var c := CreateTableStep(e, w);
    if !c.result then Step(c.world, Err(ApiFailed(Api.CreateTable)))
    else
      var waited := Poller.Wait(TableChecker(e));
      Step(c.world, if waited.Reached? then Ok(()) else Err(WaitFailed(waited)))
  }

  function CheckLockStatusSpec(e: Env, w: World, lockId: string, now: int): Step<Outcome<bool>>
  {
    var g := GetItemStep(e, w, lockId);
    Step(g.world, if g.result.Err? then Err(g.result.error) else LockStatus(g.result.value, lockId, now))
  }

  function PutAnswer(p: PutOutcome, lockId: string): Outcome<()>
  {
    match p
    case Written => Ok(())
    case ConditionFailed => Err(LockConditionFailed(lockId))
    case PutFailed => Err(ApiFailed(Api.PutItem(lockId)))
  }

  function AcquireLockSpec(e: Env, w: World, lockId: string, now: int): Step<Outcome<()>>
  {
    var s := CheckLockStatusSpec(e, w, lockId, now);
    if s.result.Err? then Step(s.world, Err(s.result.error))
    else if s.result.value then Step(s.world, Err(LockAlreadyHeld(lockId)))
    else
      var p := PutItemIfFreeStep(e, s.world, lockId, now + Ttl, now);
      Step(p.world, PutAnswer(p.result, lockId))
  }

  function ReleaseLockSpec(e: Env, w: World, lockId: string): Step<Outcome<()>>
  {
    var d := DeleteItemStep(e, w, lockId);
    Step(d.world, if d.result then Ok(()) else Err(ApiFailed(Api.DeleteItem(lockId))))
  }

  // ------------------------------------------------------------------ the operations

  /** SearchDynamoDBLockTable: whether the lock table exists; a describe failure is an error. */
  method SearchLockTable(cloud: Cloud) returns (r: Outcome<bool>)
    modifies cloud
    ensures Step(cloud.State(), r) == DescribeTableStep(cloud.env, old(cloud.State()))
  {
    r := cloud.DescribeTableCall();
  }

  /** CreateLockTable: creates the table, then waits for the poller to see it ACTIVE. */
  method CreateLockTable(cloud: Cloud) returns (r: Outcome<()>)
    modifies cloud
    ensures Step(cloud.State(), r) == CreateLockTableSpec(cloud.env, old(cloud.State()))
  {
    var created := cloud.CreateTableCall();
    if !created {
      return Err(ApiFailed(Api.CreateTable));
    }
    var waited, _ := Poller.WaitForResourceStatus(TableChecker(cloud.env));
    if !waited.Reached? {
      return Err(WaitFailed(waited));
    }
    r := Ok(());
  }

  /** checkLockStatus: reads the item and judges it. */
  method CheckLockStatus(cloud: Cloud, lockId: string, now: int) returns (r: Outcome<bool>)
    modifies cloud
    ensures Step(cloud.State(), r) == CheckLockStatusSpec(cloud.env, old(cloud.State()), lockId, now)
  {
    var item := cloud.GetItemCall(lockId);
    if item.Err? {
      return Err(item.error);
    }
    r := LockStatus(item.value, lockId, now);
  }

  /** AcquireLock: refuses a lock read as held, else writes `Expires = now + Ttl` with the conditional put. */
  method AcquireLock(cloud: Cloud, lockId: string, now: int) returns (r: Outcome<()>)
    modifies cloud
    ensures Step(cloud.State(), r) == AcquireLockSpec(cloud.env, old(cloud.State()), lockId, now)
  {
    var isLocked := CheckLockStatus(cloud, lockId, now);
    if isLocked.Err? {
      return Err(isLocked.error);
    }
    if isLocked.value {
      return Err(LockAlreadyHeld(lockId));
    }
    var put := cloud.PutItemIfFreeCall(lockId, now + Ttl, now);
    r := PutAnswer(put, lockId);
  }

  /** ReleaseLock: deletes the key unconditionally, whoever holds it. */
  method ReleaseLock(cloud: Cloud, lockId: string) returns (r: Outcome<()>)
    modifies cloud
    ensures Step(cloud.State(), r) == ReleaseLockSpec(cloud.env, old(cloud.State()), lockId)
  {
    var ok := cloud.DeleteItemCall(lockId);
    r := if ok then Ok(()) else Err(ApiFailed(Api.DeleteItem(lockId)));
  }

  // ------------------------------------------------------------------ properties

  /** A lock id with no item is free, and the put would write it. */
  lemma AbsentIsFree(locks: map<string, Expires>, lockId: string, now: int)
    requires lockId !in locks
    ensures LockStatus(ItemOf(locks, lockId), lockId, now) == Ok(false)
    ensures !Held(locks, lockId, now) && ConditionHolds(ItemOf(locks, lockId), now)
  {
  }

  /** On a readable item, the status check reports exactly `Held`. */
  lemma StatusIsHeld(locks: map<string, Expires>, lockId: string, now: int)
    requires Readable(ItemOf(locks, lockId))
    ensures LockStatus(ItemOf(locks, lockId), lockId, now) == Ok(Held(locks, lockId, now))
  {
  }

  /**
   * Away from the expiry second the status check and the put condition agree:
   * the lock reads free exactly when the item is readable and the put would
   * write.
   */
  lemma StatusAgreesWithCondition(item: Option<Expires>, lockId: string, now: int)
    requires item != Some(Epoch(now))
    ensures LockStatus(item, lockId, now) == Ok(false) <==> Readable(item) && ConditionHolds(item, now)
  {
  }

  /**
   * Acquire succeeds exactly when the read and the put both go through, the
   * item read is readable and the put condition holds; a success stores `now + Ttl` under that key alone, a
   * failure writes nothing, and nothing but the lock table changes.
   */
  lemma AcquireSucceedsIff(e: Env, w: World, lockId: string, now: int)
    ensures var s := AcquireLockSpec(e, w, lockId, now);
            && (s.result.Ok? <==> ItemCallOk(e, w, Api.GetItem(lockId)) && ItemCallOk(e, w, Api.PutItem(lockId)) &&
                                  Readable(ItemOf(w.locks, lockId)) && ConditionHolds(ItemOf(w.locks, lockId), now))
            && s.world.locks == (if s.result.Ok? then w.locks[lockId := Epoch(now + Ttl)] else w.locks)
            && SameResources(w, s.world)
            && (forall c :: c in s.world.log[|w.log|..] ==> IsDynamoDBCall(c.api))
  {
    var s := AcquireLockSpec(e, w, lockId, now);
    assert |s.world.log| >= |w.log|;
  }

  /** A lock the read reports held is refused as already held, without the put being issued. */
  lemma HeldIsRefused(e: Env, w: World, lockId: string, now: int)
    requires ItemCallOk(e, w, Api.GetItem(lockId)) && Held(w.locks, lockId, now)
    ensures AcquireLockSpec(e, w, lockId, now) ==
              Step(w.(log := w.log + [Call(Api.GetItem(lockId), true)]), Err(LockAlreadyHeld(lockId)))
  {
  }

  /**
   * At the expiry second itself (`Expires == now`) the check uses `>` and the
   * put uses `<`: the lock reads free, yet the put refuses to write it.
   */
  lemma ExpirySecondGap(e: Env, w: World, lockId: string, now: int)
    requires ItemCallOk(e, w, Api.GetItem(lockId)) && ItemCallOk(e, w, Api.PutItem(lockId))
    requires ItemOf(w.locks, lockId) == Some(Epoch(now)) && InInt64(now)
    ensures CheckLockStatusSpec(e, w, lockId, now).result == Ok(false)
    ensures AcquireLockSpec(e, w, lockId, now).result == Err(LockConditionFailed(lockId))
    ensures AcquireLockSpec(e, w, lockId, now).world.locks == w.locks
  {
  }

  /** A missing or non-numeric Expires attribute makes both the check and the acquire fail. */
  lemma MalformedIsAnError(e: Env, w: World, lockId: string, now: int)
    requires ItemCallOk(e, w, Api.GetItem(lockId)) && ItemOf(w.locks, lockId) == Some(Malformed)
    ensures CheckLockStatusSpec(e, w, lockId, now).result == Err(InvalidExpires(lockId))
    ensures AcquireLockSpec(e, w, lockId, now).result == Err(InvalidExpires(lockId))
  {
  }

  /**
   * An Expires number outside the int64 range fails the parse: the check and
   * the acquire fail with the parse error and the item stays, even when the
   * put's condition would have let the write through.
   */
  lemma UnparsableIsAnError(e: Env, w: World, lockId: string, now: int, x: int)
    requires ItemCallOk(e, w, Api.GetItem(lockId)) && ItemOf(w.locks, lockId) == Some(Epoch(x)) && !InInt64(x)
    ensures CheckLockStatusSpec(e, w, lockId, now).result == Err(UnparsableExpires(lockId))
    ensures AcquireLockSpec(e, w, lockId, now).result == Err(UnparsableExpires(lockId))
    ensures AcquireLockSpec(e, w, lockId, now).world.locks == w.locks
  {
  }

  /**
   * A lease taken at `start` keeps every acquire of the key out up to and
   * including second `start + Ttl`, and lets the next one in after that.
   */
  lemma LeaseLastsTtl(e: Env, w: World, lockId: string, start: int, t: int)
    requires AcquireLockSpec(e, w, lockId, start).result.Ok? && InInt64(start + Ttl)
    ensures var w' := AcquireLockSpec(e, w, lockId, start).world;
            && (t <= start + Ttl ==> AcquireLockSpec(e, w', lockId, t).result.Err?)
            && (t > start + Ttl ==> AcquireLockSpec(e, w', lockId, t).result.Ok?)
  {
    AcquireSucceedsIff(e, w, lockId, start);
    var w' := AcquireLockSpec(e, w, lockId, start).world;
    AcquireSucceedsIff(e, w', lockId, t);
  }

  /** After a release the key reads free at any time and every other key reads as before. */
  lemma ReleaseFrees(e: Env, w: World, lockId: string, now: int)
    requires ReleaseLockSpec(e, w, lockId).result.Ok?
    ensures var w' := ReleaseLockSpec(e, w, lockId).world;
            && LockStatus(ItemOf(w'.locks, lockId), lockId, now) == Ok(false)
            && (forall k :: k != lockId ==> ItemOf(w'.locks, k) == ItemOf(w.locks, k))
            && SameResources(w, w')
  {
  }

  /** Release succeeds whoever holds the key, as long as the delete goes through. */
  lemma ReleaseIgnoresHolder(e: Env, w: World, lockId: string)
    ensures ReleaseLockSpec(e, w, lockId).result.Ok? <==> ItemCallOk(e, w, Api.DeleteItem(lockId))
  {
  }

  /** Creating the table succeeds only once the poller has seen it ACTIVE; a failed create does not wait. */
  lemma CreateWaitsForActive(e: Env, w: World)
    ensures var s := CreateLockTableSpec(e, w);
            && (s.result.Ok? ==> Poller.Wait(TableChecker(e)) == Poller.Reached(TableStatusChecker.Active))
            && (!CreateTableStep(e, w).result ==> s.result == Err(ApiFailed(Api.CreateTable)))
            && (s.result.Ok? ==> s.world.tableExists && s.world.locks == map[])
  {
    TableStatusChecker.TableWaitOutcome(e.table, TableName);
  }
}

/**
 * The older lock of dumie-cli/awsutils/ddb_lock.go. Its ReleaseLock and
 * CheckLockStatus are those of `Lock`; acquiring is a single conditional put
 * with no read first, and creating the table does not wait for it.
 */
module LegacyLock {
  import opened Wrappers
  import opened Provider
  import Lock

  function AcquireLockSpec(e: Env, w: World, lockId: string, now: int): Step<Outcome<()>>
  {
    var p := PutItemIfFreeStep(e, w, lockId, now + Lock.Ttl, now);
    Step(p.world, Lock.PutAnswer(p.result, lockId))
  }

  function CreateLockTableSpec(e: Env, w: World): Step<Outcome<()>>
  {
    var c := CreateTableStep(e, w);
    Step(c.world, if c.result then Ok(()) else Err(ApiFailed(Api.CreateTable)))
  }

  /** AcquireLock: one conditional put of `Expires = now + Ttl`. */
  method AcquireLock(cloud: Cloud, lockId: string, now: int) returns (r: Outcome<()>)
    modifies cloud
    ensures Step(cloud.State(), r) == AcquireLockSpec(cloud.env, old(cloud.State()), lockId, now)
  {
    var put := cloud.PutItemIfFreeCall(lockId, now + Lock.Ttl, now);
    r := Lock.PutAnswer(put, lockId);
  }

  /** CreateLockTable: the create call alone; the table is not waited for. */
  method CreateLockTable(cloud: Cloud) returns (r: Outcome<()>)
    modifies cloud
    ensures Step(cloud.State(), r) == CreateLockTableSpec(cloud.env, old(cloud.State()))
  {
    var created := cloud.CreateTableCall();
    r := if created then Ok(()) else Err(ApiFailed(Api.CreateTable));
  }

  /** The older acquire succeeds exactly when the put goes through and its condition holds. */
  lemma AcquireSucceedsIff(e: Env, w: World, lockId: string, now: int)
    ensures var s := AcquireLockSpec(e, w, lockId, now);
            && (s.result.Ok? <==> ItemCallOk(e, w, Api.PutItem(lockId)) && ConditionHolds(ItemOf(w.locks, lockId), now))
            && s.world.locks == (if s.result.Ok? then w.locks[lockId := Epoch(now + Lock.Ttl)] else w.locks)
            && s.world.log == w.log + [Call(Api.PutItem(lockId), s.result.Ok?)]
  {
  }

  /**
   * Once the read goes through, the pre-check of the newer acquire changes
   * whether the lock is taken only for an item it cannot read: on a readable
   * item it changes only which error is reported.
   */
  lemma PreCheckKeepsOutcome(e: Env, w: World, lockId: string, now: int)
    requires ItemCallOk(e, w, Api.GetItem(lockId))
    ensures Lock.AcquireLockSpec(e, w, lockId, now).result.Ok? <==>
              AcquireLockSpec(e, w, lockId, now).result.Ok? && Lock.Readable(ItemOf(w.locks, lockId))
    ensures Lock.Readable(ItemOf(w.locks, lockId)) ==>
              Lock.AcquireLockSpec(e, w, lockId, now).world.locks == AcquireLockSpec(e, w, lockId, now).world.locks
  {
    Lock.AcquireSucceedsIff(e, w, lockId, now);
    AcquireSucceedsIff(e, w, lockId, now);
  }

  /** The older create returns as soon as the create call succeeds, with no probe of the table. */
  lemma CreateDoesNotWait(e: Env, w: World)
    ensures CreateLockTableSpec(e, w).result.Ok? <==> CreateTableStep(e, w).result
    ensures CreateLockTableSpec(e, w).world == CreateTableStep(e, w).world
  {
  }
}
