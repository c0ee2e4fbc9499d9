/**
 * The EC2 instance probe of internal/aws/ec2/status_checker.go: it describes
 * one instance by id and reports the state of the first instance of the first
 * reservation.
 */
module Ec2StatusChecker {
  import opened Poller

  const Running := "running"
  const Pending := "pending"
  const ShuttingDown := "shutting-down"
  const Terminated := "terminated"
  const Stopping := "stopping"
  const Stopped := "stopped"

  /** DescribeInstances by instance id: an error, or the state names grouped by reservation. */
  datatype DescribeAnswer = DescribeFailed | Described(reservations: seq<seq<string>>)

  /** CheckStatus: the state of the first instance of the first reservation, if there is one. */
  function CheckStatus(a: DescribeAnswer): (p: Probe)
  {
    match a
    case DescribeFailed => ProbeError("error describing instance")
    case Described(rs) =>
      if |rs| == 0 || |rs[0]| == 0 then ProbeError("instance not found") else Status(rs[0][0])
  }

  predicate IsTargetStatus(s: string)
  {
    s == Running
  }

  predicate IsErrorStatus(s: string)
  {
    s == Terminated || s == ShuttingDown
  }

  /** NewEC2StatusChecker: `answers(i)` is what the i-th describe of the instance returns. */
  function NewChecker(answers: nat -> DescribeAnswer, instanceId: string): Checker
  {
    Checker("EC2 instance", instanceId, (i: nat) => CheckStatus(answers(i)), IsTargetStatus, IsErrorStatus)
  }

  /** A status is never both target and error; the transitional states keep the poller waiting. */
  lemma StatusClasses(s: string)
    ensures !(IsTargetStatus(s) && IsErrorStatus(s))
    ensures IsTargetStatus(s) <==> s == "running"
    ensures IsErrorStatus(s) <==> s in {"terminated", "shutting-down"}
    ensures s in {"pending", "stopping", "stopped"} ==> !IsTargetStatus(s) && !IsErrorStatus(s)
  {
  }

  /** CheckStatus fails exactly on a describe error or an empty answer, else reports the first state. */
  lemma CheckStatusCases(a: DescribeAnswer)
    ensures CheckStatus(a).ProbeError? <==>
              a.DescribeFailed? || |a.reservations| == 0 || |a.reservations[0]| == 0
    ensures CheckStatus(a).Status? ==> CheckStatus(a).status == a.reservations[0][0]
  {
  }

  /**
   * Waiting on an instance probe succeeds only on "running", fails in error
   * state only on "terminated" or "shutting-down", and names the instance it
   * was built for.
   */
  lemma InstanceWaitOutcome(answers: nat -> DescribeAnswer, instanceId: string)
    ensures NewChecker(answers, instanceId).resourceId == instanceId
    ensures Wait(NewChecker(answers, instanceId)).Reached? ==>
              Wait(NewChecker(answers, instanceId)).status == Running
    ensures Wait(NewChecker(answers, instanceId)).ErrorState? ==>
              Wait(NewChecker(answers, instanceId)).status in {Terminated, ShuttingDown}
  {
    WaitReachedIsTarget(NewChecker(answers, instanceId));
  }

  /** An instance that is seen pending and then running is waited for successfully. */
  lemma PendingThenRunning(answers: nat -> DescribeAnswer, instanceId: string, k: nat)
    requires k < MaxRetries
    requires forall j :: 0 <= j < k ==> answers(j) == Described([[Pending]])
    requires answers(k) == Described([[Running]])
    ensures Wait(NewChecker(answers, instanceId)) == Reached(Running)
    ensures ProbesIssued(NewChecker(answers, instanceId)) == k + 1
  {
    var c := NewChecker(answers, instanceId);
    forall j | 0 <= j < k ensures Undecided(c, j) {
      assert c.check(j) == Status(Pending);
    }
    WaitReachesFirstTarget(c, k);
  }
}

/**
 * The DynamoDB table probe of dumie-cli/awsutils/ddb/status_checker.go. The
 * probe that internal/aws/ddb uses is not part of this model; this one stands
 * for it.
 */
module TableStatusChecker {
  import opened Poller

  const Active := "ACTIVE"
  const Deleting := "DELETING"
  const Creating := "CREATING"
  const Updating := "UPDATING"

  /** DescribeTable: an error or the table's status. */
  datatype TableAnswer = DescribeTableFailed | TableDescribed(status: string)

  function CheckStatus(a: TableAnswer): Probe
  {
    match a
    case DescribeTableFailed => ProbeError("error describing table")
    case TableDescribed(s) => Status(s)
  }

  predicate IsTargetStatus(s: string)
  {
    s == Active
  }

  predicate IsErrorStatus(s: string)
  {
    s == Deleting
  }

  /** NewDynamoDBStatusChecker: `answers(i)` is what the i-th DescribeTable returns. */
  function NewChecker(answers: nat -> TableAnswer, tableName: string): Checker
  {
    Checker("DynamoDB table", tableName, (i: nat) => CheckStatus(answers(i)), IsTargetStatus, IsErrorStatus)
  }

  lemma StatusClasses(s: string)
    ensures !(IsTargetStatus(s) && IsErrorStatus(s))
    ensures IsTargetStatus(s) <==> s == "ACTIVE"
    ensures IsErrorStatus(s) <==> s == "DELETING"
    ensures s in {"CREATING", "UPDATING"} ==> !IsTargetStatus(s) && !IsErrorStatus(s)
  {
  }

  /** The reported status is the described one; a describe failure is a probe error. */
  lemma CheckStatusCases(a: TableAnswer)
    ensures CheckStatus(a).ProbeError? <==> a.DescribeTableFailed?
    ensures a.TableDescribed? ==> CheckStatus(a) == Status(a.status)
  {
  }

  /** Waiting on a table succeeds only on ACTIVE, fails in error state only on DELETING. */
  lemma TableWaitOutcome(answers: nat -> TableAnswer, tableName: string)
    ensures NewChecker(answers, tableName).resourceId == tableName
    ensures Wait(NewChecker(answers, tableName)).Reached? ==>
              Wait(NewChecker(answers, tableName)).status == Active
    ensures Wait(NewChecker(answers, tableName)).ErrorState? ==>
              Wait(NewChecker(answers, tableName)).status == Deleting
  {
    WaitReachedIsTarget(NewChecker(answers, tableName));
  }
}
