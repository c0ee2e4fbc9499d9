/**
 * The generic bounded status poller of internal/aws/common/wait_utils.go
 * (duplicated verbatim in dumie-cli/awsutils/common/wait_utils.go).
 *
 * Go's StatusChecker interface becomes the record `Checker` of functions: the
 * poller sees a resource only through it, so it cannot branch on the kind of
 * resource. Sleeping between probes and progress printing are left out; the
 * i-th call of CheckStatus is `check(i)`.
 */
module Poller {

  /** MaxRetries in internal/aws/common/config.go and dumie-cli/awsutils/common/config.go. */
  const MaxRetries: nat := 300

  /** The answer of one CheckStatus call. */
  datatype Probe = Status(status: string) | ProbeError(reason: string)

  /** How WaitForResourceStatus returns: nil (Reached) or one of its three errors. */
  datatype WaitResult =
    | Reached(status: string)       // IsTargetStatus held: the function returns nil
    | ErrorState(status: string)    // "... is in error state ..."
    | CheckFailed(reason: string)   // "error checking status: ..."
    | TimedOut                      // "timeout waiting for ..."

  /** The StatusChecker interface as a record of its methods. */
  datatype Checker = Checker(
    resourceType: string,
    resourceId: string,
    check: nat -> Probe,
    isTarget: string -> bool,
    isError: string -> bool)

  /** Probe i answered a status that is neither target nor error: the loop goes on. */
  predicate Undecided(c: Checker, i: nat)
  {
    c.check(i).Status? && !c.isTarget(c.check(i).status) && !c.isError(c.check(i).status)
  }

  /** What a probe that ends the wait makes the poller return (target is tested first). */
  function Decide(c: Checker, p: Probe): WaitResult
  {
    match p
    case ProbeError(reason) => CheckFailed(reason)
    case Status(s) => if c.isTarget(s) then Reached(s) else ErrorState(s)
  }

  /** The result of the polling loop entered at probe i. */
  function WaitFrom(c: Checker, i: nat): WaitResult
    decreases MaxRetries - i
  {
    if i >= MaxRetries then TimedOut
    else if Undecided(c, i) then WaitFrom(c, i + 1)
    else Decide(c, c.check(i))
  }

  /** The result of WaitForResourceStatus for checker c. */
  function Wait(c: Checker): WaitResult
  {
    WaitFrom(c, 0)
  }

  /** The first probe at or after i that ends the wait, or MaxRetries if none does. */
  function FirstDecisive(c: Checker, i: nat): (k: nat)
    requires i <= MaxRetries
    ensures i <= k <= MaxRetries
    ensures forall j :: i <= j < k ==> Undecided(c, j)
    ensures k < MaxRetries ==> !Undecided(c, k)
    decreases MaxRetries - i
  {
    if i == MaxRetries then MaxRetries
    else if Undecided(c, i) then FirstDecisive(c, i + 1)
    else i
  }

  /** The number of CheckStatus calls the poller makes. */
  function ProbesIssued(c: Checker): (n: nat)
    ensures 1 <= n <= MaxRetries
  {
    var k := FirstDecisive(c, 0);
    if k < MaxRetries then k + 1 else MaxRetries
  }

  /**
   * WaitForResourceStatus: at most MaxRetries probes; the first probe whose
   * status is a target returns success, the first whose status is an error
   * returns ErrorState, a failing probe returns at once, and a full budget of
   * undecided probes times out.
   */
  method WaitForResourceStatus(c: Checker) returns (r: WaitResult, probes: nat)
    ensures r == Wait(c)
    ensures probes == ProbesIssued(c)
  {
    var i: nat := 0;
    while i < MaxRetries
      invariant i <= MaxRetries
      invariant forall j :: 0 <= j < i ==> Undecided(c, j)
      invariant WaitFrom(c, i) == Wait(c)
      invariant FirstDecisive(c, i) == FirstDecisive(c, 0)
    {
      var p := c.check(i);
      if p.ProbeError? {
        r, probes := CheckFailed(p.reason), i + 1;
        return;
      }
      if c.isTarget(p.status) {
        r, probes := Reached(p.status), i + 1;
        return;
      }
      if c.isError(p.status) {
        r, probes := ErrorState(p.status), i + 1;
        return;
      }
      i := i + 1;
    }
    r, probes := TimedOut, MaxRetries;
  }

  lemma {:induction false} WaitFromDecidedAt(c: Checker, i: nat)
    requires i <= MaxRetries
    ensures var k := FirstDecisive(c, i);
            WaitFrom(c, i) == if k < MaxRetries then Decide(c, c.check(k)) else TimedOut
    decreases MaxRetries - i
  {
    if i < MaxRetries && Undecided(c, i) {
      WaitFromDecidedAt(c, i + 1);
    }
  }

  /**
   * The whole behaviour of the poller: it returns what the first probe that is
   * not undecided says, and times out exactly when all MaxRetries probes are
   * undecided.
   */
  lemma WaitIsFirstDecisiveProbe(c: Checker)
    ensures var k := FirstDecisive(c, 0);
            && (forall j :: 0 <= j < k ==> Undecided(c, j))
            && (k < MaxRetries ==> Wait(c) == Decide(c, c.check(k)))
            && (k == MaxRetries ==> Wait(c) == TimedOut)
  {
    WaitFromDecidedAt(c, 0);
  }

  /** Success at the first target status, also when that status is an error status too. */
  lemma WaitReachesFirstTarget(c: Checker, k: nat)
    requires k < MaxRetries
    requires forall j :: 0 <= j < k ==> Undecided(c, j)
    requires c.check(k).Status? && c.isTarget(c.check(k).status)
    ensures Wait(c) == Reached(c.check(k).status)
    ensures ProbesIssued(c) == k + 1
  {
    FirstDecisiveIs(c, k);
    WaitIsFirstDecisiveProbe(c);
  }

  /** An error status that is not a target ends the wait in ErrorState. */
  lemma WaitStopsAtFirstError(c: Checker, k: nat)
    requires k < MaxRetries
    requires forall j :: 0 <= j < k ==> Undecided(c, j)
    requires c.check(k).Status? && !c.isTarget(c.check(k).status) && c.isError(c.check(k).status)
    ensures Wait(c) == ErrorState(c.check(k).status)
    ensures ProbesIssued(c) == k + 1
  {
    FirstDecisiveIs(c, k);
    WaitIsFirstDecisiveProbe(c);
  }

  /** A failing CheckStatus ends the wait at once with its error. */
  lemma WaitStopsAtProbeError(c: Checker, k: nat)
    requires k < MaxRetries
    requires forall j :: 0 <= j < k ==> Undecided(c, j)
    requires c.check(k).ProbeError?
    ensures Wait(c) == CheckFailed(c.check(k).reason)
    ensures ProbesIssued(c) == k + 1
  {
    FirstDecisiveIs(c, k);
    WaitIsFirstDecisiveProbe(c);
  }

  /** A timeout happens exactly when none of the MaxRetries statuses decides. */
  lemma WaitTimesOutIff(c: Checker)
    ensures Wait(c) == TimedOut <==> forall j :: 0 <= j < MaxRetries ==> Undecided(c, j)
    ensures Wait(c) == TimedOut ==> ProbesIssued(c) == MaxRetries
  {
    WaitIsFirstDecisiveProbe(c);
    var k := FirstDecisive(c, 0);
    if k < MaxRetries {
      assert !Undecided(c, k);
    }
  }

  /** A successful wait ended on a status the checker calls a target. */
  lemma WaitReachedIsTarget(c: Checker)
    ensures Wait(c).Reached? ==> c.isTarget(Wait(c).status)
    ensures Wait(c).ErrorState? ==> !c.isTarget(Wait(c).status) && c.isError(Wait(c).status)
  {
    WaitIsFirstDecisiveProbe(c);
  }

  lemma {:induction false} FirstDecisiveIs(c: Checker, k: nat)
    requires k < MaxRetries
    requires forall j :: 0 <= j < k ==> Undecided(c, j)
    requires !Undecided(c, k)
    ensures FirstDecisive(c, 0) == k
  {
    var i := 0;
    while i < k
      invariant i <= k
      invariant FirstDecisive(c, i) == FirstDecisive(c, 0)
    {
      i := i + 1;
    }
  }

  /**
   * The poller is probe-agnostic: two checkers that give the same answers and
   * classify those answers alike get the same result, whatever their resource.
   */
  lemma {:induction false} WaitDependsOnlyOnAnswers(c1: Checker, c2: Checker, i: nat)
    requires i <= MaxRetries
    requires forall j :: i <= j < MaxRetries ==> c1.check(j) == c2.check(j)
    requires forall j :: i <= j < MaxRetries && c1.check(j).Status? ==>
               c1.isTarget(c1.check(j).status) == c2.isTarget(c1.check(j).status) &&
               c1.isError(c1.check(j).status) == c2.isError(c1.check(j).status)
    ensures WaitFrom(c1, i) == WaitFrom(c2, i)
    decreases MaxRetries - i
  {
    if i < MaxRetries {
      WaitDependsOnlyOnAnswers(c1, c2, i + 1);
    }
  }
}
