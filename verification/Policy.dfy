/**
 Execution deadlines and retries, and the estimate that is shown before a run: the time and the raw
 sweeps it reserves dominate what any run of the plan can use.
 */
module Policy {
  import opened Outcomes
  import opened Plan

  datatype ExecutionPolicy = ExecutionPolicy(
    commandTimeoutS: real, acquisitionTimeoutS: real, retryCount: nat, retryBackoffS: real,
    watchdogGraceS: real, shutdownTimeoutS: real)
  {
    predicate Accepted() {
      && 0.0 < commandTimeoutS && 0.0 < acquisitionTimeoutS && 0.0 < shutdownTimeoutS
      && 0.0 <= retryBackoffS && 0.0 <= watchdogGraceS
      && retryCount <= 5
    }

    /** The deadline of one attempt: what the action asks for, and some grace. */
    function DeadlineFor(a: PlanAction): real {
      match a.kind
      case Wait(duration, _) => duration + watchdogGraceS
      case RampKeithleyToZero(_, deadline) => deadline + watchdogGraceS
      case UpdateMokeVoltage(_, _, _, timeout) => timeout + watchdogGraceS
      case StopMokeVoltage(_, timeout) => timeout + watchdogGraceS
      case AcquireReference(block) => AcquisitionDeadline(block)
      case AcquireSpectrum(block) => AcquisitionDeadline(block)
      case _ => commandTimeoutS + watchdogGraceS
    }

    function AcquisitionDeadline(block: Acquisition): real {
      var averages := if block.fromFile then 1 else block.averageCount;
      averages as real * acquisitionTimeoutS + block.minimumDurationS
      + Max(0, averages - 1) as real * block.interSweepDelayS + commandTimeoutS + watchdogGraceS
    }

    /** How often an action may be tried again at most; the live output state can only forbid it. */
    function Retries(a: PlanAction): nat {
      if RetryCandidate(a) then retryCount else 0
    }
  }

  predicate RetryCandidate(a: PlanAction) {
    match a.kind
    case SetRigolOutput(_, enabled) => !enabled
    case SetKeithleyOutput(_, enabled) => !enabled
    case SetAnritsuSgOutput(enabled) => !enabled
    case ConfigureRigol(_, _) => true
    case ConfigureRigolOutput(_, _) => true
    case ConfigureKeithley(_, _) => true
    case ConfigureAnritsu(_) => true
    case ConfigureAnritsuAdvanced(_) => true
    case ConfigureAnritsuSg(_) => true
    case MeasureKeithley(_) => true
    case AcquireReference(_) => true
    case AcquireSpectrum(_) => true
    case RampKeithleyToZero(_, _) => true
    case _ => false
  }

  /** An action that can energize an output is never a candidate for a second attempt. */
  lemma EnergizingIsNeverRetried(policy: ExecutionPolicy, a: PlanAction)
    requires a.kind.UpdateMokeVoltage? || TurnsOn(a.kind) != {}
    ensures policy.Retries(a) == 0
  {
  }

  /** Configurations, source readings, acquisitions, ramps to zero and OFF switches are tried again, and nothing else. */
  lemma RetriedIff(policy: ExecutionPolicy, a: PlanAction)
    requires policy.retryCount > 0
    ensures policy.Retries(a) == (if policy.Retries(a) > 0 then policy.retryCount else 0)
    ensures policy.Retries(a) > 0 <==>
              || a.kind.ConfigureRigol? || a.kind.ConfigureRigolOutput? || a.kind.ConfigureKeithley? || a.kind.ConfigureAnritsu?
              || a.kind.ConfigureAnritsuAdvanced? || a.kind.ConfigureAnritsuSg? || a.kind.MeasureKeithley?
              || a.kind.AcquireReference? || a.kind.AcquireSpectrum? || a.kind.RampKeithleyToZero?
              || (SwitchedEndpoint(a.kind).Some? && TurnsOn(a.kind) == {})
  {
  }

  lemma DeadlineNonNegative(policy: ExecutionPolicy, a: PlanAction)
    requires policy.Accepted() && DurationsValid(a.kind)
    ensures 0.0 <= policy.DeadlineFor(a)
  {
    if a.kind.AcquireReference? || a.kind.AcquireSpectrum? {
      var block := a.kind.block;
      var averages := if block.fromFile then 1 else block.averageCount;
      NonNegativeProduct(averages as real, policy.acquisitionTimeoutS);
      NonNegativeProduct(Max(0, averages - 1) as real, block.interSweepDelayS);
    }
  }

  /** The time of so many sweeps of the longest duration, with the delays between them. */
  function BlockTime(sweeps: nat, sweepS: real, delayS: real): real {
    if sweeps == 0 then 0.0 else if sweeps == 1 then sweepS else BlockTime(sweeps - 1, sweepS, delayS) + delayS + sweepS
  }

  lemma {:induction false} BlockTimeIs(sweeps: nat, sweepS: real, delayS: real)
    ensures BlockTime(sweeps, sweepS, delayS) == sweeps as real * sweepS + Max(0, sweeps - 1) as real * delayS
  {
    if sweeps > 1 {
      BlockTimeIs(sweeps - 1, sweepS, delayS);
      OneMore(sweeps, sweepS);
      OneMore(sweeps - 1, delayS);
    }
  }

  lemma OneMore(n: nat, x: real)
    requires 0 < n
    ensures n as real * x == (n - 1) as real * x + x
  {
    assert n as real == (n - 1) as real + 1.0;
  }

  /** A command that asks for no time of its own. */
  predicate IsCommand(k: Kind) {
    && !k.Wait? && !k.RampKeithleyToZero? && !k.UpdateMokeVoltage? && !k.StopMokeVoltage?
    && !k.AcquireReference? && !k.AcquireSpectrum?
  }

  /** A deadline covers what the action asks for, the longest sweeps and the command itself included, and leaves the grace. */
  lemma DeadlineCovers(policy: ExecutionPolicy, a: PlanAction)
    requires policy.Accepted() && DurationsValid(a.kind)
    ensures var spare := policy.DeadlineFor(a) - policy.watchdogGraceS;
            && (a.kind.Wait? ==> spare == a.kind.durationS)
            && (a.kind.RampKeithleyToZero? ==> spare == a.kind.deadlineS)
            && (a.kind.UpdateMokeVoltage? || a.kind.StopMokeVoltage? ==> spare == a.kind.rampTimeoutS)
            && (a.kind.AcquireReference? || a.kind.AcquireSpectrum? ==>
                  var sweeps := if a.kind.block.fromFile then 1 else a.kind.block.averageCount;
                  spare == BlockTime(sweeps, policy.acquisitionTimeoutS, a.kind.block.interSweepDelayS)
                           + a.kind.block.minimumDurationS + policy.commandTimeoutS)
            && (IsCommand(a.kind) ==> spare == policy.commandTimeoutS)
  {
    if a.kind.AcquireReference? || a.kind.AcquireSpectrum? {
      var sweeps := if a.kind.block.fromFile then 1 else a.kind.block.averageCount;
      BlockTimeIs(sweeps, policy.acquisitionTimeoutS, a.kind.block.interSweepDelayS);
    }
  }

  lemma NonNegativeProduct(a: real, b: real)
    requires 0.0 <= a && 0.0 <= b
    ensures 0.0 <= a * b
  {
  }

  const MOST_SWEEPS := 9999

  /** Raw sweeps that one attempt of an action may commit. */
  function SweepsPerAttempt(a: PlanAction): nat {
    if (a.kind.AcquireReference? || a.kind.AcquireSpectrum?) && !a.kind.block.fromFile
    then if a.kind.block.minimumDurationS != 0.0 then MOST_SWEEPS else a.kind.block.averageCount
    else 0
  }

  // ---- What a run may use, action by action ----

  /** Part of the attempts, and the waits between them, fit into the bound. */
  lemma WithinTimeBound(policy: ExecutionPolicy, a: PlanAction, retried: nat)
    requires policy.Accepted() && DurationsValid(a.kind) && retried <= policy.Retries(a)
    ensures retried as real * (policy.DeadlineFor(a) + policy.retryBackoffS) + policy.DeadlineFor(a) <= TimeBound(policy, a)
  {
    DeadlineNonNegative(policy, a);
    var all, d, b := policy.Retries(a) as real, policy.DeadlineFor(a), policy.retryBackoffS;
    assert (1 + policy.Retries(a)) as real == 1.0 + all;
    Repeated(all, d, b);
    NonNegativeProduct(all - retried as real, d + b);
    assert (all - retried as real) * (d + b) == all * (d + b) - retried as real * (d + b);
  }

  /** All attempts at their deadline, and the waits between them. */
  function TimeBound(policy: ExecutionPolicy, a: PlanAction): real {
    (1 + policy.Retries(a)) as real * policy.DeadlineFor(a) + policy.Retries(a) as real * policy.retryBackoffS
  }

  function SweepBound(policy: ExecutionPolicy, a: PlanAction): nat {
    (1 + policy.Retries(a)) * SweepsPerAttempt(a)
  }

  function TotalTimeBound(policy: ExecutionPolicy, actions: seq<PlanAction>): real {
    if actions == [] then 0.0
    else TotalTimeBound(policy, actions[..|actions| - 1]) + TimeBound(policy, actions[|actions| - 1])
  }

  function TotalSweepBound(policy: ExecutionPolicy, actions: seq<PlanAction>): nat {
    if actions == [] then 0
    else TotalSweepBound(policy, actions[..|actions| - 1]) + SweepBound(policy, actions[|actions| - 1])
  }

  // ---- The estimate ----

  datatype Estimate = Estimate(retryUpperDurationS: real, reservedSweeps: nat)

  function TotalOnce(policy: ExecutionPolicy, actions: seq<PlanAction>): real {
    if actions == [] then 0.0
    else TotalOnce(policy, actions[..|actions| - 1]) + policy.DeadlineFor(actions[|actions| - 1])
  }

  lemma Repeated(k: real, deadline: real, backoff: real)
    ensures (1.0 + k) * deadline + k * backoff == deadline + k * (deadline + backoff)
  {
  }

  lemma Spread(k: real, a: real, b: real)
    ensures k * (a + b) == k * a + k * b
  {
  }

  /** A single action adds its deadline, and for a retry candidate its deadline and backoff once per retry. */
  lemma TimeBoundSplit(policy: ExecutionPolicy, a: PlanAction)
    ensures TimeBound(policy, a) == policy.DeadlineFor(a) +
              policy.retryCount as real * (if RetryCandidate(a) then policy.DeadlineFor(a) + policy.retryBackoffS else 0.0)
  {
    var k, d := policy.Retries(a) as real, policy.DeadlineFor(a);
    assert (1 + policy.Retries(a)) as real == 1.0 + k;
    Repeated(k, d, policy.retryBackoffS);
  }

  function Again(policy: ExecutionPolicy, a: PlanAction): real {
    if RetryCandidate(a) then policy.DeadlineFor(a) + policy.retryBackoffS else 0.0
  }

  ghost predicate Accumulated(policy: ExecutionPolicy, actions: seq<PlanAction>, deadlines: real, retried: real) {
    && deadlines == TotalOnce(policy, actions)
    && TotalTimeBound(policy, actions) == deadlines + policy.retryCount as real * retried
  }

  lemma AccumulatedStep(policy: ExecutionPolicy, actions: seq<PlanAction>, i: nat, deadlines: real, retried: real)
    requires i < |actions| && Accumulated(policy, actions[..i], deadlines, retried)
    ensures Accumulated(policy, actions[..i + 1], deadlines + policy.DeadlineFor(actions[i]), retried + Again(policy, actions[i]))
  {
    assert actions[..i + 1][..i] == actions[..i];
    TimeBoundSplit(policy, actions[i]);
    Spread(policy.retryCount as real, retried, Again(policy, actions[i]));
  }

  method ReservedSweepsFor(policy: ExecutionPolicy, a: PlanAction) returns (sweeps: nat)
    ensures sweeps == SweepBound(policy, a)
  {
    if (a.kind.AcquireReference? || a.kind.AcquireSpectrum?) && !a.kind.block.fromFile {
      var perAttempt := if a.kind.block.minimumDurationS != 0.0 then MOST_SWEEPS else a.kind.block.averageCount;
      assert policy.Retries(a) == policy.retryCount;
      sweeps := perAttempt * (1 + policy.retryCount);
    } else {
      sweeps := 0;
    }
  }

  /**
   The upper duration and the raw sweeps reserved for a plan. The nominal duration of the same actions, a matter of
   transfer rates, is a parameter; whatever it is, the estimate dominates every run.
   */
  method EstimatePlan(policy: ExecutionPolicy, actions: seq<PlanAction>, nominalS: real) returns (e: Estimate)
    ensures TotalTimeBound(policy, actions) <= e.retryUpperDurationS
    ensures nominalS <= TotalOnce(policy, actions) ==> TotalTimeBound(policy, actions) == e.retryUpperDurationS
    ensures TotalSweepBound(policy, actions) == e.reservedSweeps
  {
    var deadlines, retried, sweeps := 0.0, 0.0, 0;
    for i := 0 to |actions|
      invariant Accumulated(policy, actions[..i], deadlines, retried)
      invariant TotalSweepBound(policy, actions[..i]) == sweeps
    {
      var a := actions[i];
      AccumulatedStep(policy, actions, i, deadlines, retried);
      deadlines := deadlines + policy.DeadlineFor(a);
      if RetryCandidate(a) {
        retried := retried + (policy.DeadlineFor(a) + policy.retryBackoffS);
      }
      var reserved := ReservedSweepsFor(policy, a);
      sweeps := sweeps + reserved;
      assert actions[..i + 1][..i] == actions[..i];
    }
    assert actions[..|actions|] == actions;
    var upper := if deadlines < nominalS then nominalS else deadlines;
    return Estimate(upper + policy.retryCount as real * retried, sweeps);
  }
}
