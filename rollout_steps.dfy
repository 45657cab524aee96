/** Rolling a Kruise Rollout back to an earlier step
    (pkg/internal/polymorphichelpers/steps.go). Percentages are whole numbers. */
module RolloutSteps {
  import opened Wrappers
  import opened Strings
  import opened Workloads
  import opened RolloutObjects

  /** `intstr.GetScaledValueFromIntOrPercent(v, 100, true)` with its error ignored, as the
      source does: a plain integer is itself, "p%" is p (p% of 100, rounded up), and a
      missing value or a string that is not a percentage gives 0. */
  function ScaledValue(v: Option<IntOrString>): (r: int)
    ensures v.None? ==> r == 0
    ensures v.Some? && v.value.IntValue? ==> r == v.value.i
    ensures v.Some? && v.value.StringValue? && (|v.value.s| == 0 || v.value.s[|v.value.s| - 1] != '%') ==> r == 0
  {
    match v
    case None => 0
    case Some(IntValue(i)) => i
    case Some(StringValue(s)) =>
      if |s| > 0 && s[|s| - 1] == '%' then Atoi(s[..|s| - 1]).GetOr(0) else 0
  }

  /** A percentage written out is read back as itself. */
  lemma ScaledPercentRoundTrip(p: int)
    ensures ScaledValue(Some(StringValue(IntToString(p) + "%"))) == p
  {
    var s := IntToString(p) + "%";
    assert s[..|s| - 1] == IntToString(p);
    AtoiIntToString(p);
  }

  /** `hasTraffic`: a step routes traffic iff its traffic share is set and scales to a
      non-zero value; "0%" and strings that are not percentages route none. */
  predicate HasTraffic(step: CanaryStep)
  {
    step.traffic.Some? && ScaledValue(Some(StringValue(step.traffic.value))) != 0
  }

  /** The replica share of 1-based step n. */
  function Percent(steps: seq<CanaryStep>, n: int): int
    requires 1 <= n <= |steps|
  {
    ScaledValue(steps[n - 1].replicas)
  }

  /** Step n (1-based) is earlier than `curStep` and routes no traffic. */
  predicate Candidate(steps: seq<CanaryStep>, curStep: int, n: int)
    requires curStep <= |steps|
  {
    1 <= n <= curStep - 1 && !HasTraffic(steps[n - 1])
  }

  /** Step n is the one to go back to: a candidate with a positive replica share that
      no other candidate exceeds, and the latest one among equals. */
  predicate BestPrevious(steps: seq<CanaryStep>, curStep: int, n: int)
    requires curStep <= |steps|
  {
    Candidate(steps, curStep, n) && Percent(steps, n) > 0
    && forall m :: 1 <= m < curStep && Candidate(steps, curStep, m) ==>
         Percent(steps, m) <= Percent(steps, n) && (Percent(steps, m) == Percent(steps, n) ==> m <= n)
  }

  /** There is at most one step to go back to. */
  lemma BestPreviousUnique(steps: seq<CanaryStep>, curStep: int, n: int, m: int)
    requires curStep <= |steps|
    requires BestPrevious(steps, curStep, n) && BestPrevious(steps, curStep, m)
    ensures n == m
  {
    assert Candidate(steps, curStep, m) && Candidate(steps, curStep, n);
  }

  /** `findPreviousStepWithNoTrafficAndMostReplicas`: scan the steps before the current
      one from the latest back, keeping a step only when its share is strictly greater
      than the best so far. A step at 0% is never chosen. */
  method FindPreviousStep(steps: seq<CanaryStep>, curStep: int) returns (r: Result<int>)
    requires curStep <= |steps|
    ensures r.Ok? ==> BestPrevious(steps, curStep, r.value)
    ensures r.Err? <==> forall m :: 1 <= m < curStep && Candidate(steps, curStep, m) ==> Percent(steps, m) <= 0
    ensures r.Err? ==> r.error == "no previous step with no traffic found"
  {
    var maxReplicas := 0;
    var targetStep := -1;
    var i := curStep - 2;
    while i >= 0
      invariant i <= curStep - 2
      invariant targetStep == -1 ==> maxReplicas == 0
      invariant targetStep != -1 ==>
        i + 2 <= targetStep && Candidate(steps, curStep, targetStep)
        && Percent(steps, targetStep) == maxReplicas && maxReplicas > 0
      invariant forall m :: i + 2 <= m && Candidate(steps, curStep, m) ==>
        Percent(steps, m) <= maxReplicas && (targetStep != -1 && Percent(steps, m) == maxReplicas ==> m <= targetStep)
      decreases i
    {
      var step := steps[i];
      if HasTraffic(step) {
        i := i - 1;
        continue;
      }
      var replicas := ScaledValue(step.replicas);
      if replicas > maxReplicas {
        maxReplicas := replicas;
        targetStep := i + 1;
      }
      i := i - 1;
    }
    if targetStep == -1 {
      return Err("no previous step with no traffic found");
    }
    return Ok(targetStep);
  }

  function TooLargeError(steps: int, curStep: int): string
  {
    "has " + IntToString(steps) + " steps, but current step is too large " + IntToString(curStep)
  }

  const FirstStepError := "already at the first step, use kubectl-kruise rollout undo to cancel the release"

  function NotPreviousError(targetStep: int, curStep: int): string
  {
    "specified step " + IntToString(targetStep) + " is not a previous step (current step is " + IntToString(curStep) + ")"
  }

  /** The rollback reaches the status write: the object is a v1beta1 Rollout, its current
      step is past the first and within the steps, and the target (requested, or else
      chosen automatically) comes before the current step. */
  predicate WritesStatus(obj: RolloutObject, targetStep: int)
    reads obj
  {
    && obj.kind.RolloutV1beta1? && 1 < obj.currentStepIndex <= |obj.steps|
    && if targetStep == -1 then exists m :: 1 <= m < obj.currentStepIndex && Candidate(obj.steps, obj.currentStepIndex, m) && Percent(obj.steps, m) > 0
       else targetStep < obj.currentStepIndex
  }

  /** The function `rolloutRollbackGetter(targetStep)` returns, with the `targetStep` it
      captures. -1 asks for a step to be chosen; the chosen step is written back, so
      later calls of the same function reuse it. */
  class RollbackGetter {
    var targetStep: int

    constructor (targetStep: int)
      ensures this.targetStep == targetStep
    {
      this.targetStep := targetStep;
    }

    /** The target step of a rollback from `curStep`: the requested one, which must come
        before the current step, or else the best previous step, which is remembered. */
    method ResolveTarget(steps: seq<CanaryStep>, curStep: int) returns (err: Option<string>)
      requires 1 < curStep <= |steps|
      modifies this
      ensures old(targetStep) != -1 ==>
        && targetStep == old(targetStep)
        && (err.None? <==> old(targetStep) < curStep)
        && (err.Some? ==> err == Some(NotPreviousError(old(targetStep), curStep)))
      ensures old(targetStep) == -1 ==>
        && (err.None? <==> exists m :: 1 <= m < curStep && Candidate(steps, curStep, m) && Percent(steps, m) > 0)
        && (err.None? ==> BestPrevious(steps, curStep, targetStep))
        && (err.Some? ==> err == Some("no previous step with no traffic found") && targetStep == -1)
      ensures err.None? ==> targetStep < curStep
    {
      if targetStep == -1 {
        var s := FindPreviousStep(steps, curStep);
        if s.Err? {
          return Some(s.error);
        }
        targetStep := s.value;
      }
      if targetStep >= curStep {
        return Some(NotPreviousError(targetStep, curStep));
      }
      return None;
    }

    /** Point the Rollout's next step at the target: on success only the next-step index
        of the blue-green status (blue-green style) or of the canary status (otherwise)
        changes. The status written to is assumed present when the write is reached, as
        the source dereferences it there. */
    method Apply(obj: RolloutObject) returns (err: Option<string>)
      requires WritesStatus(obj, targetStep) && obj.style.BlueGreenStyle? ==> obj.blueGreenStatus.Some?
      requires WritesStatus(obj, targetStep) && !obj.style.BlueGreenStyle? ==> obj.canaryStatus.Some?
      modifies this, obj`canaryStatus, obj`blueGreenStatus
      ensures !obj.kind.RolloutV1beta1? ==> err == Some("rollback is not supported on given object")
      ensures obj.kind.RolloutV1beta1? && |obj.steps| < obj.currentStepIndex ==>
        err == Some(TooLargeError(|obj.steps|, obj.currentStepIndex))
      ensures obj.kind.RolloutV1beta1? && |obj.steps| >= obj.currentStepIndex && obj.currentStepIndex <= 1 ==>
        err == Some(FirstStepError)
      // a requested step must come before the current one
      ensures obj.kind.RolloutV1beta1? && |obj.steps| >= obj.currentStepIndex > 1 && old(targetStep) != -1 ==>
        targetStep == old(targetStep)
        && (old(targetStep) >= obj.currentStepIndex <==> err == Some(NotPreviousError(old(targetStep), obj.currentStepIndex)))
      // an automatic choice is the best previous step, and it is remembered
      ensures obj.kind.RolloutV1beta1? && |obj.steps| >= obj.currentStepIndex > 1 && old(targetStep) == -1 ==>
        && (err.None? <==> exists m :: Candidate(obj.steps, obj.currentStepIndex, m) && Percent(obj.steps, m) > 0)
        && (err.None? ==> BestPrevious(obj.steps, obj.currentStepIndex, targetStep))
        && (err.Some? ==> err == Some("no previous step with no traffic found") && targetStep == -1)
      ensures err.Some? ==> obj.canaryStatus == old(obj.canaryStatus) && obj.blueGreenStatus == old(obj.blueGreenStatus)
      ensures err.Some? && old(targetStep) != -1 ==> targetStep == old(targetStep)
      ensures err.None? <==> WritesStatus(obj, old(targetStep))
      ensures err.None? ==>
        && obj.kind.RolloutV1beta1? && targetStep < obj.currentStepIndex
        && (obj.style.BlueGreenStyle? ==>
              obj.blueGreenStatus == Some(old(obj.blueGreenStatus).value.(nextStepIndex := targetStep))
              && obj.canaryStatus == old(obj.canaryStatus))
        && (!obj.style.BlueGreenStyle? ==>
              obj.canaryStatus == Some(old(obj.canaryStatus).value.(nextStepIndex := targetStep))
              && obj.blueGreenStatus == old(obj.blueGreenStatus))
    {
      if !obj.kind.RolloutV1beta1? {
        return Some("rollback is not supported on given object");
      }
      var steps := obj.steps;
      var curStep := obj.currentStepIndex;
      if |steps| < curStep {
        return Some(TooLargeError(|steps|, curStep));
      }
      if curStep <= 1 {
        return Some(FirstStepError);
      }
      err := ResolveTarget(steps, curStep);
      if err.Some? {
        return;
      }
      if obj.style.BlueGreenStyle? {
        obj.blueGreenStatus := Some(obj.blueGreenStatus.value.(nextStepIndex := targetStep));
      } else {
        // canary and partition
        obj.canaryStatus := Some(obj.canaryStatus.value.(nextStepIndex := targetStep));
      }
      return None;
    }
  }
}
