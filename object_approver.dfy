/** Approving a paused Kruise Rollout step
    (pkg/internal/polymorphichelpers/objectapprover.go). */
module ObjectApprover {
  import opened Wrappers
  import opened RolloutObjects

  const NotPausedError := "does not allow to approve, because current canary state is not 'StepPaused'"

  /** A Rollout may be approved when its canary status exists and is paused at a step. */
  predicate Approvable(canaryStatus: Option<StepStatus>)
  {
    canaryStatus.Some? && canaryStatus.value.currentStepState == CanaryStepStatePaused
  }

  /** Approval cannot be repeated: the approved status is no longer paused. */
  lemma ApprovalNotRepeatable(s: StepStatus)
    requires Approvable(Some(s))
    ensures !Approvable(Some(s.(currentStepState := CanaryStepStateReady)))
  {
    assert CanaryStepStateReady[5] != CanaryStepStatePaused[5];
  }

  /** `defaultObjectApprover`: both Rollout API versions follow the same rule; a paused
      step becomes ready and nothing else changes. */
  method Approve(obj: RolloutObject) returns (err: Option<string>)
    modifies obj`canaryStatus
    ensures obj.kind.OtherObject? ==> err == Some("approving is not supported")
    ensures !obj.kind.OtherObject? && !Approvable(old(obj.canaryStatus)) ==> err == Some(NotPausedError)
    ensures err.None? <==> !obj.kind.OtherObject? && Approvable(old(obj.canaryStatus))
    ensures obj.canaryStatus ==
      if err.None? then Some(old(obj.canaryStatus).value.(currentStepState := CanaryStepStateReady))
      else old(obj.canaryStatus)
  {
    match obj.kind {
      case RolloutV1alpha1 =>
        if obj.canaryStatus.None? || obj.canaryStatus.value.currentStepState != CanaryStepStatePaused {
          return Some(NotPausedError);
        }
        obj.canaryStatus := Some(obj.canaryStatus.value.(currentStepState := CanaryStepStateReady));
        return None;
      case RolloutV1beta1 =>
        if obj.canaryStatus.None? || obj.canaryStatus.value.currentStepState != CanaryStepStatePaused {
          return Some(NotPausedError);
        }
        obj.canaryStatus := Some(obj.canaryStatus.value.(currentStepState := CanaryStepStateReady));
        return None;
      case OtherObject =>
        return Some("approving is not supported");
    }
  }
}
