/** A step button: which manager move it triggers, and when it can be pressed. */
module StepControl {
  import opened StepManagement

  datatype StepAction =
    | StartSteps | StopSteps | PauseSteps | ResumeSteps | NextStep
    | PreviousStep | GoToStep | SkipStep | ResetSteps

  /** UpdateButtonState: whether the button for `action` is interactable in manager state
      `s` with `total` steps, `target` being the step a GoToStep button goes to. Start is
      always enabled; with no run in progress only Start and, when there are steps, Reset
      are; with no steps none of GoTo, Skip and Reset is. */
  function Interactable(action: StepAction, s: StepState, total: nat, target: int): (r: bool)
    ensures action == StartSteps ==> r
    ensures !s.isRunning ==> (r <==> action == StartSteps || (action == ResetSteps && total > 0))
    ensures total == 0 ==> !(r && (action == GoToStep || action == SkipStep || action == ResetSteps))
  {
    match action
    case StartSteps => true
    case StopSteps => s.isRunning && !s.isPaused
    case PauseSteps => s.isRunning && !s.isPaused
    case ResumeSteps => s.isRunning && s.isPaused
    case NextStep => s.isRunning && s.currentStepIndex < total - 1
    case PreviousStep => s.isRunning && s.currentStepIndex > 0
    case GoToStep => s.isRunning && 0 <= target < total
    case SkipStep => s.isRunning && 0 <= s.currentStepIndex < total
    case ResetSteps => total > 0
  }

  /** The manager state after the move the action names. */
  function Effect(action: StepAction, s: StepState, total: nat, loopSteps: bool, target: int): StepState {
    match action
    case StartSteps => StartSpec(s, total)
    case StopSteps => StopSpec(s)
    case PauseSteps => PauseSpec(s)
    case ResumeSteps => ResumeSpec(s)
    case NextStep => NextSpec(s, total, loopSteps)
    case PreviousStep => PreviousSpec(s)
    case GoToStep => GoToSpec(s, total, target)
    case SkipStep => SkipSpec(s, total, loopSteps)
    case ResetSteps => ResetSpec(s)
  }

  /** The Previous, GoTo and Skip buttons are enabled exactly when the manager's own guard
      lets that move through, so a disabled one could only have been a no-op. */
  lemma ButtonsMatchGuards(s: StepState, total: nat, loopSteps: bool, target: int)
    ensures Interactable(PreviousStep, s, total, target) <==> PreviousGuard(s)
    ensures Interactable(PreviousStep, s, total, target) <==> Effect(PreviousStep, s, total, loopSteps, target) != s
    ensures Interactable(GoToStep, s, total, target) <==> GoToGuard(s, total, target)
    ensures Interactable(GoToStep, s, total, target) ==> Effect(GoToStep, s, total, loopSteps, target).currentStepIndex == target
    ensures Interactable(SkipStep, s, total, target) <==> SkipGuard(s, total)
    ensures !Interactable(SkipStep, s, total, target) ==> Effect(SkipStep, s, total, loopSteps, target) == s
  {
    if PreviousGuard(s) {
      assert Effect(PreviousStep, s, total, loopSteps, target).currentStepIndex != s.currentStepIndex;
    }
  }

  /** Pause and Resume are enabled exactly when pressing them changes the state; an enabled
      Stop ends the run and an enabled Next moves to the following step. */
  lemma ButtonsChangeState(s: StepState, total: nat, loopSteps: bool, target: int)
    ensures Interactable(PauseSteps, s, total, target) <==> Effect(PauseSteps, s, total, loopSteps, target) != s
    ensures Interactable(ResumeSteps, s, total, target) <==> Effect(ResumeSteps, s, total, loopSteps, target) != s
    ensures Interactable(StopSteps, s, total, target) ==> !Effect(StopSteps, s, total, loopSteps, target).isRunning
    ensures Interactable(NextStep, s, total, target) ==>
      Effect(NextStep, s, total, loopSteps, target).currentStepIndex == s.currentStepIndex + 1
    ensures Interactable(ResetSteps, s, total, target) <==> total > 0
  {
    if s.isRunning && !s.isPaused {
      assert Effect(PauseSteps, s, total, loopSteps, target).isPaused;
    }
    if s.isRunning && s.isPaused {
      assert !Effect(ResumeSteps, s, total, loopSteps, target).isPaused;
    }
  }

  /** ExecuteAction: with a manager, call exactly the move the action names. */
  method ExecuteAction(manager: GuitarStepManager?, action: StepAction, target: int)
    requires manager != null ==> manager.Valid()
    modifies manager
    ensures manager != null ==> manager.Valid()
    ensures manager != null ==>
      manager.State() == Effect(action, old(manager.State()), |manager.steps|, manager.loopSteps, target)
  {
    if manager == null {
      return;
    }
    match action
    case StartSteps => manager.StartSteps();
    case StopSteps => manager.StopSteps();
    case PauseSteps => manager.PauseSteps();
    case ResumeSteps => manager.ResumeSteps();
    case NextStep => manager.NextStep();
    case PreviousStep => manager.PreviousStep();
    case GoToStep => manager.GoToStep(target);
    case SkipStep => manager.SkipCurrentStep();
    case ResetSteps => manager.ResetSteps();
  }
}
