/** The onboarding step machine: which step the player is on, whether the run is going or
    paused, and which steps the plug connections have completed. */
module StepManagement {
  import opened Audio

  /** One onboarding step as configured. */
  datatype GuitarStep = GuitarStep(stepName: string, description: string, delay: real,
                                   waitForInput: bool, autoProceed: bool, isOptional: bool)

  /** The steps the manager sets up when it starts. */
  function InitialSteps(): (r: seq<GuitarStep>)
    ensures |r| == 3
  {
    [ GuitarStep("Enable amplifier", "Connect the amplifier to the power", 0.0, true, false, false),
      GuitarStep("Connect guitar", "Take the Jack cabel and connect it to the guitar", 0.0, true, false, false),
      GuitarStep("Start playing", "Yeee, you are ready to play", 0.0, true, false, false) ]
  }

  /** The manager's state, as the moves below read and write it. */
  datatype StepState = StepState(currentStepIndex: int, isRunning: bool, isPaused: bool,
                                 completedSteps: set<int>, lastCompletedStepIndex: int)

  /** What every move keeps, for `count` steps: the index is -1 or names a step, a run needs
      steps, and only a run can be paused. */
  predicate ValidState(s: StepState, count: nat) {
    (s.currentStepIndex == -1 || 0 <= s.currentStepIndex < count)
    && (s.isRunning ==> count > 0)
    && (s.isPaused ==> s.isRunning)
  }

  /** The run ends: neither running nor paused. */
  function Completed(s: StepState): StepState {
    s.(isRunning := false, isPaused := false)
  }

  function StartSpec(s: StepState, count: nat): StepState {
    if s.isRunning || count == 0 then s
    else StepState(-1, true, false, {}, -1)
  }

  function StopSpec(s: StepState): StepState {
    if !s.isRunning then s else s.(isRunning := false, isPaused := false)
  }

  function PauseSpec(s: StepState): StepState {
    if !s.isRunning then s else s.(isPaused := true)
  }

  function ResumeSpec(s: StepState): StepState {
    if !s.isRunning || !s.isPaused then s else s.(isPaused := false)
  }

  function NextSpec(s: StepState, count: nat, loopSteps: bool): StepState {
    if !s.isRunning then s
    else if s.currentStepIndex < count - 1 then s.(currentStepIndex := s.currentStepIndex + 1)
    else if loopSteps then s.(currentStepIndex := 0)
    else Completed(s)
  }

  /** PreviousStep acts exactly when a run is on a step after the first. */
  predicate PreviousGuard(s: StepState) {
    s.isRunning && s.currentStepIndex > 0
  }

  function PreviousSpec(s: StepState): StepState {
    if !PreviousGuard(s) then s else s.(currentStepIndex := s.currentStepIndex - 1)
  }

  /** GoToStep acts exactly when a run is going and the target names a step. */
  predicate GoToGuard(s: StepState, count: nat, stepIndex: int) {
    s.isRunning && 0 <= stepIndex < count
  }

  function GoToSpec(s: StepState, count: nat, stepIndex: int): StepState {
    if !GoToGuard(s, count, stepIndex) then s else s.(currentStepIndex := stepIndex)
  }

  /** SkipCurrentStep acts exactly when a run is on a step (CurrentStep is not null). */
  predicate SkipGuard(s: StepState, count: nat) {
    s.isRunning && 0 <= s.currentStepIndex < count
  }

  function SkipSpec(s: StepState, count: nat, loopSteps: bool): StepState {
    if !SkipGuard(s, count) then s else NextSpec(s, count, loopSteps)
  }

  function ResetSpec(s: StepState): StepState {
    StopSpec(s).(currentStepIndex := -1, completedSteps := {})
  }

  /** The first step in from .. count - 1 not completed, if any. */
  function FirstUncompletedFrom(completed: set<int>, from: int, count: nat): Option<int>
    decreases count - from
  {
    if from >= count then None
    else if from !in completed then Some(from)
    else FirstUncompletedFrom(completed, from + 1, count)
  }

  /** The search finds the smallest uncompleted step at or after `from`, all steps passed
      over being completed; it fails only when every step from `from` on is completed. */
  lemma {:induction false} FirstUncompletedMeaning(completed: set<int>, from: int, count: nat)
    ensures var r := FirstUncompletedFrom(completed, from, count);
      r.Some? ==> from <= r.value < count && r.value !in completed
                  && forall k :: from <= k < r.value ==> k in completed
    ensures FirstUncompletedFrom(completed, from, count).None? <==>
      forall k :: from <= k < count ==> k in completed
    decreases count - from
  {
    if from < count && from in completed {
      FirstUncompletedMeaning(completed, from + 1, count);
      forall k | from <= k < count && (forall j :: from + 1 <= j < count ==> j in completed)
        ensures k in completed
      {
        if k != from {
          assert from + 1 <= k;
        }
      }
    }
  }

  function CheckSpec(s: StepState, count: nat): StepState {
    if s.currentStepIndex in s.completedSteps then
      match FirstUncompletedFrom(s.completedSteps, s.currentStepIndex + 1, count)
      case Some(j) => s.(currentStepIndex := j)
      case None => Completed(s)
    else s
  }

  function RegisterConnectionSpec(s: StepState, count: nat, stepIndex: int): StepState {
    var marked := s.(completedSteps := s.completedSteps + {stepIndex},
                     lastCompletedStepIndex := if s.lastCompletedStepIndex >= stepIndex then s.lastCompletedStepIndex else stepIndex);
    CheckSpec(marked, count)
  }

  function RegisterDisconnectionSpec(s: StepState, count: nat, stepIndex: int): StepState {
    var left := s.completedSteps - {stepIndex};
    match FirstUncompletedFrom(left, 0, count)
    case Some(j) => s.(completedSteps := left, currentStepIndex := j)
    case None => s.(completedSteps := left)
  }

  /** GetProgress: the share of steps reached, (index + 1) / count, and 0 without steps. */
  function Progress(s: StepState, count: nat): (r: real)
    ensures ValidState(s, count) ==> 0.0 <= r <= 1.0
    ensures ValidState(s, count) && s.currentStepIndex == -1 ==> r == 0.0
    ensures count > 0 && s.currentStepIndex == count - 1 ==> r == 1.0
  {
    if count == 0 then 0.0 else (s.currentStepIndex + 1) as real / count as real
  }

  /** Every move keeps the state valid. */
  lemma MovesKeepValid(s: StepState, count: nat, loopSteps: bool, stepIndex: int)
    requires ValidState(s, count)
    ensures ValidState(StartSpec(s, count), count)
    ensures ValidState(StopSpec(s), count) && ValidState(PauseSpec(s), count) && ValidState(ResumeSpec(s), count)
    ensures ValidState(NextSpec(s, count, loopSteps), count) && ValidState(PreviousSpec(s), count)
    ensures ValidState(GoToSpec(s, count, stepIndex), count) && ValidState(SkipSpec(s, count, loopSteps), count)
    ensures ValidState(ResetSpec(s), count)
    ensures ValidState(RegisterConnectionSpec(s, count, stepIndex), count)
    ensures ValidState(RegisterDisconnectionSpec(s, count, stepIndex), count)
  {
    var marked := s.(completedSteps := s.completedSteps + {stepIndex},
                     lastCompletedStepIndex := if s.lastCompletedStepIndex >= stepIndex then s.lastCompletedStepIndex else stepIndex);
    FirstUncompletedMeaning(marked.completedSteps, marked.currentStepIndex + 1, count);
    FirstUncompletedMeaning(s.completedSteps - {stepIndex}, 0, count);
  }

  /** Start is refused while a run is going or without steps; otherwise it begins a fresh run
      before the first step with nothing completed. */
  lemma StartBegins(s: StepState, count: nat)
    ensures s.isRunning || count == 0 ==> StartSpec(s, count) == s
    ensures !s.isRunning && count > 0 ==>
      var t := StartSpec(s, count);
      t.currentStepIndex == -1 && t.isRunning && !t.isPaused && t.completedSteps == {}
      && t.lastCompletedStepIndex == -1
  {
  }

  /** Next moves one step on within the run; at the last step it wraps to the first when
      looping and ends the run otherwise; it does nothing outside a run. */
  lemma NextStepMoves(s: StepState, count: nat, loopSteps: bool)
    requires ValidState(s, count)
    ensures var t := NextSpec(s, count, loopSteps);
      t.completedSteps == s.completedSteps && t.lastCompletedStepIndex == s.lastCompletedStepIndex
      && (!s.isRunning ==> t == s)
      && (s.isRunning && s.currentStepIndex < count - 1 ==> t.currentStepIndex == s.currentStepIndex + 1 && t.isRunning)
      && (s.isRunning && s.currentStepIndex == count - 1 && loopSteps ==> t.currentStepIndex == 0 && t.isRunning)
      && (s.isRunning && s.currentStepIndex == count - 1 && !loopSteps ==>
            !t.isRunning && !t.isPaused && t.currentStepIndex == s.currentStepIndex)
  {
  }

  /** Reset ends any run at index -1 with nothing completed, keeping the last completed index. */
  lemma ResetClears(s: StepState)
    requires s.isPaused ==> s.isRunning
    ensures var t := ResetSpec(s);
      !t.isRunning && !t.isPaused && t.currentStepIndex == -1 && t.completedSteps == {}
      && t.lastCompletedStepIndex == s.lastCompletedStepIndex
  {
  }

  /** A connection marks its step completed and raises the last completed index to it,
      running or not. */
  lemma RegisterConnectionMarks(s: StepState, count: nat, stepIndex: int)
    ensures var t := RegisterConnectionSpec(s, count, stepIndex);
      t.completedSteps == s.completedSteps + {stepIndex}
      && t.lastCompletedStepIndex >= s.lastCompletedStepIndex && t.lastCompletedStepIndex >= stepIndex
      && (t.lastCompletedStepIndex == s.lastCompletedStepIndex || t.lastCompletedStepIndex == stepIndex)
  {
  }

  /** Proceeding: on a completed step the manager moves to the next uncompleted step, every
      step between being completed, or ends the run when there is none; on an uncompleted
      step nothing changes. */
  lemma CheckProceeds(s: StepState, count: nat)
    ensures var t := CheckSpec(s, count);
      t.completedSteps == s.completedSteps
      && (s.currentStepIndex !in s.completedSteps ==> t == s)
      && (s.currentStepIndex in s.completedSteps && t.isRunning == s.isRunning && t.currentStepIndex != s.currentStepIndex ==>
            s.currentStepIndex < t.currentStepIndex < count && t.currentStepIndex !in s.completedSteps
            && forall k :: s.currentStepIndex < k < t.currentStepIndex ==> k in s.completedSteps)
      && (s.currentStepIndex in s.completedSteps && (forall k :: s.currentStepIndex < k < count ==> k in s.completedSteps) ==>
            !t.isRunning && !t.isPaused && t.currentStepIndex == s.currentStepIndex)
      && (s.currentStepIndex in s.completedSteps && !(forall k :: s.currentStepIndex < k < count ==> k in s.completedSteps) ==>
            t.currentStepIndex != s.currentStepIndex && t.isRunning == s.isRunning)
  {
    FirstUncompletedMeaning(s.completedSteps, s.currentStepIndex + 1, count);
  }

  /** A disconnection un-completes its step and sends the manager back to the first
      uncompleted step; for a step of the list that is at or before the step itself, and
      every step before it is completed. */
  lemma RegisterDisconnectionReturns(s: StepState, count: nat, stepIndex: int)
    ensures var t := RegisterDisconnectionSpec(s, count, stepIndex);
      t.completedSteps == s.completedSteps - {stepIndex}
      && t.isRunning == s.isRunning && t.isPaused == s.isPaused
      && (0 <= stepIndex < count ==>
            0 <= t.currentStepIndex <= stepIndex && forall k :: 0 <= k < t.currentStepIndex ==> k in t.completedSteps)
  {
    FirstUncompletedMeaning(s.completedSteps - {stepIndex}, 0, count);
  }

  class GuitarStepManager {
    const loopSteps: bool
    const steps: seq<GuitarStep>
    var currentStepIndex: int
    var isRunning: bool
    var isPaused: bool
    var completedSteps: set<int>
    var lastCompletedStepIndex: int

    function State(): StepState
      reads this
    {
      StepState(currentStepIndex, isRunning, isPaused, completedSteps, lastCompletedStepIndex)
    }

    ghost predicate Valid()
      reads this
    {
      ValidState(State(), |steps|)
    }

    /** Start: install the three onboarding steps, and start a run when `autoStart` is set. */
    constructor (loop: bool, autoStart: bool)
      ensures Valid()
      ensures loopSteps == loop && steps == InitialSteps()
      ensures State() == if autoStart then StepState(-1, true, false, {}, -1) else StepState(-1, false, false, {}, -1)
    {
      loopSteps := loop;
      steps := InitialSteps();
      currentStepIndex := -1;
      isRunning := false;
      isPaused := false;
      completedSteps := {};
      lastCompletedStepIndex := -1;
      new;
      if autoStart {
        StartSteps();
      }
    }

    method StartSteps()
      requires Valid()
      modifies this
      ensures Valid()
      ensures State() == StartSpec(old(State()), |steps|)
    {
      if isRunning {
        return;
      }
      if |steps| == 0 {
        return;
      }
      currentStepIndex := -1;
      isRunning := true;
      isPaused := false;
      completedSteps := {};
      lastCompletedStepIndex := -1;
    }

    method StopSteps()
      requires Valid()
      modifies this
      ensures Valid()
      ensures State() == StopSpec(old(State()))
    {
      if !isRunning {
        return;
      }
      isRunning := false;
      isPaused := false;
    }

    method PauseSteps()
      requires Valid()
      modifies this
      ensures Valid()
      ensures State() == PauseSpec(old(State()))
    {
      if !isRunning {
        return;
      }
      isPaused := true;
    }

    method ResumeSteps()
      requires Valid()
      modifies this
      ensures Valid()
      ensures State() == ResumeSpec(old(State()))
    {
      if !isRunning || !isPaused {
        return;
      }
      isPaused := false;
    }

    method NextStep()
      requires Valid()
      modifies this
      ensures Valid()
      ensures State() == NextSpec(old(State()), |steps|, loopSteps)
    {
      if !isRunning {
        return;
      }
      if currentStepIndex < |steps| - 1 {
        currentStepIndex := currentStepIndex + 1;
      } else if loopSteps {
        currentStepIndex := 0;
      } else {
        CompleteSteps();
      }
    }

    method PreviousStep()
      requires Valid()
      modifies this
      ensures Valid()
      ensures State() == PreviousSpec(old(State()))
    {
      if !isRunning || currentStepIndex <= 0 {
        return;
      }
      currentStepIndex := currentStepIndex - 1;
    }

    method GoToStep(stepIndex: int)
      requires Valid()
      modifies this
      ensures Valid()
      ensures State() == GoToSpec(old(State()), |steps|, stepIndex)
    {
      if !isRunning || stepIndex < 0 || stepIndex >= |steps| {
        return;
      }
      currentStepIndex := stepIndex;
    }

    method SkipCurrentStep()
      requires Valid()
      modifies this
      ensures Valid()
      ensures State() == SkipSpec(old(State()), |steps|, loopSteps)
    {
      if !isRunning || currentStepIndex < 0 || currentStepIndex >= |steps| {
        return;
      }
      NextStep();
    }

    method ResetSteps()
      requires Valid()
      modifies this
      ensures Valid()
      ensures State() == ResetSpec(old(State()))
    {
      StopSteps();
      currentStepIndex := -1;
      completedSteps := {};
    }

    method CompleteSteps()
      modifies this
      ensures State() == Completed(old(State()))
    {
      isRunning := false;
      isPaused := false;
    }

    method RegisterConnection(stepIndex: int)
      requires Valid()
      modifies this
      ensures Valid()
      ensures State() == RegisterConnectionSpec(old(State()), |steps|, stepIndex)
    {
      MovesKeepValid(State(), |steps|, loopSteps, stepIndex);
      completedSteps := completedSteps + {stepIndex};
      lastCompletedStepIndex := if lastCompletedStepIndex >= stepIndex then lastCompletedStepIndex else stepIndex;
      CheckAndProceedToNextStep();
    }

    /** When the current step is completed, move to the next uncompleted step after it, or
        end the run when all later steps are completed. */
    method CheckAndProceedToNextStep()
      requires -1 <= currentStepIndex
      modifies this
      ensures State() == CheckSpec(old(State()), |steps|)
    {
      if currentStepIndex in completedSteps {
        var i := currentStepIndex + 1;
        while i < |steps|
          invariant currentStepIndex == old(currentStepIndex) && State() == old(State())
          invariant FirstUncompletedFrom(completedSteps, i, |steps|)
                 == FirstUncompletedFrom(completedSteps, currentStepIndex + 1, |steps|)
          decreases |steps| - i
        {
          if i !in completedSteps {
            currentStepIndex := i;
            return;
          }
          i := i + 1;
        }
        CompleteSteps();
      }
    }

    /** Un-complete the step and return to the first uncompleted step, if there is one. */
    method RegisterDisconnection(stepIndex: int)
      requires Valid()
      modifies this
      ensures Valid()
      ensures State() == RegisterDisconnectionSpec(old(State()), |steps|, stepIndex)
    {
      MovesKeepValid(State(), |steps|, loopSteps, stepIndex);
      completedSteps := completedSteps - {stepIndex};
      var firstUncompletedStep := -1;
      var i := 0;
      while i < |steps|
        invariant 0 <= i <= |steps|
        invariant FirstUncompletedFrom(completedSteps, i, |steps|) == FirstUncompletedFrom(completedSteps, 0, |steps|)
        invariant firstUncompletedStep == -1
        decreases |steps| - i
      {
        if i !in completedSteps {
          firstUncompletedStep := i;
          break;
        }
        i := i + 1;
      }
      if firstUncompletedStep >= 0 {
        currentStepIndex := firstUncompletedStep;
      }
    }

    function GetProgress(): (r: real)
      reads this
      ensures Valid() ==> 0.0 <= r <= 1.0
    {
      Progress(State(), |steps|)
    }
  }
}
