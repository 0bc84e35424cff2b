/**
 * The onboarding state machine behind `OnboardingProvider`
 * (src/contexts/OnboardingContext.tsx). The React state hooks become fields and
 * the `onboarding_completed` item of `localStorage` becomes the field `storedFlag`.
 */
module Onboarding {
  import opened Wrappers

  /** The number of onboarding steps; steps are numbered from 1. */
  const TotalSteps: int := 4
  /** The value written to `localStorage` on completion or skip. */
  const CompletedFlag: string := "true"

  /** The provider's state as one value, so that an operation can say which part it changes. */
  datatype OnboardingView = OnboardingView(
    isFirstTime: bool,
    currentStep: int,
    completedSteps: set<int>,
    achievements: seq<string>,
    storedFlag: Option<string>)

  /** `!localStorage.getItem('onboarding_completed')`: no item, or an empty one. */
  function FirstVisit(stored: Option<string>): (b: bool)
    ensures b <==> stored.None? || stored.value == ""
  {
    !(stored.Some? && stored.value != "")
  }

  /** Once the flag has been written, a later visit is no longer a first visit. */
  lemma CompletionPersists()
    ensures !FirstVisit(Some(CompletedFlag))
  {
  }

  class OnboardingProvider {
    var isFirstTime: bool
    var currentStep: int
    var completedSteps: set<int>
    var achievements: seq<string>
    var storedFlag: Option<string>

    /** The step counter stays within the steps that exist. */
    predicate Valid()
      reads this
    {
      1 <= currentStep <= TotalSteps
    }

    function View(): OnboardingView
      reads this
    {
      OnboardingView(isFirstTime, currentStep, completedSteps, achievements, storedFlag)
    }

    /** The initial state, read from the stored flag. */
    constructor(stored: Option<string>)
      ensures Valid()
      ensures View() == OnboardingView(FirstVisit(stored), 1, {}, [], stored)
    {
      isFirstTime := FirstVisit(stored);
      currentStep := 1;
      completedSteps := {};
      achievements := [];
      storedFlag := stored;
    }

    /** `startOnboarding`: back to step 1 with nothing completed or unlocked. */
    method StartOnboarding()
      requires Valid()
      modifies this
      ensures Valid()
      ensures View() == old(View()).(currentStep := 1, completedSteps := {}, achievements := [])
    {
      currentStep := 1;
      completedSteps := {};
      achievements := [];
    }

    /** `nextStep`: advances by one, except on the last step. */
    method NextStep()
      requires Valid()
      modifies this
      ensures Valid()
      ensures old(currentStep) < TotalSteps ==> currentStep == old(currentStep) + 1
      ensures old(currentStep) == TotalSteps ==> currentStep == TotalSteps
      ensures View() == old(View()).(currentStep := currentStep)
    {
      if currentStep < TotalSteps {
        currentStep := currentStep + 1;
      }
    }

    /** `completeStep(step)`: adds the step to the set; doing so again changes nothing. */
    method CompleteStep(step: int)
      requires Valid()
      modifies this
      ensures Valid()
      ensures completedSteps == old(completedSteps) + {step}
      ensures step in old(completedSteps) ==> View() == old(View())
      ensures View() == old(View()).(completedSteps := completedSteps)
    {
      completedSteps := completedSteps + {step};
    }

    /** `unlockAchievement(name)`: appends, keeping any earlier copy. */
    method UnlockAchievement(achievement: string)
      requires Valid()
      modifies this
      ensures Valid()
      ensures achievements == old(achievements) + [achievement]
      ensures |achievements| == |old(achievements)| + 1 && achievements[|achievements| - 1] == achievement
      ensures View() == old(View()).(achievements := achievements)
    {
      achievements := achievements + [achievement];
    }

    /** `completeOnboarding`: records completion and jumps to the last step. */
    method CompleteOnboarding()
      requires Valid()
      modifies this
      ensures Valid()
      ensures !isFirstTime && currentStep == TotalSteps && storedFlag == Some(CompletedFlag)
      ensures !FirstVisit(storedFlag)
      ensures View() == old(View()).(isFirstTime := false, currentStep := TotalSteps, storedFlag := Some(CompletedFlag))
    {
      isFirstTime := false;
      storedFlag := Some(CompletedFlag);
      currentStep := TotalSteps;
    }

    /** `skipOnboarding`: only once some step is completed; the step counter is left alone. */
    method SkipOnboarding()
      requires Valid()
      modifies this
      ensures Valid()
      ensures old(completedSteps) == {} ==> View() == old(View())
      ensures old(completedSteps) != {} ==> View() == old(View()).(isFirstTime := false, storedFlag := Some(CompletedFlag))
      ensures currentStep == old(currentStep)
    {
      if |completedSteps| > 0 {
        isFirstTime := false;
        storedFlag := Some(CompletedFlag);
      }
    }
  }
}
