/**
 * Step navigation of the wizard: the gated move to a step, the back and
 * continue buttons, the check made before jumping to a step from the stepper,
 * and the stepper's active/completed marks.
 */
module Navigation {
  import opened Types
  import opened Validation
  import opened Store

  /** goToStep's gate: a forward move needs the current step's check; any other move passes. */
  predicate StepAllowed(s: AppState, target: int) {
    target <= s.currentStep || CanProceedToNextStep(s.currentStep, s.giftCards)
  }

  /**
   * goToStep: a blocked forward move changes nothing and notifies no one;
   * otherwise only the current step changes, with one notification.
   */
  method GoToStep(store: DistributionState, step: int)
    requires store.Valid()
    modifies store
    ensures store.Valid() && store.listeners == old(store.listeners)
    ensures StepAllowed(old(store.state), step) ==>
      store.state == old(store.state).(currentStep := step) &&
      store.delivered == old(store.delivered) + Round(store.listeners, store.state)
    ensures !StepAllowed(old(store.state), step) ==>
      store.state == old(store.state) && store.delivered == old(store.delivered)
  {
    var state := store.GetState();
    if step > state.currentStep {
      if !CanProceedToNextStep(state.currentStep, state.giftCards) {
        return;
      }
    }
    store.SetState(NoStateUpdate.(currentStep := Some(step)));
  }

  /**
   * What the gate lets through: every backward move; every move from step 0;
   * from step 1 a forward move exactly when some card has a method; from step
   * 2 a forward move exactly when every e-mail and SMS card validates.
   */
  lemma StepAllowedCases(s: AppState, target: int)
    ensures target <= s.currentStep ==> StepAllowed(s, target)
    ensures s.currentStep == 0 ==> StepAllowed(s, target)
    ensures s.currentStep == 1 && target > 1 ==>
      (StepAllowed(s, target) <==> exists i | 0 <= i < |s.giftCards| :: s.giftCards[i].delivery.Some?)
    ensures s.currentStep == 2 && target > 2 ==>
      (StepAllowed(s, target) <==>
        forall c | c in s.giftCards && IsDigital(c) :: Utils.ContactErrors(c) == [] && !MessageTooLongFor(c))
  {
    CanProceedCharacterisation(s.currentStep, s.giftCards);
  }

  /** handleBack: one step back with one notification, and nothing at all at step 0. */
  method HandleBack(store: DistributionState)
    requires store.Valid()
    modifies store
    ensures store.Valid() && store.listeners == old(store.listeners)
    ensures old(store.state.currentStep) > 0 ==>
      store.state == old(store.state).(currentStep := old(store.state.currentStep) - 1) &&
      store.delivered == old(store.delivered) + Round(store.listeners, store.state)
    ensures old(store.state.currentStep) <= 0 ==>
      store.state == old(store.state) && store.delivered == old(store.delivered)
  {
    var state := store.GetState();
    if state.currentStep > 0 {
      GoToStep(store, state.currentStep - 1);
    }
  }

  /**
   * handleContinue: from step 0 to step 1; from step 1 to step 2 when some
   * card has a method and nowhere otherwise; from any other step (the
   * confirmation at step 2 included) the step does not change.
   */
  method HandleContinue(store: DistributionState)
    requires store.Valid()
    modifies store
    ensures store.Valid() && store.listeners == old(store.listeners)
    ensures old(store.state.currentStep) == 0 ==>
      store.state == old(store.state).(currentStep := 1) &&
      store.delivered == old(store.delivered) + Round(store.listeners, store.state)
    ensures old(store.state.currentStep) == 1 && HasSelection(old(store.state.giftCards)) ==>
      store.state == old(store.state).(currentStep := 2) &&
      store.delivered == old(store.delivered) + Round(store.listeners, store.state)
    ensures old(store.state.currentStep) == 1 && !HasSelection(old(store.state.giftCards)) ==>
      store.state == old(store.state) && store.delivered == old(store.delivered)
    ensures old(store.state.currentStep) != 0 && old(store.state.currentStep) != 1 ==>
      store.state == old(store.state) && store.delivered == old(store.delivered)
  {
    var state := store.GetState();
    if state.currentStep == 1 {
      if !HasSelection(state.giftCards) {
        return;
      }
      GoToStep(store, 2);
    } else if state.currentStep == 2 {
      // The confirmation dialog is shown here; the store is not touched.
    } else if state.currentStep == 0 {
      GoToStep(store, 1);
    }
  }

  /** canNavigateToStep's answer: backwards always, forwards when every step on the way may be left. */
  predicate Navigable(s: AppState, target: int) {
    target < s.currentStep ||
    forall step | s.currentStep <= step < target :: CanProceedToNextStep(step, s.giftCards)
  }

  /** canNavigateToStep: check the gate of every step from the current one up to the target. */
  method CanNavigateToStep(store: DistributionState, target: int) returns (ok: bool)
    ensures ok <==> Navigable(store.state, target)
  {
    var state := store.GetState();
    if target < state.currentStep {
      return true;
    }
    var step := state.currentStep;
    while step < target
      invariant state.currentStep <= step
      invariant forall s | state.currentStep <= s < step :: CanProceedToNextStep(s, state.giftCards)
    {
      if !CanProceedToNextStep(step, state.giftCards) {
        return false;
      }
      step := step + 1;
    }
    return true;
  }

  /** A step the stepper may jump to is one goToStep lets through. */
  lemma NavigableIsAllowed(s: AppState, target: int)
    requires Navigable(s, target)
    ensures StepAllowed(s, target)
  {
    if target > s.currentStep {
      assert s.currentStep <= s.currentStep < target;
    }
  }

  /**
   * goToStep checks only the gate of the current step: from step 0 with no
   * card given a method it lets any jump past step 1 through, which the
   * stepper's check refuses because step 1 cannot be left.
   */
  lemma GoToStepSkipsIntermediateGates(s: AppState, target: int)
    requires s.currentStep == 0 && target >= 2 && !HasSelection(s.giftCards)
    ensures StepAllowed(s, target) && !Navigable(s, target)
  {
    assert !CanProceedToNextStep(1, s.giftCards);
    assert s.currentStep <= 1 < target;
  }

  // ---------------------------------------------------------------------------
  // The stepper marks set by updateStepDisplay and updateStepIcon
  // ---------------------------------------------------------------------------

  /** The classes of one stepper item: `active`, `completed`, and whether the check icon replaces the number. */
  datatype StepMark = StepMark(active: bool, completed: bool, checkShown: bool)

  /**
   * The marks of `itemCount` stepper items for `step`: item `i` shows step
   * `i + 1`, active when that is the current step, completed (with a check
   * icon) when it lies before it, never both.
   */
  method ClassifySteps(itemCount: nat, step: int) returns (marks: seq<StepMark>)
    ensures |marks| == itemCount
    ensures forall i | 0 <= i < itemCount :: marks[i].active <==> i + 1 == step
    ensures forall i | 0 <= i < itemCount :: marks[i].completed <==> i + 1 < step
    ensures forall i | 0 <= i < itemCount :: marks[i].checkShown <==> marks[i].completed
    ensures forall i | 0 <= i < itemCount :: !(marks[i].active && marks[i].completed)
    ensures forall i, j | 0 <= i < j < itemCount :: !(marks[i].active && marks[j].active)
  {
    marks := [];
    for index := 0 to itemCount
      invariant |marks| == index
      invariant forall i | 0 <= i < index :: marks[i].active <==> i + 1 == step
      invariant forall i | 0 <= i < index :: marks[i].completed <==> i + 1 < step
      invariant forall i | 0 <= i < index :: marks[i].checkShown <==> i + 1 < step
    {
      var stepNum := index + 1;
      var active, completed := false, false;
      if stepNum == step {
        active := true;
      } else if stepNum < step {
        completed := true;
      }
      var checkShown := stepNum < step;
      marks := marks + [StepMark(active, completed, checkShown)];
    }
  }
}
