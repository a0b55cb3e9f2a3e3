/**
 * The step-gating rules that both wizard stores and the Python wizard model
 * share: four steps, a set of completed step numbers, and a current-step
 * pointer that may move forward only onto a step whose predecessor has been
 * completed.
 *
 * The stores themselves are classes (see PermitStore and OnboardingStore);
 * this module gives the same transitions as pure functions on a `Gate` value so
 * that the invariants can be stated over whole traces of actions.
 */
module StepGating {

  const FirstStep: int := 1
  const LastStep: int := 4

  predicate InRange(step: int) { FirstStep <= step <= LastStep }

  /** Step 1 is always open; any other step opens once the step before it is completed. */
  predicate IsStepAccessible(completed: set<int>, step: int) {
    step == FirstStep || step - 1 in completed
  }

  /** `Math.max(1, Math.min(4, step))`. */
  function Clamp(step: int): (r: int)
    ensures InRange(r)
    ensures InRange(step) ==> r == step
    ensures step < FirstStep ==> r == FirstStep
    ensures step > LastStep ==> r == LastStep
  {
    if step < FirstStep then FirstStep else if step > LastStep then LastStep else step
  }

  /** The part of a store's state that the gating actions read and write. */
  datatype Gate = Gate(currentStep: int, completedSteps: set<int>)

  const Initial: Gate := Gate(FirstStep, {})

  /** The store actions, as far as they concern the gate. `Other` is every action that leaves it alone. */
  datatype Action =
    | SetCurrentStep(step: int)
    | NextStep
    | PreviousStep
    | MarkStepCompleted(step: int)
    | Reset
    | Other

  /**
   * The current step is never more than one step past the furthest completed
   * step: either it is the first step, or some completed step is at least its
   * predecessor. (The stronger "the predecessor of the current step is
   * completed" does not survive `PreviousStep`, which is ungated, nor a clamped
   * `SetCurrentStep` beyond the last step.)
   */
  ghost predicate WithinProgress(g: Gate) {
    g.currentStep == FirstStep || exists j :: j in g.completedSteps && j >= g.currentStep - 1
  }

  predicate Valid(g: Gate) { InRange(g.currentStep) }

  /** One action applied to the gate. */
  function Apply(g: Gate, a: Action): (h: Gate)
    ensures Valid(g) ==> Valid(h)
    ensures WithinProgress(g) ==> WithinProgress(h)
    ensures a != Reset ==> g.completedSteps <= h.completedSteps
    ensures !a.MarkStepCompleted? && !a.Reset? ==> h.completedSteps == g.completedSteps
    ensures a.MarkStepCompleted? || a.Other? ==> h.currentStep == g.currentStep
    ensures a.MarkStepCompleted? ==> a.step in h.completedSteps
    ensures a.SetCurrentStep? ==>
      (if IsStepAccessible(g.completedSteps, a.step) then h.currentStep == Clamp(a.step) else h == g)
    ensures a.NextStep? ==>
      (if g.currentStep + 1 <= LastStep && IsStepAccessible(g.completedSteps, g.currentStep + 1)
       then h.currentStep == g.currentStep + 1 else h == g)
    ensures a.PreviousStep? ==>
      h.currentStep == (if g.currentStep > FirstStep then g.currentStep - 1 else g.currentStep)
    ensures a.Reset? ==> h == Initial
  {
    match a
    case SetCurrentStep(step) =>
      if IsStepAccessible(g.completedSteps, step) then g.(currentStep := Clamp(step)) else g
    case NextStep =>
      var next := g.currentStep + 1;
      if next <= LastStep && IsStepAccessible(g.completedSteps, next) then g.(currentStep := next) else g
    case PreviousStep =>
      if g.currentStep > FirstStep then g.(currentStep := g.currentStep - 1) else g
    case MarkStepCompleted(step) =>
      g.(completedSteps := g.completedSteps + {step})
    case Reset => Initial
    case Other => g
  }

  /** A sequence of actions applied in order. */
  function Run(g: Gate, trace: seq<Action>): (h: Gate)
    ensures Valid(g) ==> Valid(h)
    ensures WithinProgress(g) ==> WithinProgress(h)
    ensures Reset !in trace ==> g.completedSteps <= h.completedSteps
    decreases |trace|
  {
    if trace == [] then g else Run(Apply(g, trace[0]), trace[1..])
  }

  /** From the initial state every trace keeps the pointer on a real step, within one step of progress. */
  lemma ReachableStatesAreValid(trace: seq<Action>)
    ensures Valid(Run(Initial, trace)) && WithinProgress(Run(Initial, trace))
  {
  }

  /** Marking a step twice is the same as marking it once. */
  lemma MarkStepCompletedIdempotent(g: Gate, step: int)
    ensures Apply(Apply(g, MarkStepCompleted(step)), MarkStepCompleted(step)) == Apply(g, MarkStepCompleted(step))
  {
  }

  /** Completing a step only ever opens steps; it never closes one. */
  lemma AccessibilityMonotone(c: set<int>, d: set<int>, step: int)
    requires c <= d && IsStepAccessible(c, step)
    ensures IsStepAccessible(d, step)
  {
  }

  /** On a real step, `NextStep` moves exactly when the current step is completed and is not the last. */
  lemma NextStepMovesIffCompleted(g: Gate)
    requires Valid(g)
    ensures Apply(g, NextStep) != g <==> g.currentStep < LastStep && g.currentStep in g.completedSteps
  {
  }

  /** `NextStep` from a completed step below the last one lands on the following step. */
  lemma NextAfterMark(g: Gate)
    requires Valid(g) && g.currentStep < LastStep
    ensures Apply(Apply(g, MarkStepCompleted(g.currentStep)), NextStep).currentStep == g.currentStep + 1
  {
  }

  /** Without completing anything, the pointer can never leave step 1. */
  lemma {:induction false} NothingCompletedStaysOnFirst(g: Gate, trace: seq<Action>)
    requires g.currentStep == FirstStep && g.completedSteps == {}
    requires forall i :: 0 <= i < |trace| ==> !trace[i].MarkStepCompleted?
    ensures Run(g, trace).currentStep == FirstStep && Run(g, trace).completedSteps == {}
    decreases |trace|
  {
    if trace != [] {
      var h := Apply(g, trace[0]);
      assert h.currentStep == FirstStep && h.completedSteps == {};
      assert forall i :: 0 <= i < |trace[1..]| ==> trace[1..][i] == trace[i + 1];
      NothingCompletedStaysOnFirst(h, trace[1..]);
    }
  }
}
