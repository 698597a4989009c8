/** The four-step onboarding flow (components/onboarding/OnboardingForm.tsx). */
module Onboarding {
  import opened Wrappers

  const TotalSteps := 4
  const DefaultRedirect := "/dashboard"

  datatype FormData = FormData(fullName: string, company: string, role: string, useCase: string)

  datatype Field = FullName | Company | Role | UseCase

  /** The flow's state (lines 21-28) and what it has told the router and its caller so far:
      the paths pushed, and how often `onComplete` ran. */
  datatype Flow = Flow(currentStep: int, isLoading: bool, formData: FormData, pushed: seq<string>,
                       completions: nat)

  const Start := Flow(1, false, FormData("", "", "", ""), [], 0)

  /** handleNext (lines 33-37). */
  function Next(f: Flow): (r: Flow)
    ensures f.currentStep < TotalSteps ==> r == f.(currentStep := f.currentStep + 1)
    ensures f.currentStep >= TotalSteps ==> r == f
  {
    if f.currentStep < TotalSteps then f.(currentStep := f.currentStep + 1) else f
  }

  /** handleBack (lines 39-43). */
  function Back(f: Flow): (r: Flow)
    ensures f.currentStep > 1 ==> r == f.(currentStep := f.currentStep - 1)
    ensures f.currentStep <= 1 ==> r == f
  {
    if f.currentStep > 1 then f.(currentStep := f.currentStep - 1) else f
  }

  /** Going forward and then back returns to the same step, except from the last one. */
  lemma BackUndoesNext(f: Flow)
    requires 1 <= f.currentStep < TotalSteps
    ensures Back(Next(f)) == f
  {
  }

  /** The skip link (lines 63-65, 87, 109, 162): on the welcome step it leaves the flow for
      `redirectTo`; on steps 2 and 3 it is handleNext; the last step has none. */
  function Skip(f: Flow, redirectTo: string): (r: Flow)
    ensures f.currentStep == 1 ==> r == f.(pushed := f.pushed + [redirectTo])
    ensures f.currentStep == 2 || f.currentStep == 3 ==> r == Next(f)
    ensures !(1 <= f.currentStep <= 3) ==> r == f
  {
    if f.currentStep == 1 then f.(pushed := f.pushed + [redirectTo])
    else if f.currentStep == 2 || f.currentStep == 3 then Next(f)
    else f
  }

  /** Which fields have an input on which step (lines 117-150, 170-185). */
  predicate FieldShown(step: int, field: Field) {
    if field == UseCase then step == 3 else step == 2
  }

  function WithField(d: FormData, field: Field, value: string): (r: FormData)
    ensures field == FullName ==> r == d.(fullName := value)
    ensures field == Company ==> r == d.(company := value)
    ensures field == Role ==> r == d.(role := value)
    ensures field == UseCase ==> r == d.(useCase := value)
  {
    match field
    case FullName => d.(fullName := value)
    case Company => d.(company := value)
    case Role => d.(role := value)
    case UseCase => d.(useCase := value)
  }

  /** `setFormData({ ...formData, field: value })` from an input on the current step
      (lines 123, 132, 141, 176). */
  function Edited(f: Flow, field: Field, value: string): (r: Flow)
    ensures r.(formData := f.formData) == f
  {
    if FieldShown(f.currentStep, field) then f.(formData := WithField(f.formData, field, value)) else f
  }

  /** An edit changes that one field and leaves the other three as they were. */
  lemma EditChangesOnlyField(f: Flow, field: Field, other: Field, value: string)
    requires FieldShown(f.currentStep, field) && other != field
    ensures Get(Edited(f, field, value).formData, field) == value
    ensures Get(Edited(f, field, value).formData, other) == Get(f.formData, other)
  {
  }

  function Get(d: FormData, field: Field): string {
    match field
    case FullName => d.fullName
    case Company => d.company
    case Role => d.role
    case UseCase => d.useCase
  }

  /** handleComplete up to its wait (lines 45-52): the last step's button starts loading. */
  function CompleteStarted(f: Flow): (r: Flow)
    ensures f.currentStep == TotalSteps && !f.isLoading ==> r == f.(isLoading := true)
    ensures !(f.currentStep == TotalSteps && !f.isLoading) ==> r == f
  {
    if f.currentStep == TotalSteps && !f.isLoading then f.(isLoading := true) else f
  }

  /** handleComplete after its wait (lines 54-60): `onComplete`, then the redirect, then loading ends. */
  function CompleteFinished(f: Flow, redirectTo: string): (r: Flow)
    ensures r.pushed == f.pushed + [redirectTo] && r.completions == f.completions + 1 && !r.isLoading
    ensures r.currentStep == f.currentStep && r.formData == f.formData
  {
    f.(completions := f.completions + 1, pushed := f.pushed + [redirectTo], isLoading := false)
  }

  /** The user's actions on the step buttons and inputs. */
  datatype Action = NextClick | BackClick | SkipClick | Edit(field: Field, value: string)

  /** While the last step is loading its buttons are disabled. */
  function Act(f: Flow, a: Action, redirectTo: string): (r: Flow)
    ensures f.isLoading ==> r == f
    ensures 1 <= f.currentStep <= TotalSteps ==> 1 <= r.currentStep <= TotalSteps
    ensures r.completions == f.completions
  {
    if f.isLoading then f
    else
      match a
      case NextClick => if f.currentStep == TotalSteps then CompleteStarted(f) else Next(f)
      case BackClick => if f.currentStep == 1 then f else Back(f)
      case SkipClick => Skip(f, redirectTo)
      case Edit(field, value) => Edited(f, field, value)
  }

  function Run(f: Flow, actions: seq<Action>, redirectTo: string): Flow
    decreases |actions|
  {
    if |actions| == 0 then f else Run(Act(f, actions[0], redirectTo), actions[1..], redirectTo)
  }

  /** The step stays between 1 and 4 whatever the user clicks. */
  lemma {:induction false} StepStaysInRange(f: Flow, actions: seq<Action>, redirectTo: string)
    requires 1 <= f.currentStep <= TotalSteps
    ensures 1 <= Run(f, actions, redirectTo).currentStep <= TotalSteps
    decreases |actions|
  {
    if |actions| > 0 {
      var g := Act(f, actions[0], redirectTo);
      assert 1 <= g.currentStep <= TotalSteps;
      StepStaysInRange(g, actions[1..], redirectTo);
    }
  }

  /** Clicks alone never call `onComplete`: it needs the wait of handleComplete to end. */
  lemma {:induction false} ClicksDoNotComplete(f: Flow, actions: seq<Action>, redirectTo: string)
    ensures Run(f, actions, redirectTo).completions == f.completions
    decreases |actions|
  {
    if |actions| > 0 {
      ClicksDoNotComplete(Act(f, actions[0], redirectTo), actions[1..], redirectTo);
    }
  }

  /** The form component; `redirectTo` is its prop. */
  class OnboardingForm {
    var currentStep: int
    var isLoading: bool
    var formData: FormData
    var pushed: seq<string>
    var completions: nat
    const redirectTo: string

    constructor (redirectTo: Option<string>)
      ensures State() == Start && this.redirectTo == redirectTo.GetOr(DefaultRedirect)
    {
      currentStep := 1;
      isLoading := false;
      formData := FormData("", "", "", "");
      pushed := [];
      completions := 0;
      this.redirectTo := redirectTo.GetOr(DefaultRedirect);
    }

    function State(): Flow
      reads this
    {
      Flow(currentStep, isLoading, formData, pushed, completions)
    }

    method HandleNext()
      modifies this
      ensures State() == Next(old(State()))
    {
      if currentStep < TotalSteps {
        currentStep := currentStep + 1;
      }
    }

    method HandleBack()
      modifies this
      ensures State() == Back(old(State()))
    {
      if currentStep > 1 {
        currentStep := currentStep - 1;
      }
    }

    method HandleSkip()
      modifies this
      ensures State() == Skip(old(State()), redirectTo)
    {
      if currentStep == 1 {
        pushed := pushed + [redirectTo];
      } else if currentStep == 2 || currentStep == 3 {
        HandleNext();
      }
    }

    method HandleEdit(field: Field, value: string)
      modifies this
      ensures State() == Edited(old(State()), field, value)
    {
      if FieldShown(currentStep, field) {
        formData := WithField(formData, field, value);
      }
    }

    method StartComplete()
      modifies this
      ensures State() == CompleteStarted(old(State()))
    {
      if currentStep == TotalSteps && !isLoading {
        isLoading := true;
      }
    }

    method FinishComplete()
      modifies this
      ensures State() == CompleteFinished(old(State()), redirectTo)
    {
      completions := completions + 1;
      pushed := pushed + [redirectTo];
      isLoading := false;
    }
  }
}
