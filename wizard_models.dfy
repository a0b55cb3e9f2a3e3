/**
 * The backend's description of the onboarding wizard (`backend/wizard_models.py`):
 * the four forms in order, the wizard's step state with its gating queries,
 * and the field validators the forms run after their declared constraints.
 *
 * Python's `len` counts code points, which is Dafny's `|s|`; `str.strip` is
 * `Text.PyStrip`. A validator that raises `ValueError` is a `Failure` carrying
 * the message.
 */
module WizardModels {
  import opened Wrappers
  import opened Text
  import StepGating

  datatype Form = WelcomeForm | CompanyForm | PersonalizationForm | SummaryForm

  /** `forms`, in order. */
  const Forms: seq<Form> := [WelcomeForm, CompanyForm, PersonalizationForm, SummaryForm]

  /** The step each form belongs to, as its docstring numbers it. */
  function StepOf(f: Form): (step: int)
    ensures 1 <= step <= 4
  {
    match f
    case WelcomeForm => 1
    case CompanyForm => 2
    case PersonalizationForm => 3
    case SummaryForm => 4
  }

  /** The forms are listed in step order, each once. */
  lemma FormsInStepOrder()
    ensures |Forms| == 4
    ensures forall i :: 0 <= i < |Forms| ==> StepOf(Forms[i]) == i + 1
  {
  }

  class OnboardingWizard {
    var currentStep: int
    var completedSteps: set<int>
    var isCompleted: bool

    /** `current_step: int = Field(default=1, ge=1, le=4)`. */
    ghost predicate Valid()
      reads this
    {
      1 <= currentStep <= 4
    }

    /** A validated wizard: the step is one of the four, nothing completed yet. */
    constructor(currentStep: int)
      requires 1 <= currentStep <= 4
      ensures Valid()
      ensures this.currentStep == currentStep && completedSteps == {} && !isCompleted
    {
      this.currentStep := currentStep;
      completedSteps := {};
      isCompleted := false;
    }

    /** `get_current_form`: `forms[current_step - 1]`, the form whose step is the current one. */
    function GetCurrentForm(): (f: Form)
      reads this
      requires Valid()
      ensures StepOf(f) == currentStep
    {
      Forms[currentStep - 1]
    }

    /** `is_step_accessible`: the same rule the stores use. */
    function IsStepAccessible(step: int): (r: bool)
      reads this
      ensures step == 1 ==> r
      ensures step != 1 ==> (r <==> step - 1 in completedSteps)
      ensures r == StepGating.IsStepAccessible(completedSteps, step)
    {
      if step == 1 then true else step - 1 in completedSteps
    }

    method MarkStepCompleted(step: int)
      modifies this`completedSteps
      ensures completedSteps == old(completedSteps) + {step}
    {
      completedSteps := completedSteps + {step};
    }

    /** `can_proceed`: the current step is completed, which is exactly what makes the next step accessible. */
    function CanProceed(): (r: bool)
      reads this
      requires Valid()
      ensures r <==> currentStep in completedSteps
      ensures r <==> IsStepAccessible(currentStep + 1)
    {
      currentStep in completedSteps
    }
  }

  /** Marking a step twice is marking it once; completing the current step lets the wizard proceed. */
  method MarkThenProceed(step: int) returns (once: set<int>, twice: set<int>, proceed: bool)
    requires 1 <= step <= 4
    ensures once == twice == {step}
    ensures proceed
  {
    var w := new OnboardingWizard(step);
    w.MarkStepCompleted(step);
    once := w.completedSteps;
    w.MarkStepCompleted(step);
    twice := w.completedSteps;
    proceed := w.CanProceed();
  }

  // ------------------------------------------------------------ validators

  /** Strip, then refuse an empty result with `message`. */
  function StripRequired(v: string, message: string): (r: Result<string, string>)
    ensures r.Failure? <==> forall i :: 0 <= i < |v| ==> IsPyWhitespace(v[i])
    ensures r.Failure? ==> r.error == message
    ensures r.Success? ==> r.value == PyStrip(v) && r.value != []
    ensures r.Success? ==> !IsPyWhitespace(r.value[0]) && !IsPyWhitespace(r.value[|r.value| - 1])
  {
    var s := PyStrip(v);
    if s == [] then Failure(message) else Success(s)
  }

  /** `validate_full_name` */
  function ValidateFullName(v: string): (r: Result<string, string>)
    ensures r.Failure? <==> forall i :: 0 <= i < |v| ==> IsPyWhitespace(v[i])
    ensures r.Failure? ==> r.error == "Full name is required"
    ensures r.Success? ==> r.value == PyStrip(v) && r.value != []
  {
    StripRequired(v, "Full name is required")
  }

  /** `validate_text_fields`, run on `company_name` and on `goals` */
  function ValidateTextFields(v: string): (r: Result<string, string>)
    ensures r.Failure? <==> forall i :: 0 <= i < |v| ==> IsPyWhitespace(v[i])
    ensures r.Failure? ==> r.error == "This field is required"
    ensures r.Success? ==> r.value == PyStrip(v) && r.value != []
  {
    StripRequired(v, "This field is required")
  }

  /** A value the stripping validators return passes them again unchanged. */
  lemma StripRequiredIdempotent(v: string, message: string)
    requires StripRequired(v, message).Success?
    ensures StripRequired(StripRequired(v, message).value, message) == StripRequired(v, message)
  {
    TrimIdempotent(v, IsPyWhitespace);
  }

  /** `validate_password`: only the empty password is refused, and nothing is stripped. */
  function ValidatePassword(v: string): (r: Result<string, string>)
    ensures r.Success? <==> |v| > 0
    ensures r.Success? ==> r.value == v
    ensures r.Failure? ==> r.error == "Password is required"
  {
    if v == "" then Failure("Password is required") else Success(v)
  }

  /** `validate_color`: non-empty, starts with '#', seven characters. */
  function ValidateColor(v: string): (r: Result<string, string>)
    ensures r.Success? <==> |v| == 7 && v[0] == '#'
    ensures r.Success? ==> r.value == v
    ensures v == "" ==> r == Failure("Please select a favorite color")
    ensures v != "" && r.Failure? ==> r.error == "Color must be in hex format (#RRGGBB)"
  {
    if v == "" then Failure("Please select a favorite color")
    else if !StartsWith(v, "#") || |v| != 7 then Failure("Color must be in hex format (#RRGGBB)")
    else Success(v)
  }

  /** Every hex colour passes the explicit check. */
  lemma HexColorPassesValidateColor(v: string)
    requires IsHexColor(v)
    ensures ValidateColor(v) == Success(v)
  {
  }

  /** The explicit check is weaker than the pattern: a '#' and six non-hex characters pass it. */
  lemma ValidateColorAdmitsNonHex()
    ensures ValidateColor("#zzzzzz").Success? && !IsHexColor("#zzzzzz")
  {
    assert !IsHexDigit("#zzzzzz"[1]);
  }
}
