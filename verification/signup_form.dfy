/** The three-step sign-up form: the field map edited by the inputs, the
    per-step validation that gates "next", the step counter kept within 1..3,
    and the order of the checks on submit. */
module Signup {
  import opened Common

  const TotalSteps := 3

  /** A form value: the text of an input or select, or a checkbox state. */
  datatype FieldValue = Text(text: string) | Flag(checked: bool)

  type FormData = map<string, FieldValue>

  const InitialFormData: FormData := map[
    "email" := Text(""), "password" := Text(""), "confirmPassword" := Text(""),
    "fullName" := Text(""), "phone" := Text(""), "company" := Text(""),
    "address" := Text(""), "city" := Text(""), "state" := Text(""),
    "zipCode" := Text(""), "country" := Text(""), "businessType" := Text(""),
    "agreeToTerms" := Flag(false)]

  /** `formData[name]`, `None` when the field is undefined. */
  function Get(data: FormData, name: string): Option<FieldValue>
  {
    if name in data then Some(data[name]) else None
  }

  /** JavaScript truthiness of `formData[name]`. */
  predicate Truthy(data: FormData, name: string)
  {
    name in data && match data[name]
      case Text(t) => t != ""
      case Flag(b) => b
  }

  /** The fields each step requires. */
  function RequiredFields(step: int): seq<string>
  {
    if step == 1 then ["email", "password", "confirmPassword", "fullName"]
    else if step == 2 then ["phone", "company", "businessType"]
    else if step == 3 then ["address", "city", "state", "zipCode", "country", "agreeToTerms"]
    else []
  }

  /** `validateStep(step)`: a step passes when each of its fields is truthy;
      any other step number fails. */
  function ValidateStep(data: FormData, step: int): (ok: bool)
    ensures ok <==> 1 <= step <= TotalSteps && forall f :: f in RequiredFields(step) ==> Truthy(data, f)
  {
    match step
    case 1 => Truthy(data, "email") && Truthy(data, "password") && Truthy(data, "confirmPassword")
              && Truthy(data, "fullName")
    case 2 => Truthy(data, "phone") && Truthy(data, "company") && Truthy(data, "businessType")
    case 3 => Truthy(data, "address") && Truthy(data, "city") && Truthy(data, "state")
              && Truthy(data, "zipCode") && Truthy(data, "country") && Truthy(data, "agreeToTerms")
    case _ => false
  }

  /** The step after `nextStep`: one further, at most the last, when the
      current step validates; otherwise the same step. */
  function StepAfterNext(data: FormData, step: int): (next: int)
    ensures ValidateStep(data, step) ==> next == if step < TotalSteps then step + 1 else TotalSteps
    ensures !ValidateStep(data, step) ==> next == step
  {
    if ValidateStep(data, step) then (if step + 1 < TotalSteps then step + 1 else TotalSteps) else step
  }

  /** Starting from step 1, two presses of "next" reach the last step exactly
      when steps 1 and 2 both validate. */
  lemma LastStepNeedsFirstTwo(data: FormData)
    ensures StepAfterNext(data, StepAfterNext(data, 1)) == TotalSteps
      <==> ValidateStep(data, 1) && ValidateStep(data, 2)
  {
    if !ValidateStep(data, 1) {
      assert StepAfterNext(data, 1) == 1;
    }
  }

  const PasswordMismatch := "Passwords do not match"
  const TermsRequired := "Please agree to the terms and conditions"
  const NotConfigured := "Supabase not configured. Please set up your environment variables."
  const Unexpected := "An unexpected error occurred"

  /** The checks `handleSubmit` makes before calling the auth service:
      password equality first, then the terms box. */
  function SubmitCheck(data: FormData): (err: Option<string>)
    ensures err == Some(PasswordMismatch) <==> Get(data, "password") != Get(data, "confirmPassword")
    ensures err == Some(TermsRequired)
      <==> Get(data, "password") == Get(data, "confirmPassword") && !Truthy(data, "agreeToTerms")
    ensures err.None? <==> Get(data, "password") == Get(data, "confirmPassword") && Truthy(data, "agreeToTerms")
  {
    if Get(data, "password") != Get(data, "confirmPassword") then Some(PasswordMismatch)
    else if !Truthy(data, "agreeToTerms") then Some(TermsRequired)
    else None
  }

  /** Submitting looks only at the two password fields and the terms box:
      changing any other field, such as an emptied email, never changes
      whether the sign-up call is made. */
  lemma SubmitIgnoresOtherFields(data: FormData, name: string, v: FieldValue)
    requires name != "password" && name != "confirmPassword" && name != "agreeToTerms"
    ensures SubmitCheck(data[name := v]) == SubmitCheck(data)
  {
    assert Get(data[name := v], "password") == Get(data, "password");
    assert Get(data[name := v], "confirmPassword") == Get(data, "confirmPassword");
    assert Truthy(data[name := v], "agreeToTerms") == Truthy(data, "agreeToTerms");
  }

  /** What `supabase.auth.signUp` does: an error response, a response with or
      without a user, or an exception. */
  datatype SignUpOutcome = AuthError(message: string) | SignedUp(userReturned: bool) | Threw

  class SignupForm {
    var formData: FormData
    var loading: bool
    var error: string
    var currentStep: int

    ghost predicate Valid()
      reads this
    {
      1 <= currentStep <= TotalSteps
    }

    constructor ()
      ensures Valid()
      ensures formData == InitialFormData && !loading && error == "" && currentStep == 1
    {
      formData := InitialFormData;
      loading := false;
      error := "";
      currentStep := 1;
    }

    /** `handleInputChange`: sets the named field to the checkbox state or
        to the typed text. */
    method HandleInputChange(name: string, value: string, isCheckbox: bool, checked: bool)
      modifies this
      ensures formData == old(formData)[name := if isCheckbox then Flag(checked) else Text(value)]
      ensures loading == old(loading) && error == old(error) && currentStep == old(currentStep)
    {
      formData := formData[name := if isCheckbox then Flag(checked) else Text(value)];
    }

    /** `nextStep`. */
    method NextStep()
      requires Valid()
      modifies this
      ensures Valid()
      ensures currentStep == StepAfterNext(formData, old(currentStep))
      ensures error == if ValidateStep(formData, old(currentStep)) then "" else "Please fill in all required fields"
      ensures formData == old(formData) && loading == old(loading)
    {
      if ValidateStep(formData, currentStep) {
        currentStep := if currentStep + 1 < TotalSteps then currentStep + 1 else TotalSteps;
        error := "";
      } else {
        error := "Please fill in all required fields";
      }
    }

    /** `prevStep`: one step back, never before the first, and the error is cleared. */
    method PrevStep()
      requires Valid()
      modifies this
      ensures Valid()
      ensures currentStep == if old(currentStep) > 1 then old(currentStep) - 1 else 1
      ensures error == ""
      ensures formData == old(formData) && loading == old(loading)
    {
      currentStep := if currentStep - 1 > 1 then currentStep - 1 else 1;
      error := "";
    }

    /** `handleSubmit`. `configured` says whether a database client exists;
        `completed` is true when `onSuccess` is called. A rejected check
        leaves `loading` as it was; every other path ends with it false. */
    method HandleSubmit(configured: bool, outcome: SignUpOutcome) returns (completed: bool)
      modifies this
      ensures formData == old(formData) && currentStep == old(currentStep)
      ensures SubmitCheck(formData).Some? ==>
        error == SubmitCheck(formData).value && loading == old(loading) && !completed
      ensures SubmitCheck(formData).None? ==> !loading
      ensures SubmitCheck(formData).None? && !configured ==> error == NotConfigured && !completed
      ensures SubmitCheck(formData).None? && configured ==>
        && error == (match outcome
                     case AuthError(m) => m
                     case SignedUp(_) => ""
                     case Threw => Unexpected)
        && (completed <==> outcome == SignedUp(true))
    {
      completed := false;
      var check := SubmitCheck(formData);
      if check.Some? {
        error := check.value;
        return;
      }
      loading := true;
      error := "";
      if !configured {
        error := NotConfigured;
        loading := false;
        return;
      }
      match outcome {
        case AuthError(m) =>
          error := m;
        case SignedUp(userReturned) =>
          completed := userReturned;
        case Threw =>
          error := Unexpected;
      }
      loading := false;
    }
  }
}
