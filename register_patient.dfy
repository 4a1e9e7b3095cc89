/**
 * The patient registration wizard (src/pages/RegisterPatientPage.tsx): the
 * field validators, the step counter over the four steps, and the submit
 * handler that registers the patient.
 *
 * `handleSubmit` is asynchronous: `BeginSubmit` is its part up to the awaited
 * `registerPatient` call, `FinishSubmit` its continuation once that call
 * settles. The continuation sees the step the handler was started on (the
 * value its closure captured), which the wizard keeps in `submittedStep`.
 */
module RegisterPatient {
  import opened Common
  import opened Validation

  /** Index of the last of the four steps (NFC card setup). */
  const LastStep: int := 3
  const RegisterFailedMessage: string := "Failed to register. Please try again."

  /** The wizard's form fields. */
  datatype Form = Form(
    firstName: string, lastName: string, dateOfBirth: string,
    email: string, phone: string, address: string,
    password: string, confirmPassword: string)

  const EmptyForm: Form := Form("", "", "", "", "", "", "", "")

  /** What `handleSubmit` passes to `registerPatient`. */
  datatype RegisterRequest = RegisterRequest(email: string, password: string, name: string)

  /** Step 0: all three personal fields filled in. */
  function IsPersonalInfoValid(f: Form): (ok: bool)
    ensures ok <==> f.firstName != [] && f.lastName != [] && f.dateOfBirth != []
  {
    JsLength(f.firstName) > 0 && JsLength(f.lastName) > 0 && JsLength(f.dateOfBirth) > 0
  }

  /** Step 1: an email the pattern accepts and a phone number longer than
      nine (UTF-16) units. */
  function IsContactValid(f: Form): (ok: bool)
    ensures ok <==> MatchesEmailPattern(f.email) && JsLength(f.phone) > 9
    ensures ok ==> |f.phone| >= 5
  {
    EmailValidIffPattern(f.email);
    IsEmailValid(f.email) && JsLength(f.phone) > 9
  }

  /** Step 2: a password of at least six units, repeated identically. */
  function IsPasswordValid(f: Form): (ok: bool)
    ensures ok ==> f.password == f.confirmPassword && |f.password| >= 3
    ensures f.password != f.confirmPassword ==> !ok
    ensures |f.password| >= 6 && f.password == f.confirmPassword ==> ok
  {
    JsLength(f.password) >= 6 && f.password == f.confirmPassword
  }

  /** Whether the current step lets the wizard go on: the step's validator
      for the first three steps, always for the optional NFC step, never
      for a step outside the wizard. */
  function IsStepValid(step: int, f: Form): (ok: bool)
    ensures ok ==> 0 <= step <= LastStep
    ensures step == LastStep ==> ok
    ensures step == 0 ==> (ok <==> f.firstName != [] && f.lastName != [] && f.dateOfBirth != [])
    ensures step == 1 ==> (ok <==> MatchesEmailPattern(f.email) && JsLength(f.phone) > 9)
    ensures step == 2 ==> (ok <==> IsPasswordValid(f))
  {
    match step
    case 0 => IsPersonalInfoValid(f)
    case 1 => IsContactValid(f)
    case 2 => IsPasswordValid(f)
    case 3 => true
    case _ => false
  }

  class Wizard {
    var form: Form
    var currentStep: int
    var isRegistering: bool
    var error: Option<string>
    var registrationComplete: bool
    var patientId: Option<string>
    var submittedStep: int          // the step a pending submit was started on

    /** The step counter never leaves the four steps. */
    ghost predicate Valid()
      reads this
    {
      0 <= currentStep <= LastStep && 0 <= submittedStep <= LastStep
    }

    constructor ()
      ensures Valid()
      ensures form == EmptyForm && currentStep == 0 && !isRegistering && error.None?
      ensures !registrationComplete && patientId.None?
    {
      form := EmptyForm;
      currentStep := 0;
      isRegistering := false;
      error := None;
      registrationComplete := false;
      patientId := None;
      submittedStep := 0;
    }

    /** The inputs' change handlers. */
    method Edit(f: Form)
      modifies this`form
      ensures form == f
    {
      form := f;
    }

    /** `handleNext`: one step forward, except on the last step. */
    method HandleNext()
      requires Valid()
      modifies this`currentStep
      ensures Valid()
      ensures currentStep == if old(currentStep) < LastStep then old(currentStep) + 1 else old(currentStep)
    {
      if currentStep < LastStep {
        currentStep := currentStep + 1;
      }
    }

    /** `handleBack`: one step back, except on the first step. */
    method HandleBack()
      requires Valid()
      modifies this`currentStep
      ensures Valid()
      ensures currentStep == if old(currentStep) > 0 then old(currentStep) - 1 else old(currentStep)
    {
      if currentStep > 0 {
        currentStep := currentStep - 1;
      }
    }

    /** `handleSubmit` up to the awaited registration. With an invalid
        password nothing happens; otherwise the wizard is registering and the
        request carries the full name "first last". The submit buttons are
        disabled while a registration is in progress. */
    method BeginSubmit() returns (request: Option<RegisterRequest>)
      requires Valid() && !isRegistering
      modifies this`isRegistering, this`error, this`submittedStep
      ensures Valid()
      ensures !IsPasswordValid(form) ==>
                request.None? && !isRegistering && error == old(error) && submittedStep == old(submittedStep)
      ensures IsPasswordValid(form) ==>
                request == Some(RegisterRequest(form.email, form.password, form.firstName + " " + form.lastName)) &&
                isRegistering && error.None? && submittedStep == currentStep
    {
      if !IsPasswordValid(form) {
        return None;
      }
      isRegistering := true;
      error := None;
      submittedStep := currentStep;
      var fullName := form.firstName + " " + form.lastName;
      request := Some(RegisterRequest(form.email, form.password, fullName));
    }

    /** The continuation of `handleSubmit` once `registerPatient` settles. */
    method FinishSubmit(outcome: Attempt<string>)
      requires Valid() && isRegistering
      modifies this`isRegistering, this`error, this`patientId, this`registrationComplete, this`currentStep
      ensures Valid()
      ensures !isRegistering
      ensures outcome.Resolved? ==>
                && patientId == Some(outcome.value) && error == old(error)
                && (old(submittedStep) == LastStep ==>
                      registrationComplete && currentStep == old(currentStep))
                && (old(submittedStep) < LastStep ==>
                      registrationComplete == old(registrationComplete) && currentStep == old(submittedStep) + 1)
      ensures outcome.Rejected? ==>
                error == Some(MessageOr(outcome.reason, RegisterFailedMessage)) &&
                patientId == old(patientId) && registrationComplete == old(registrationComplete) &&
                currentStep == old(currentStep)
    {
      if outcome.Resolved? {
        patientId := Some(outcome.value);
        if submittedStep == LastStep {
          registrationComplete := true;
        } else {
          currentStep := submittedStep + 1;
        }
      } else {
        error := Some(MessageOr(outcome.reason, RegisterFailedMessage));
      }
      isRegistering := false;
    }
  }
}
