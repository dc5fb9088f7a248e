/**
 * The sign-up form of src/app/signup/page.tsx: the schema's field rules, the
 * `isLoading`/`success` flags set by a submission, the redirect it schedules,
 * and the submit button those flags drive. No session key is read or written.
 */
module SignUpPage {
  import opened Wrappers
  import opened SessionGate
  import opened Forms

  const FirstNameRequiredMessage := "First name is required"
  const LastNameRequiredMessage := "Last name is required"

  /** The schema's field errors in field order; submission happens only when there are none. */
  function ValidateSignUp(firstName: string, lastName: string, password: string, emailWellFormed: bool)
    : (errors: seq<FieldError>)
    ensures errors == [] <==>
      firstName != "" && lastName != "" && emailWellFormed && Utf16Length(password) >= MinPasswordLength
    ensures FieldError("firstName", FirstNameRequiredMessage) in errors <==> firstName == ""
    ensures FieldError("lastName", LastNameRequiredMessage) in errors <==> lastName == ""
    ensures FieldError("email", InvalidEmailMessage) in errors <==> !emailWellFormed
    ensures FieldError("password", ShortPasswordMessage) in errors <==> Utf16Length(password) < MinPasswordLength
  {
    (if firstName == "" then [FieldError("firstName", FirstNameRequiredMessage)] else [])
    + (if lastName == "" then [FieldError("lastName", LastNameRequiredMessage)] else [])
    + EmailErrors(emailWellFormed)
    + PasswordErrors(password)
  }

  const CreatingCaption := "Creating account..."
  const CreatedCaption := "Account created!"
  const IdleCaption := "Create account"

  /** `disabled={isLoading || success}` and the caption chosen by the two flags. */
  function SignUpButton(isLoading: bool, success: bool): (b: SubmitButton)
  {
    SubmitButton(isLoading || success,
                 if isLoading then CreatingCaption else if success then CreatedCaption else IdleCaption)
  }

  class SignUpForm {
    var isLoading: bool
    var success: bool
    /** The navigation the `setTimeout` callback will perform, if one is scheduled. */
    var pendingRedirect: Option<string>

    constructor ()
      ensures !isLoading && !success && pendingRedirect == None
    {
      isLoading := false;
      success := false;
      pendingRedirect := None;
    }

    /** `onSubmit`, taken as one step: the awaited delay is left out, the timer is recorded. */
    method OnSubmit()
      modifies this
      ensures success && !isLoading && pendingRedirect == Some(SignInRoute)
    {
      isLoading := true;
      success := true;
      pendingRedirect := Some(SignInRoute);
      isLoading := false;
    }

    /** `handleSubmit(onSubmit)`: any schema error blocks `onSubmit`, and nothing changes. */
    method Submit(firstName: string, lastName: string, password: string, emailWellFormed: bool)
      returns (errors: seq<FieldError>)
      modifies this
      ensures errors == ValidateSignUp(firstName, lastName, password, emailWellFormed)
      ensures errors != [] ==>
        isLoading == old(isLoading) && success == old(success) && pendingRedirect == old(pendingRedirect)
      ensures errors == [] ==> success && !isLoading && pendingRedirect == Some(SignInRoute)
    {
      errors := ValidateSignUp(firstName, lastName, password, emailWellFormed);
      if errors == [] {
        OnSubmit();
      }
    }

    /** The scheduled callback firing: it performs the recorded navigation. */
    method RedirectTimerFires() returns (nav: Option<string>)
      modifies this
      ensures nav == old(pendingRedirect) && pendingRedirect == None
      ensures isLoading == old(isLoading) && success == old(success)
    {
      nav := pendingRedirect;
      pendingRedirect := None;
    }
  }

  /**
   * The button is enabled exactly when it offers "Create account", and it reads
   * "Account created!" only once the account exists and nothing is loading.
   */
  lemma ButtonCaptionTracksState(isLoading: bool, success: bool)
    ensures var b := SignUpButton(isLoading, success);
      && (b.disabled <==> isLoading || success)
      && (!b.disabled <==> b.caption == IdleCaption)
      && (b.caption == CreatedCaption <==> success && !isLoading)
      && (b.caption == CreatingCaption <==> isLoading)
  {
  }
}
