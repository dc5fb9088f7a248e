/**
 * The sign-in form of src/app/signin/page.tsx: the schema check made before
 * submission, the match against the two demo credential pairs, the three
 * session writes and the redirect by role.
 */
module SignInPage {
  import opened Wrappers
  import opened Storage
  import opened SessionGate
  import opened Forms

  const DemoUserEmail := "user@example.com"
  const DemoUserPassword := "password"
  const DemoAdminEmail := "admin@example.com"
  const DemoAdminPassword := "admin123"

  const UserRole := "user"

  const InvalidCredentialsMessage := "Invalid email or password. Try the demo credentials below."

  /** The schema's field errors, email first; submission happens only when there are none. */
  function ValidateSignIn(password: string, emailWellFormed: bool): (errors: seq<FieldError>)
    ensures errors == [] <==> emailWellFormed && Utf16Length(password) >= MinPasswordLength
    ensures FieldError("email", InvalidEmailMessage) in errors <==> !emailWellFormed
    ensures FieldError("password", ShortPasswordMessage) in errors <==> Utf16Length(password) < MinPasswordLength
  {
    EmailErrors(emailWellFormed) + PasswordErrors(password)
  }

  /** The role a credential pair signs in as, or `None` for every other pair. */
  function Credentials(email: string, password: string): (role: Option<string>)
    ensures role == Some(UserRole) <==> email == DemoUserEmail && password == DemoUserPassword
    ensures role == Some(AdminRole) <==> email == DemoAdminEmail && password == DemoAdminPassword
    ensures role.Some? ==> role.value == UserRole || role.value == AdminRole
  {
    if email == DemoUserEmail && password == DemoUserPassword then Some(UserRole)
    else if email == DemoAdminEmail && password == DemoAdminPassword then Some(AdminRole)
    else None
  }

  /** The store after the three `setItem` calls of a successful sign-in. */
  function SessionAfterSignIn(items: map<string, string>, email: string, role: string): (after: map<string, string>)
    ensures after.Keys == items.Keys + SessionKeys
    ensures after[IsAuthenticatedKey] == "true"
    ensures after[UserEmailKey] == email && after[UserTypeKey] == role
    ensures forall k :: k in items && k !in SessionKeys ==> after[k] == items[k]
  {
    items[IsAuthenticatedKey := "true"][UserEmailKey := email][UserTypeKey := role]
  }

  /** Where a successful sign-in navigates to. */
  function LandingRoute(role: string): (route: string)
    ensures route == AdminRoute <==> role == AdminRole
    ensures route != AdminRoute ==> route == DashboardRoute
  {
    if role == AdminRole then AdminRoute else DashboardRoute
  }

  /** What one submission leaves behind: the store, the navigation, the error banner. */
  datatype Attempt = Attempt(items: map<string, string>, nav: Option<string>, error: string)

  /** The outcome of `onSubmit` on a store, for one submitted pair. */
  function SignInAttempt(items: map<string, string>, email: string, password: string): (a: Attempt)
    ensures Credentials(email, password).None? <==> a.nav == None
    ensures Credentials(email, password).None? ==>
      a.items == items && a.error == InvalidCredentialsMessage
    ensures Credentials(email, password).Some? ==>
      var role := Credentials(email, password).value;
      && a.items == SessionAfterSignIn(items, email, role)
      && a.nav == Some(LandingRoute(role))
      && a.error == ""
  {
    match Credentials(email, password)
    case Some(role) => Attempt(SessionAfterSignIn(items, email, role), Some(LandingRoute(role)), "")
    case None => Attempt(items, None, InvalidCredentialsMessage)
  }

  class SignInForm {
    var isLoading: bool
    var error: string

    constructor ()
      ensures !isLoading && error == ""
    {
      isLoading := false;
      error := "";
    }

    /** The submit button: disabled exactly while loading, when it reads "Signing in...". */
    function Button(): (b: SubmitButton)
      reads this
      ensures b.disabled <==> isLoading
      ensures b.caption == "Signing in..." <==> isLoading
      ensures !b.disabled <==> b.caption == "Sign in"
    {
      SubmitButton(isLoading, if isLoading then "Signing in..." else "Sign in")
    }

    /** `onSubmit`, taken as one step: the awaited delay is left out. */
    method OnSubmit(store: Store, email: string, password: string) returns (nav: Option<string>)
      modifies this, store
      ensures Attempt(store.items, nav, error) == SignInAttempt(old(store.items), email, password)
      ensures !isLoading
    {
      isLoading := true;
      error := "";
      var userType := "";
      var isValidUser := false;
      if email == DemoUserEmail && password == DemoUserPassword {
        userType := UserRole;
        isValidUser := true;
      } else if email == DemoAdminEmail && password == DemoAdminPassword {
        userType := AdminRole;
        isValidUser := true;
      }
      if isValidUser {
        store.SetItem(IsAuthenticatedKey, "true");
        store.SetItem(UserEmailKey, email);
        store.SetItem(UserTypeKey, userType);
        if userType == AdminRole {
          nav := Some(AdminRoute);
        } else {
          nav := Some(DashboardRoute);
        }
      } else {
        error := InvalidCredentialsMessage;
        nav := None;
      }
      isLoading := false;
    }

    /** `handleSubmit(onSubmit)`: the schema runs first and blocks `onSubmit` on any error. */
    method Submit(store: Store, email: string, password: string, emailWellFormed: bool)
      returns (errors: seq<FieldError>, nav: Option<string>)
      modifies this, store
      ensures errors == ValidateSignIn(password, emailWellFormed)
      ensures errors != [] ==>
        && nav == None && store.items == old(store.items)
        && isLoading == old(isLoading) && error == old(error)
      ensures errors == [] ==>
        Attempt(store.items, nav, error) == SignInAttempt(old(store.items), email, password) && !isLoading
    {
      errors := ValidateSignIn(password, emailWellFormed);
      if errors != [] {
        nav := None;
        return;
      }
      nav := OnSubmit(store, email, password);
    }
  }

  /** Both demo passwords pass the schema's length rule, so the rule never blocks a valid pair. */
  lemma ValidPairsPassPasswordRule(email: string, password: string)
    requires Credentials(email, password).Some?
    ensures PasswordErrors(password) == []
  {
  }

  /** Signing in twice with the same pair leaves the store that signing in once leaves. */
  lemma SignInIdempotent(items: map<string, string>, email: string, password: string)
    ensures var once := SignInAttempt(items, email, password);
      SignInAttempt(once.items, email, password) == once
  {
    match Credentials(email, password)
    case None =>
    case Some(role) =>
      var once := SessionAfterSignIn(items, email, role);
      assert SessionAfterSignIn(once, email, role) == once;
  }
}
