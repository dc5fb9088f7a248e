/**
 * Properties that relate several pages: what every gate does with a signed-out
 * store, why `/admin` and `/dashboard` cannot bounce a visitor between them,
 * what each gate decides after a sign-in and after either logout variant, and
 * the two pages that skip the role check.
 */
module SessionProperties {
  import opened Wrappers
  import opened Storage
  import opened SessionGate
  import opened SignInPage
  import opened SignUpPage
  import opened Forms

  /** Every protected page fails closed: a store that is not signed in is sent to sign-in. */
  lemma SignedOutIsSentToSignIn(page: Page, items: map<string, string>)
    requires !SignedIn(items)
    ensures Gate(page, items) == Redirect(SignInRoute)
  {
  }

  /** A signed-in store is never sent to sign-in, by any page. */
  lemma SignedInIsNeverSentToSignIn(page: Page, items: map<string, string>)
    requires SignedIn(items)
    ensures Gate(page, items) != Redirect(SignInRoute)
  {
  }

  /** The four admin-only copies of the gate decide alike on every store. */
  lemma AdminPagesAgree(items: map<string, string>)
    ensures Gate(AdminUsers, items) == Gate(AdminDashboard, items)
    ensures Gate(AdminCourses, items) == Gate(AdminDashboard, items)
    ensures Gate(AdminProgress, items) == Gate(AdminDashboard, items)
  {
  }

  /**
   * For a signed-in store exactly one of the two dashboards grants, and the
   * other one redirects to it, so the two can never send a visitor back and forth.
   */
  lemma NoDashboardLoop(items: map<string, string>)
    requires SignedIn(items)
    ensures Gate(AdminDashboard, items).Granted? != Gate(LearnerDashboard, items).Granted?
    ensures Gate(AdminDashboard, items).Redirect? ==>
      Gate(AdminDashboard, items).target == Route(LearnerDashboard)
    ensures Gate(LearnerDashboard, items).Redirect? ==>
      Gate(LearnerDashboard, items).target == Route(AdminDashboard)
  {
  }

  /**
   * Redirects settle after one hop on an unchanged store: no page redirects to
   * itself, and a redirect that is not to sign-in lands on a dashboard that grants.
   */
  lemma RedirectsSettle(page: Page, items: map<string, string>)
    ensures var d := Gate(page, items);
      d.Redirect? ==> d.target != Route(page)
    ensures var d := Gate(page, items);
      d.Redirect? && d.target != SignInRoute ==>
        || (d.target == Route(AdminDashboard) && Gate(AdminDashboard, items).Granted?)
        || (d.target == Route(LearnerDashboard) && Gate(LearnerDashboard, items).Granted?)
  {
  }

  /** After signing in as the demo learner, admin-only pages redirect and the others grant. */
  lemma SignInAsUserThenGates(items: map<string, string>, page: Page)
    ensures var after := SignInAttempt(items, DemoUserEmail, DemoUserPassword).items;
      Gate(page, after) ==
        if PolicyOf(page) == AdminOnly then Redirect(DashboardRoute) else Granted(DemoUserEmail)
  {
  }

  /** After signing in as the demo admin, the learner dashboard redirects and the others grant. */
  lemma SignInAsAdminThenGates(items: map<string, string>, page: Page)
    ensures var after := SignInAttempt(items, DemoAdminEmail, DemoAdminPassword).items;
      Gate(page, after) ==
        if PolicyOf(page) == AdminsToConsole then Redirect(AdminRoute) else Granted(DemoAdminEmail)
  {
  }

  /** A successful sign-in navigates to a dashboard whose gate grants the submitted email. */
  lemma SignInLandsOnGrantingPage(items: map<string, string>, email: string, password: string)
    requires Credentials(email, password).Some?
    ensures var a := SignInAttempt(items, email, password);
      || (a.nav == Some(Route(AdminDashboard)) && Gate(AdminDashboard, a.items) == Granted(email))
      || (a.nav == Some(Route(LearnerDashboard)) && Gate(LearnerDashboard, a.items) == Granted(email))
  {
  }

  /** The reports and learner-progress gates never look at `userType`. */
  lemma SignedInGatesIgnoreUserType(page: Page, items: map<string, string>, role: string)
    requires PolicyOf(page) == AnySignedIn
    ensures Gate(page, items[UserTypeKey := role]) == Gate(page, items)
    ensures Gate(page, items - {UserTypeKey}) == Gate(page, items)
  {
    assert SignedIn(items[UserTypeKey := role]) == SignedIn(items);
    assert SignedIn(items - {UserTypeKey}) == SignedIn(items);
  }

  /** The role-check gap: a signed-in learner is admitted to admin reports but to no other admin page. */
  lemma ReportsAdmitsLearners(items: map<string, string>)
    requires SignedIn(items) && !IsAdmin(items)
    ensures Gate(AdminReports, items) == Granted(items[UserEmailKey])
    ensures Gate(AdminDashboard, items) == Redirect(DashboardRoute)
  {
  }

  /** Likewise, a signed-in admin is admitted to learner progress but not to the learner dashboard. */
  lemma LearnerProgressAdmitsAdmins(items: map<string, string>)
    requires SignedIn(items) && IsAdmin(items)
    ensures Gate(LearnerProgress, items) == Granted(items[UserEmailKey])
    ensures Gate(LearnerDashboard, items) == Redirect(AdminRoute)
  {
  }

  /** After either logout variant, every gate sends the visitor to sign-in. */
  lemma LogoutClosesEveryGate(items: map<string, string>, from: Page, to: Page)
    ensures Gate(to, items - LogoutKeys(from)) == Redirect(SignInRoute)
  {
    assert !SignedIn(items - LogoutKeys(from));
  }

  /** The two-key logout leaves `userType` (and every other key but the two it removes) as it was. */
  lemma TwoKeyLogoutKeepsUserType(items: map<string, string>, from: Page)
    requires from == AdminReports || from == LearnerProgress
    ensures var after := items - LogoutKeys(from);
      && (UserTypeKey in after <==> UserTypeKey in items)
      && (UserTypeKey in items ==> after[UserTypeKey] == items[UserTypeKey])
      && after.Keys == items.Keys - {IsAuthenticatedKey, UserEmailKey}
  {
  }

  /** Sign in, land on the page the form navigates to, and see its body. */
  method SignInAndLand(store: Store, email: string, password: string) returns (view: View)
    requires Credentials(email, password).Some?
    modifies store
    ensures store.items == SessionAfterSignIn(old(store.items), email, Credentials(email, password).value)
    ensures view == Content(email)
  {
    var form := new SignInForm();
    var nav := form.OnSubmit(store, email, password);
    SignInLandsOnGrantingPage(old(store.items), email, password);
    var landing := if nav == Some(AdminRoute) then AdminDashboard else LearnerDashboard;
    var next;
    next, view := Visit(landing, store);
  }

  /** Log out from one page, then visit any page: the visitor is sent to sign-in and sees the spinner. */
  method LogoutThenVisit(store: Store, from: Page, to: Page) returns (nav: Option<string>, view: View)
    modifies store
    ensures store.items == old(store.items) - LogoutKeys(from)
    ensures nav == Some(SignInRoute) && view == Loading
  {
    var page := new ProtectedPage(from);
    var _ := page.HandleLogout(store);
    LogoutClosesEveryGate(old(store.items), from, to);
    nav, view := Visit(to, store);
  }

  /**
   * A sign-up submission, valid or not, leaves the session store as it was.
   * This holds by framing alone: `SignUpForm` is never given the store, just as
   * src/app/signup/page.tsx never calls `localStorage`.
   */
  method SignUpLeavesSession(store: Store, firstName: string, lastName: string, password: string,
                             emailWellFormed: bool)
    returns (errors: seq<FieldError>)
    ensures store.items == old(store.items)
    ensures errors == ValidateSignUp(firstName, lastName, password, emailWellFormed)
  {
    var form := new SignUpForm();
    errors := form.Submit(firstName, lastName, password, emailWellFormed);
  }
}
