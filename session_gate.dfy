/**
 * The access gate that every protected page runs once when it mounts, the
 * logout handler each of them defines, and the loading-versus-content switch
 * at the top of each page's render.
 *
 * The source has three shapes of gate, copied page by page:
 *  - admin-only (admin dashboard, users, courses, progress): signed-in
 *    visitors whose `userType` is not "admin" are sent to the learner dashboard;
 *  - learner dashboard: signed-in admins are sent to the admin dashboard;
 *  - signed-in only (admin reports, learner progress): `userType` is never read.
 */
module SessionGate {
  import opened Wrappers
  import opened Storage

  const SignInRoute := "/signin"
  const DashboardRoute := "/dashboard"
  const AdminRoute := "/admin"

  const AdminRole := "admin"

  /** What one gate run decides: a navigation, or access for the stored email. */
  datatype Decision = Redirect(target: string) | Granted(email: string)

  /** JavaScript truthiness of a `getItem` result: `null` and "" are falsy. */
  predicate Truthy(v: Option<string>)
  {
    v.Some? && v.value != ""
  }

  /** The store holds `isAuthenticated == "true"` and a non-empty `userEmail`. */
  predicate SignedIn(items: map<string, string>)
  {
    && IsAuthenticatedKey in items && items[IsAuthenticatedKey] == "true"
    && UserEmailKey in items && items[UserEmailKey] != ""
  }

  /** The store holds `userType == "admin"`. */
  predicate IsAdmin(items: map<string, string>)
  {
    UserTypeKey in items && items[UserTypeKey] == AdminRole
  }

  /** The gate of src/app/admin/page.tsx, copied verbatim into users, courses and progress. */
  function AdminOnlyGate(items: map<string, string>): (d: Decision)
    ensures !SignedIn(items) ==> d == Redirect(SignInRoute)
    ensures SignedIn(items) && !IsAdmin(items) ==> d == Redirect(DashboardRoute)
    ensures d.Granted? <==> SignedIn(items) && IsAdmin(items)
    ensures d.Granted? ==> d.email == items[UserEmailKey]
  {
    var authStatus := Lookup(items, IsAuthenticatedKey);
    var email := Lookup(items, UserEmailKey);
    var userType := Lookup(items, UserTypeKey);
    if authStatus == Some("true") && Truthy(email) then
      if userType != Some(AdminRole) then Redirect(DashboardRoute)
      else Granted(email.value)
    else
      Redirect(SignInRoute)
  }

  /** The gate of src/app/dashboard/page.tsx. */
  function LearnerDashboardGate(items: map<string, string>): (d: Decision)
    ensures !SignedIn(items) ==> d == Redirect(SignInRoute)
    ensures SignedIn(items) && IsAdmin(items) ==> d == Redirect(AdminRoute)
    ensures d.Granted? <==> SignedIn(items) && !IsAdmin(items)
    ensures d.Granted? ==> d.email == items[UserEmailKey]
  {
    var authStatus := Lookup(items, IsAuthenticatedKey);
    var email := Lookup(items, UserEmailKey);
    var userType := Lookup(items, UserTypeKey);
    if authStatus == Some("true") && Truthy(email) then
      if userType == Some(AdminRole) then Redirect(AdminRoute)
      else Granted(email.value)
    else
      Redirect(SignInRoute)
  }

  /** The gate of src/app/admin/reports/page.tsx and src/app/progress/page.tsx. */
  function SignedInGate(items: map<string, string>): (d: Decision)
    ensures d.Granted? <==> SignedIn(items)
    ensures d.Redirect? ==> d.target == SignInRoute
    ensures d.Granted? ==> d.email == items[UserEmailKey]
  {
    var authStatus := Lookup(items, IsAuthenticatedKey);
    var email := Lookup(items, UserEmailKey);
    if authStatus == Some("true") && Truthy(email) then Granted(email.value)
    else Redirect(SignInRoute)
  }

  /** The protected pages of the application. */
  datatype Page =
    | AdminDashboard | AdminUsers | AdminCourses | AdminProgress | AdminReports
    | LearnerDashboard | LearnerProgress

  /** Which of the three gate shapes a page's code carries. */
  datatype Policy = AdminOnly | AdminsToConsole | AnySignedIn

  function PolicyOf(page: Page): (p: Policy)
    ensures p == AdminOnly <==> page in {AdminDashboard, AdminUsers, AdminCourses, AdminProgress}
    ensures p == AdminsToConsole <==> page == LearnerDashboard
    ensures p == AnySignedIn <==> page in {AdminReports, LearnerProgress}
  {
    match page
    case AdminDashboard | AdminUsers | AdminCourses | AdminProgress => AdminOnly
    case LearnerDashboard => AdminsToConsole
    case AdminReports | LearnerProgress => AnySignedIn
  }

  /** The route each page is served at; no two pages share one. */
  function Route(page: Page): (route: string)
    ensures route == AdminRoute <==> page == AdminDashboard
    ensures route == DashboardRoute <==> page == LearnerDashboard
    ensures route != SignInRoute
  {
    match page
    case AdminDashboard => AdminRoute
    case AdminUsers => "/admin/users"
    case AdminCourses => "/admin/courses"
    case AdminProgress => "/admin/progress"
    case AdminReports => "/admin/reports"
    case LearnerDashboard => DashboardRoute
    case LearnerProgress => "/progress"
  }

  /**
   * The decision of the gate in the given page's code: every gate fails closed
   * to sign-in, grants only a signed-in store its stored email, and redirects
   * only to sign-in or to one of the two dashboards.
   */
  function Gate(page: Page, items: map<string, string>): (d: Decision)
    ensures !SignedIn(items) ==> d == Redirect(SignInRoute)
    ensures d.Granted? ==> SignedIn(items) && d.email == items[UserEmailKey]
    ensures d.Redirect? ==> d.target in {SignInRoute, DashboardRoute, AdminRoute}
    ensures d.Granted? <==> match PolicyOf(page)
      case AdminOnly => SignedIn(items) && IsAdmin(items)
      case AdminsToConsole => SignedIn(items) && !IsAdmin(items)
      case AnySignedIn => SignedIn(items)
  {
    match PolicyOf(page)
    case AdminOnly => AdminOnlyGate(items)
    case AdminsToConsole => LearnerDashboardGate(items)
    case AnySignedIn => SignedInGate(items)
  }

  /**
   * The keys a page's `handleLogout` removes: all three on most pages, only
   * `isAuthenticated` and `userEmail` on admin reports and learner progress.
   */
  function LogoutKeys(page: Page): (keys: set<string>)
    ensures IsAuthenticatedKey in keys && UserEmailKey in keys && keys <= SessionKeys
    ensures UserTypeKey in keys <==> page !in {AdminReports, LearnerProgress}
  {
    if page == AdminReports || page == LearnerProgress then {IsAuthenticatedKey, UserEmailKey}
    else SessionKeys
  }

  /** What a page renders: the loading spinner, or its body for the shown email. */
  datatype View = Loading | Content(userEmail: string)

  /** One mounted protected page with its two pieces of React state. */
  class ProtectedPage {
    const page: Page
    var isAuthenticated: bool
    var userEmail: string

    /** `useState(false)` and `useState("")`. */
    constructor (page: Page)
      ensures this.page == page && !isAuthenticated && userEmail == ""
    {
      this.page := page;
      isAuthenticated := false;
      userEmail := "";
    }

    /** `if (!isAuthenticated) return <Loading/>`, otherwise the page body. */
    function Render(): (v: View)
      reads this
      ensures v == Loading <==> !isAuthenticated
      ensures v.Content? ==> v.userEmail == userEmail
    {
      if !isAuthenticated then Loading else Content(userEmail)
    }

    /**
     * The `useEffect` gate: reads the keys its page's code reads, then either
     * pushes a route (returned in `nav`) or sets both state variables.
     */
    method Mount(store: Store) returns (nav: Option<string>)
      modifies this
      ensures store.items == old(store.items)
      ensures var d := Gate(page, store.items);
        d.Granted? ==> nav == None && isAuthenticated && userEmail == d.email
      ensures var d := Gate(page, store.items);
        d.Redirect? ==> && nav == Some(d.target)
                        && isAuthenticated == old(isAuthenticated)
                        && userEmail == old(userEmail)
    {
      var authStatus := store.GetItem(IsAuthenticatedKey);
      var email := store.GetItem(UserEmailKey);
      var userType: Option<string> := None;
      if PolicyOf(page) != AnySignedIn {
        userType := store.GetItem(UserTypeKey);
      }
      if authStatus == Some("true") && Truthy(email) {
        if PolicyOf(page) == AdminOnly && userType != Some(AdminRole) {
          return Some(DashboardRoute);
        }
        if PolicyOf(page) == AdminsToConsole && userType == Some(AdminRole) {
          return Some(AdminRoute);
        }
        isAuthenticated := true;
        userEmail := email.value;
        nav := None;
      } else {
        nav := Some(SignInRoute);
      }
    }

    /** `handleLogout`: removes this page's logout keys one by one, then goes to sign-in. */
    method HandleLogout(store: Store) returns (nav: string)
      modifies store
      ensures store.items == old(store.items) - LogoutKeys(page)
      ensures nav == SignInRoute
    {
      store.RemoveItem(IsAuthenticatedKey);
      store.RemoveItem(UserEmailKey);
      if page != AdminReports && page != LearnerProgress {
        store.RemoveItem(UserTypeKey);
      }
      nav := SignInRoute;
    }
  }

  /**
   * A fresh visit to a page: its state starts as declared, the gate runs once,
   * and the page renders. The spinner is shown exactly when the gate navigated
   * away, and the body shows the stored email.
   */
  method Visit(page: Page, store: Store) returns (nav: Option<string>, view: View)
    ensures nav.Some? <==> view == Loading
    ensures nav.Some? <==> Gate(page, store.items).Redirect?
    ensures nav.Some? ==> nav.value == Gate(page, store.items).target
    ensures view.Content? ==> SignedIn(store.items) && view.userEmail == store.items[UserEmailKey]
  {
    var p := new ProtectedPage(page);
    nav := p.Mount(store);
    view := p.Render();
  }
}
