# LMS front end: session gate, credential forms and progress summaries

This project models the little logic in a learning-management-system front end.
Everything else in that front end is markup and fixed mock data.

- **The session store.** Browser local storage: a string-to-string map in which
  a missing key reads as `null`. A session is three keys: `isAuthenticated`,
  `userEmail` and `userType`.
- **The protected pages' gates.** Every protected page runs a one-shot gate when
  it mounts. The gate reads the session keys and either navigates away or shows
  the page for the stored email. The code has three gate shapes:
  - admin-only: admin dashboard, users, courses, progress;
  - learner dashboard: sends admins to `/admin`;
  - signed-in only: admin reports and learner progress, with no role check.
- **The logout handlers.** Most pages remove all three keys. Reports and learner
  progress remove only two and leave `userType` behind.
- **The sign-in form.** A schema check, a match against two demo credential
  pairs, the three session writes and a redirect by role.
- **The sign-up form.** Field rules, the `isLoading`/`success` flags, the
  redirect it schedules, and the submit button those flags drive.
- **The progress pages' summaries.** Filter counts and a rounded average.
- **The badge lookups.** Maps from status or role to a colour class, with defaults.

JavaScript truthiness is modelled explicitly. An empty `userEmail` counts as
absent (`Truthy`). `obj[key] || fallback` falls back on a missing key and on
`""` (`LookupOr`).

Modules follow the source files:

| module | models |
|---|---|
| `Storage` | the local-storage key-value map, as a class |
| `SessionGate` | the three gate shapes, the page table, `ProtectedPage` (state, mount, logout, render) |
| `SignInPage`, `SignUpPage`, `Forms` | the two forms and what they share |
| `Aggregates` | `filter`, `map`, `reduce` and `Math.round` on whole numbers |
| `AdminUsersPage`, `AdminCoursesPage`, `AdminProgressPage`, `LearnerProgressPage` | per-page badges and summaries |
| `SessionProperties` | properties that relate several pages |

Three points of the code that are easy to misread:

- Logout is not uniform. src/app/admin/reports/page.tsx:89-93 and
  src/app/progress/page.tsx:69-73 remove only `isAuthenticated` and `userEmail`,
  and leave `userType` behind. Every other page removes all three keys.
- An empty `userEmail` counts as absent, because the gates test it for truthiness.
- An absent `userType` is handled three ways. The admin-only gates send it to
  `/dashboard`. The learner dashboard grants it. The signed-in-only gates never read it.
- Password length is JavaScript's `.length`, which counts UTF-16 code units. A
  character outside the Basic Multilingual Plane (an emoji, say) counts twice
  (`Utf16Length`).

## Model

| member | source | states |
|---|---|---|
| `Storage.Store.GetItem` | src/app/admin/page.tsx:19-21 | `getItem` gives the stored value when the key is present and `null` (None) exactly when it is absent |
| `Storage.Store.SetItem` | src/app/signin/page.tsx:57-59 | `setItem` overwrites or adds exactly one key |
| `Storage.Store.RemoveItem` | src/app/admin/page.tsx:37-39 | `removeItem` removes exactly one key, and does nothing when it is absent |
| `SessionGate.AdminOnlyGate` | src/app/admin/page.tsx:17-34 | not signed in (flag not exactly "true", or email absent or empty) → `/signin`; signed in but `userType` not "admin" (absent included) → `/dashboard`; grants iff signed in and admin, showing the stored email |
| `SessionGate.LearnerDashboardGate` | src/app/dashboard/page.tsx:17-34 | not signed in → `/signin`; signed-in admin → `/admin`; grants iff signed in and not admin (absent, "user" or any other `userType`), showing the stored email |
| `SessionGate.SignedInGate` | src/app/admin/reports/page.tsx:76-87 | grants iff signed in, with the stored email; every other outcome is `/signin` |
| `SessionGate.LogoutKeys` | src/app/admin/reports/page.tsx:89-93 | every logout removes `isAuthenticated` and `userEmail`; only reports and learner progress leave `userType` |
| `SessionGate.ProtectedPage.constructor` | src/app/admin/page.tsx:13-14 | a page starts not authenticated, with an empty email |
| `SessionGate.ProtectedPage.Mount` | src/app/admin/page.tsx:17-34 | the effect never changes the store; on a grant it sets both state variables and does not navigate; on a redirect it navigates to the gate's target and sets no state |
| `SessionGate.ProtectedPage.HandleLogout` | src/app/admin/page.tsx:36-41 | the store afterwards is the old store minus the page's logout keys, and the page navigates to `/signin` |
| `SessionGate.PolicyOf` | src/app/admin/reports/page.tsx:76-87 | the admin dashboard, users, courses and progress pages carry the admin-only gate (src/app/admin/page.tsx:17-34, src/app/admin/users/page.tsx:55-72, src/app/admin/courses/page.tsx:55-72, src/app/admin/progress/page.tsx:76-93); only the learner dashboard sends admins away (src/app/dashboard/page.tsx:17-34); exactly reports and learner progress check only the sign-in (src/app/admin/reports/page.tsx:76-87, src/app/progress/page.tsx:56-67) |
| `SessionGate.Route` | src/app/admin/page.tsx:25-26 | `/admin` and `/dashboard` are the routes of exactly the two dashboards, and no protected page is served at `/signin` |
| `SessionGate.Gate` | src/app/dashboard/page.tsx:17-34 | whatever the page, a store that is not signed in is sent to `/signin`, a grant is only for a signed-in store and shows its stored email, and every redirect goes to `/signin`, `/dashboard` or `/admin`; it grants iff the page's gate shape admits the store's role |
| `SessionGate.ProtectedPage.Render` | src/app/admin/page.tsx:43-52 | the spinner iff `isAuthenticated` is false; otherwise the body for the state's email |
| `SessionGate.Visit` | src/app/admin/page.tsx:43-52 | on a fresh visit the spinner is rendered iff the gate redirected (to the gate's target); the body appears only for a signed-in store, with its stored email |
| `Storage.Lookup` | src/app/admin/page.tsx:19-21 | the value-level `getItem`: present iff the key is stored, with its stored value |
| `Forms.EmailErrors` | src/app/signin/page.tsx:15 | the email rule reports an error iff the address is not well formed |
| `Forms.Utf16Length` | src/app/signin/page.tsx:16 | `.length` counts between one and two code units per character, and equals the character count iff no character lies outside the Basic Multilingual Plane |
| `Forms.Utf16LengthAppend` | src/app/signin/page.tsx:16 | `.length` of a concatenation is the sum of the two lengths |
| `Forms.PasswordErrors` | src/app/signin/page.tsx:16 | the password rule reports its one message iff `.length` is below 6 |
| `Forms.AstralPasswordPasses` | src/app/signup/page.tsx:17 | three emoji are three characters but six code units, and so pass the 6-character rule |
| `SignInPage.ValidateSignIn` | src/app/signin/page.tsx:13-18 | no field error iff the email is well formed and the password's `.length` (UTF-16 code units) is at least 6; each message appears iff its rule fails |
| `SignInPage.Credentials` | src/app/signin/page.tsx:44-53 | exactly (`user@example.com`, `password`) yields "user", exactly (`admin@example.com`, `admin123`) yields "admin", every other pair yields nothing |
| `SignInPage.SessionAfterSignIn` | src/app/signin/page.tsx:57-59 | afterwards `isAuthenticated` is "true", `userEmail` is the submitted email and `userType` the role; the key set grows by the session keys only, and every other key keeps its value |
| `SignInPage.LandingRoute` | src/app/signin/page.tsx:62-66 | the target is `/admin` iff the role is "admin", and `/dashboard` otherwise |
| `SignInPage.SignInAttempt` | src/app/signin/page.tsx:44-69 | an invalid pair leaves the store unchanged, does not navigate and shows the invalid-credentials banner; a valid pair writes the session, navigates by role and leaves the banner cleared |
| `SignInPage.SignInForm.Button` | src/app/signin/page.tsx:168-174 | the button is disabled exactly while loading, when it reads "Signing in..."; enabled, it reads "Sign in" |
| `SignInPage.SignInForm.constructor` | src/app/signin/page.tsx:23-24 | the form starts not loading and with no error |
| `SignInPage.SignInForm.OnSubmit` | src/app/signin/page.tsx:35-75 | store, navigation and banner afterwards are those of `SignInAttempt` on the old store; `isLoading` is false after every submission |
| `SignInPage.SignInForm.Submit` | src/app/signin/page.tsx:90 | a schema error blocks `onSubmit` and changes nothing; otherwise the outcome is that of `OnSubmit` |
| `SignInPage.ValidPairsPassPasswordRule` | src/app/signin/page.tsx:47-50 | both demo passwords satisfy the 6-character rule |
| `SignInPage.SignInIdempotent` | src/app/signin/page.tsx:57-59 | submitting the same pair twice leaves the same store, navigation and banner as once |
| `SignUpPage.ValidateSignUp` | src/app/signup/page.tsx:12-19 | no field error iff both names are non-empty, the email is well formed and the password's `.length` (UTF-16 code units) is at least 6; "First name is required", "Last name is required" and the password message each appear iff their rule fails |
| `SignUpPage.SignUpForm.constructor` | src/app/signup/page.tsx:24-25 | the form starts not loading, not succeeded, with no redirect scheduled |
| `SignUpPage.SignUpForm.OnSubmit` | src/app/signup/page.tsx:36-56 | afterwards `success` is true, `isLoading` is false and a redirect to `/signin` is scheduled |
| `SignUpPage.SignUpForm.Submit` | src/app/signup/page.tsx:71 | a schema error (an empty first name, say) changes no flag and schedules nothing; a valid form ends as `OnSubmit` leaves it |
| `SignUpPage.SignUpForm.RedirectTimerFires` | src/app/signup/page.tsx:47-49 | the timer performs the scheduled navigation once and touches neither flag |
| `SignUpPage.ButtonCaptionTracksState` | src/app/signup/page.tsx:169-175 | the button is disabled iff `isLoading || success`, and enabled iff it reads "Create account"; it reads "Creating account..." iff loading, and "Account created!" iff succeeded and not loading |
| `SessionProperties.SignUpLeavesSession` | src/app/signup/page.tsx:36-56 | a sign-up submission, valid or not, leaves the session store as it was; this holds by framing alone, since the form is never given the store |
| `Aggregates.Filter` | src/app/admin/progress/page.tsx:124-125 | `filter` keeps exactly the passing elements with their multiplicities, and never lengthens the list |
| `Aggregates.Sum` | src/app/admin/progress/page.tsx:127 | the `reduce` sum of no elements is its initial 0, and of one element is that element's value |
| `Aggregates.SumLeftFold` | src/app/progress/page.tsx:96 | the sum equals the left fold `reduce` performs: the sum of all but the last element plus the last |
| `Aggregates.RoundedMean` | src/app/admin/progress/page.tsx:126-128 | `Math.round(total / n)` is the integer nearest the quotient, with ties going up, and NaN (None) iff `n` is 0 |
| `Aggregates.RoundedMeanUnique` | src/app/admin/progress/page.tsx:126-128 | any integer nearest to the quotient (ties up) is the rounded mean |
| `Aggregates.RoundedMeanBounds` | src/app/admin/progress/page.tsx:126-128 | a rounded mean of a total between `lo*n` and `hi*n` lies in `lo..hi` |
| `Aggregates.SumBounds` | src/app/admin/progress/page.tsx:127 | the `reduce` sum of values in `lo..hi` lies between `lo` and `hi` times the count |
| `Aggregates.FilterPartition` | src/app/admin/progress/page.tsx:123-125 | two never-overlapping tests and their joint complement split a list: the three counts add up to its length |
| `Aggregates.FilterCountsKey` | src/app/admin/progress/page.tsx:124-125 | filtering on `key(x) == k` counts the occurrences of `k` among the keys |
| `Badges.LookupOr` | src/app/admin/users/page.tsx:99-104 | JavaScript's `or`-fallback on an object literal: the stored class for a key present with a non-empty value, the fallback for a missing key or "", and never anything else |
| `AdminUsersPage.StatusBadge` | src/app/admin/users/page.tsx:92-96 | green iff the status is "Active", red for every other string |
| `AdminUsersPage.RoleBadge` | src/app/admin/users/page.tsx:98-105 | Admin → purple, Instructor → blue, every other role ("Student" and unknown ones) → the gray default |
| `AdminCoursesPage.StatusBadge` | src/app/admin/courses/page.tsx:92-96 | green iff the status is "Active", yellow for every other status, "Draft" included |
| `AdminProgressPage.Summarize` | src/app/admin/progress/page.tsx:122-128 | `totalStudents` is the row count; `activeStudents` and `completedCourses` are the occurrences of "Active" and "Completed" among the statuses; with the other rows these add up to the total; `avgProgress` is the integer nearest the mean of `completed` (ties up), and NaN only for no rows |
| `AdminProgressPage.AvgProgressIsPercentage` | src/app/admin/progress/page.tsx:126-128 | if every `completed` is in 0..100, so is the average |
| `AdminProgressPage.SampleSummary` | src/app/admin/progress/page.tsx:13-69 | on the page's own rows the cards read 5 students, 3 active, 1 completed, 69% |
| `AdminProgressPage.StatusBadge` | src/app/admin/progress/page.tsx:113-120 | Completed → green, Active → blue, Inactive → red, any other status → the gray default |
| `LearnerProgressPage.Summarize` | src/app/progress/page.tsx:95-100 | `completedCourses` counts progress 100; completed, in-progress and the remaining courses add up to the course count; `overallProgress` is the integer nearest the mean progress (ties up), and NaN only for no courses |
| `LearnerProgressPage.CountsAreDisjoint` | src/app/progress/page.tsx:99-100 | no course is counted both as completed and as in progress |
| `LearnerProgressPage.OverallProgressIsPercentage` | src/app/progress/page.tsx:95-97 | if every progress is in 0..100, so is the overall figure |
| `LearnerProgressPage.SampleSummary` | src/app/progress/page.tsx:12-49 | on the page's own courses the page shows 60% overall, 1 completed, 3 in progress |
| `LearnerProgressPage.StatusBadge` | src/app/progress/page.tsx:86-93 | Completed → green, In Progress → blue, Started → yellow, anything else → the gray default |
| `SessionProperties.SignedOutIsSentToSignIn` | src/app/admin/page.tsx:31-32 | on every protected page, a store that is not signed in is sent to `/signin` |
| `SessionProperties.SignedInIsNeverSentToSignIn` | src/app/admin/page.tsx:23 | on every protected page, a signed-in store is never sent to `/signin` |
| `SessionProperties.AdminPagesAgree` | src/app/admin/users/page.tsx:55-72 | the users, courses and progress gates decide as the admin dashboard's does on every store |
| `SessionProperties.NoDashboardLoop` | src/app/dashboard/page.tsx:23-28 | for a signed-in store exactly one of `/admin` and `/dashboard` grants, and the other redirects to it |
| `SessionProperties.RedirectsSettle` | src/app/dashboard/page.tsx:23-33 | no page redirects to itself, and a redirect other than to `/signin` lands on a dashboard that grants |
| `SessionProperties.SignInAsUserThenGates` | src/app/signin/page.tsx:47-59 | after signing in as the learner, admin-only pages redirect to `/dashboard` and every other page grants that email |
| `SessionProperties.SignInAsAdminThenGates` | src/app/signin/page.tsx:50-59 | after signing in as the admin, the learner dashboard redirects to `/admin` and every other page grants that email |
| `SessionProperties.SignInLandsOnGrantingPage` | src/app/signin/page.tsx:55-66 | a successful sign-in navigates to a dashboard whose gate grants the submitted email |
| `SessionProperties.SignInAndLand` | src/app/signin/page.tsx:55-66 | signing in and visiting the page navigated to writes the session and shows the body for the submitted email |
| `SessionProperties.SignedInGatesIgnoreUserType` | src/app/admin/reports/page.tsx:76-87 | the reports and learner-progress gates decide the same whatever `userType` holds, or when it is absent |
| `SessionProperties.ReportsAdmitsLearners` | src/app/admin/reports/page.tsx:81-83 | a signed-in non-admin is granted admin reports while the admin dashboard sends them to `/dashboard` |
| `SessionProperties.LearnerProgressAdmitsAdmins` | src/app/progress/page.tsx:61-63 | a signed-in admin is granted learner progress while the learner dashboard sends them to `/admin` |
| `SessionProperties.LogoutClosesEveryGate` | src/app/admin/reports/page.tsx:89-93 | after either logout variant, every page's gate sends the visitor to `/signin`, the leftover `userType` notwithstanding |
| `SessionProperties.TwoKeyLogoutKeepsUserType` | src/app/progress/page.tsx:69-73 | the two-key logout removes exactly `isAuthenticated` and `userEmail` and leaves `userType` with its previous value |
| `SessionProperties.LogoutThenVisit` | src/app/admin/page.tsx:36-41 | logging out from any page and then visiting any page shows the spinner and navigates to `/signin` |

## Left out

- Timing: the awaited delays (src/app/signin/page.tsx:41, src/app/signup/page.tsx:41) are simulated latency. Each submission is one atomic step. The intermediate `isLoading == true` state and the "Signing in..." and "Creating account..." captions are therefore never observed after a step. The sign-up redirect timer is a recorded pending navigation (`RedirectTimerFires`).
- React and Next.js machinery: `useEffect` scheduling, re-renders and `router.push`. A navigation is a returned value, not an effect. A rapid sequence of navigations is not modelled.
- The `catch` branches of both forms (src/app/signin/page.tsx:70-71, src/app/signup/page.tsx:51-52): nothing in the modelled `try` bodies can throw. A `setItem` that fails part-way (quota, private mode) is outside the model.
- The zod email-format rule is foreign library code. Whether an address is well formed is a boolean parameter (`emailWellFormed`).
- Floating point: `Math.round(total / n)` is computed exactly on whole numbers. This agrees with the double computation for the small totals the pages handle. NaN, for an empty list, is `None`.
- Object-literal lookups (`getRoleBadge`, both `statusColors` lookups): a key inherited from `Object.prototype` (`toString`, `constructor`, `__proto__`) would return a truthy non-string in JavaScript. The model treats every key other than the listed ones as unknown. The page data never contains such keys.
- LearnerProgressPage.Summarize: pins `inProgressCourses` (progress strictly between 0 and 100) down only through the split completed + in progress + neither = all courses, and through `Filter`'s own contract, not by a separate count of its own.
- JSX markup, icons, layout and static cards. The mock arrays appear only as the two sample inputs of `SampleSummary`.
- `toLocaleDateString` formatting depends on the locale.
- How the `Navigation` component wires up logout is not part of this model. Admin reports defines `handleLogout` but never passes it (src/app/admin/reports/page.tsx:108); the model gives it its own logout anyway.
- src/app/page.tsx, src/app/forgot-password/page.tsx and src/app/courses/page.tsx have no gate or state logic: a static landing page, a handler that only logs, and a static table.
- Browser persistence across reloads, cross-tab storage events, and concurrency.
