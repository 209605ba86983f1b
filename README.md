# Loan dashboard: session, route guard and application state in Dafny

This project models the decision and state layer of a demo loan-origination
dashboard (a React single-page application). It covers:

- the **session store** (`useAuthStore`): at most one logged-in user with a
  role among ADMIN, BROKER, ANALYST and VIEWER, replaced by `login`, cleared by
  `logout`, queried by `hasRole`;
- the **route guard** (`ProtectedRoute`): a three-way decision between
  redirect-to-login, redirect-to-unauthorized and allow;
- the **application store** (`useAppStore`): theme, borrower pipeline (three
  buckets), selected borrower, active tab, broker record and onboarding
  workflow, with one setter per field, a theme toggle and four workflow
  commands that change nothing;
- the **pipeline panel rules** (`BorrowerPipeline`): tab to bucket projection,
  card highlighting, status badge colour, the mount-time auto-select and the
  card-click selection;
- the **login page** (`Login`): the form schema, the default form, and how a
  submitted form or a quick-role button becomes the session user.

Files: `wrappers.dfy` (Option, Result), `types.dfy` (roles, users, borrowers,
pipeline, tabs), `auth_store.dfy` (module `Auth`), `protected_route.dfy`,
`app_store.dfy`, `borrower_pipeline.dfy`, `login.dfy`.

The two stores are classes whose methods update fields in place. The
application store's methods are specified against `AppStore.Apply`, a
function giving the effect of one action on a snapshot of all fields, and
the store's properties (frame, last-write-wins, toggle involution, workflow
neutrality) are proved about `Apply` and its iteration `Run`. The mock data
service is a parameter: `getBorrowerPipeline` is the fetched `Pipeline` value
and `getBorrowerDetail` a function `string -> Option<Borrower>`.
`crypto.randomUUID` is a parameter `uuid: Option<string>` (None when the
function does not exist).

## Model

| member | source | states |
|---|---|---|
| `Types.ParseRole` | src/pages/Login.tsx:27 | a string is accepted as a role exactly when it is one of the four role names, and the accepted role prints back as that string |
| `Types.ParseRoleName` | src/pages/Login.tsx:27 | every role's name reads back as that role (round trip) |
| `Types.AllRolesComplete` | src/main.tsx:21 | the four-role list of the dashboard route contains every role |
| `Auth.Includes` | src/store/useAuthStore.ts:19 | the left-to-right scan of `includes` is true exactly when the element is in the list |
| `Auth.UserHasRole` | src/store/useAuthStore.ts:17-20 | `hasRole` is false without a user, for every role list; with a user it is true iff the user's role is in the list |
| `Auth.EmptyRoleListDeniesEveryone` | src/store/useAuthStore.ts:19 | `hasRole()` with no roles is false for every session |
| `Auth.AuthStore.constructor` | src/store/useAuthStore.ts:14 | initially no user is logged in |
| `Auth.AuthStore.Login` | src/store/useAuthStore.ts:15 | after `login(u)` the user is exactly `u`, whatever was there before; no credential check |
| `Auth.AuthStore.Logout` | src/store/useAuthStore.ts:16 | after `logout()` no user is present, from any state, so a second logout changes nothing |
| `Auth.AuthStore.HasRole` | src/store/useAuthStore.ts:17-20 | a read-only query (it cannot modify the user) that holds iff a user is present and its role is in the list |
| `Auth.RoleAcrossSession` | src/store/useAuthStore.ts:15-19 | right after `login(u)`, `hasRole(u.role)` is true; after the following `logout()` it is false |
| `ProtectedRoute.Guard` | src/routes/ProtectedRoute.tsx:7-9 | no user gives redirect-to-login for every role list (so never redirect-to-unauthorized); redirect-to-unauthorized iff a user is present, the list is non-empty and excludes the role; allow iff a user is present and the list is absent, empty or contains the role |
| `ProtectedRoute.DashboardAdmitsEveryUser` | src/main.tsx:20-23 | with the dashboard's four-role list every logged-in user is allowed |
| `ProtectedRoute.AnonymousDashboardRedirectsToLogin` | src/tests/e2e/auth.spec.ts:4-7 | visiting the dashboard without a session redirects to login |
| `ProtectedRoute.GuardAgreesWithStore` | src/routes/ProtectedRoute.tsx:6-8 | for every session, logged in or not, and a non-empty list, the guard allows iff the store's `hasRole` holds |
| `AppStore.Flipped` | src/store/useAppStore.ts:43 | the toggled theme always differs from the current one |
| `AppStore.Apply` | src/store/useAppStore.ts:42-74 | every field outside an action's footprint keeps its value; each setter stores its argument in its own field; the toggle changes the theme; workflow commands have an empty footprint |
| `AppStore.ToggleTwiceRestores` | src/store/useAppStore.ts:42-44 | toggling twice restores the original state (light to dark to light and back) |
| `AppStore.LastWriteWins` | src/store/useAppStore.ts:49-53 | two consecutive sets of the same field equal a single set with the second value |
| `AppStore.DistinctSettersCommute` | src/store/useAppStore.ts:49-53 | setters of different fields give the same state in either order |
| `AppStore.RunKeepsUntouched` | src/store/useAppStore.ts:42-74 | over any sequence of actions, a field no action writes keeps its value |
| `AppStore.WorkflowCommandsChangeNothing` | src/store/useAppStore.ts:56-74 | any sequence of request-documents, send-to-valuer, approve and escalate commands leaves the whole state unchanged; no borrower moves between buckets |
| `AppStore.TabSwitchesKeepSelectionAndPipeline` | src/store/useAppStore.ts:49 | any number of tab switches leaves the selected borrower and the pipeline unchanged |
| `AppStore.Store.constructor` | src/store/useAppStore.ts:33-39 | the initial state is light theme, three empty buckets, no selection, tab "new", no broker record and no workflow |
| `AppStore.Store.ToggleTheme` | src/store/useAppStore.ts:42-46 | light becomes dark and dark becomes light; no other field changes |
| `AppStore.Store.SetActiveTab` | src/store/useAppStore.ts:49 | only the active tab changes, to the argument; selection and pipeline are untouched |
| `AppStore.Store.SetSelectedBorrower` | src/store/useAppStore.ts:50 | only the selection changes, to the argument (None clears it) |
| `AppStore.Store.SetBorrowerPipeline` | src/store/useAppStore.ts:51 | only the pipeline changes, to the argument |
| `AppStore.Store.SetBrokerInfo` | src/store/useAppStore.ts:52 | only the broker record changes, to the argument |
| `AppStore.Store.SetOnboardingWorkflow` | src/store/useAppStore.ts:53 | only the onboarding workflow changes, to the argument |
| `AppStore.Store.RequestDocuments` | src/store/useAppStore.ts:56-59 | no state field changes |
| `AppStore.Store.SendToValuer` | src/store/useAppStore.ts:61-64 | no state field changes |
| `AppStore.Store.ApproveLoan` | src/store/useAppStore.ts:66-69 | no state field changes; the borrower stays in its bucket |
| `AppStore.Store.EscalateToCommittee` | src/store/useAppStore.ts:71-74 | no state field changes |
| `BorrowerPipeline.BorrowersByTab` | src/components/borrower/BorrowerPipeline.tsx:46-57 | `new`, `in_review` and `approved` give the bucket of that name; any other value gives the empty list |
| `BorrowerPipeline.TabsCoverPipeline` | src/components/borrower/BorrowerPipeline.tsx:46-57 | the three tabs together cover exactly the pipeline's borrowers, and no tab lists anything outside it (buckets are not proved disjoint: the source does not keep one id out of two buckets) |
| `BorrowerPipeline.ShowsNoApprovedPlaceholder` | src/components/borrower/BorrowerPipeline.tsx:112-113 | the "No approved borrowers" placeholder shows iff the approved bucket is empty |
| `BorrowerPipeline.IsSelected` | src/components/borrower/BorrowerPipeline.tsx:92 | a card is highlighted iff a borrower is selected and its id equals the card's id; with nothing selected no card is |
| `BorrowerPipeline.AtMostOneCardSelected` | src/components/borrower/BorrowerPipeline.tsx:92 | a card is highlighted when the selected borrower's id equals its id, so in a bucket with distinct ids at most one card is highlighted |
| `BorrowerPipeline.ToLower` | src/components/borrower/BorrowerPipeline.tsx:60 | lower-casing keeps the length and lower-cases each ASCII letter in place |
| `BorrowerPipeline.ToLowerIdempotent` | src/components/borrower/BorrowerPipeline.tsx:60 | lower-casing twice equals lower-casing once |
| `BorrowerPipeline.StatusColor` | src/components/borrower/BorrowerPipeline.tsx:59-72 | blue, yellow, green and purple exactly for "new", "in review", "approved" and "renew" after lower-casing; gray for every other status |
| `BorrowerPipeline.StatusColorIgnoresCase` | src/components/borrower/BorrowerPipeline.tsx:59-60 | a status and its lower-cased form get the same colour |
| `BorrowerPipeline.StatusLabelColour` | src/components/borrower/BorrowerPipeline.tsx:59-72 | each of the four statuses a borrower record carries ("New", "In Review", "Approved", "Renew") gets its own colour, never gray |
| `BorrowerPipeline.MountSelection` | src/components/borrower/BorrowerPipeline.tsx:27-33 | an existing selection is kept; the selection changes iff nothing was selected, the `new` bucket is non-empty and the detail lookup of its first id is non-null, and then it becomes that detail |
| `BorrowerPipeline.ClickSelection` | src/components/borrower/BorrowerPipeline.tsx:39-44 | a click replaces the selection by the looked-up detail when it is non-null and keeps it when null |
| `BorrowerPipeline.ClickHighlightsCard` | src/components/borrower/BorrowerPipeline.tsx:39-44 | when the lookup returns the clicked borrower's own record, the clicked card becomes highlighted |
| `BorrowerPipeline.FetchPipeline` | src/components/borrower/BorrowerPipeline.tsx:23-34 | after the mount fetch the store's pipeline is the fetched one and the selection follows the auto-select rule; nothing else changes |
| `BorrowerPipeline.HandleBorrowerClick` | src/components/borrower/BorrowerPipeline.tsx:39-44 | only the selection may change, following the click rule |
| `BorrowerPipeline.FirstMountSelectsFirstNewBorrower` | src/components/borrower/BorrowerPipeline.tsx:22-37 | on a fresh store, a fetch whose `new` bucket is `[b1]` lists `b1` under the default tab and selects `b1`'s detail |
| `Login.Validate` | src/pages/Login.tsx:24-28 | the form is valid iff the username has length at least 2, the password at least 4 and the role is one of the four names; otherwise each violated rule, and only those, is reported |
| `Login.Message` | src/pages/Login.tsx:25-26 | the username rule reports "Username must be at least 2 characters", the password rule "Password must be at least 4 characters"; only the role rule has no message of the schema's own |
| `Login.ShortFieldsReportTheirMessages` | src/pages/Login.tsx:25-26 | a short username or password rejects the form with that field's message |
| `Login.DefaultFormRejected` | src/pages/Login.tsx:36 | the default form (empty name and password, role VIEWER) is rejected for both lengths and not for the role |
| `Login.SessionId` | src/pages/Login.tsx:40 | the user id is the random UUID when it exists and is non-empty, otherwise "u1"; it is never empty |
| `Login.OnSubmit` | src/pages/Login.tsx:39-42 | the session user gets the form's username as name and its role; the password is not stored; the page navigates to `/dashboard` |
| `Login.Submit` | src/pages/Login.tsx:34-42 | a rejected form reports its errors and leaves the session unchanged; a valid one logs in as its username and role and navigates to `/dashboard` |
| `Login.QuickLogin` | src/pages/Login.tsx:44-47 | logs in with the given name and role without validation and navigates to `/dashboard` |
| `Login.QuickRoleButton` | src/pages/Login.tsx:122-145 | the i-th quick-role button logs in with its fixed pair (alice.admin/ADMIN, ben.broker/BROKER, amy.analyst/ANALYST, vic.viewer/VIEWER) and navigates to `/dashboard` |
| `Login.QuickRolesCoverEveryRole` | src/pages/Login.tsx:122-145 | the buttons pair alice.admin, ben.broker, amy.analyst and vic.viewer with ADMIN, BROKER, ANALYST and VIEWER: one button per role |
| `Login.QuickLoginIsAValidForm` | src/pages/Login.tsx:122-145 | each quick-role name and role, with any password of length at least 4, is a form the schema accepts with the same name and role |
| `Login.QuickLoginThenLogout` | src/tests/e2e/auth.spec.ts:25-43 | on a fresh session the dashboard redirects to login, a quick Admin login (through the first quick-role button) reaches it, and after the store's logout it redirects to login again |
| `Login.ValidSubmissionReachesDashboard` | src/pages/Login.tsx:39-41 | whichever role a valid form selects, the resulting user passes the dashboard guard |

## Left out

- Rendering: JSX, Tailwind class strings (the status badge's class string is abstracted to its colour), icons, responsive layout, the dashboard, header and layout components.
- The DOM side effect of `toggleTheme` (the `dark` class on the document root) and the theme effect in the application shell: the model flips the field only.
- `console.log` and the one-second delay in the four workflow commands: only their leaving the state unchanged is modelled.
- The mock data service and its canned records: the fetched pipeline and the detail lookup are parameters.
- Asynchronous interleaving: each effect and click handler runs to completion in one step. `FetchPipeline` reads the selection when it starts, which is the value the mount-time closure captured; races between concurrent fetches are not modelled.
- `crypto.randomUUID`: an arbitrary optional string.
- The "Logout" button the end-to-end suite clicks: no component in this model contains it, so `Login.QuickLoginThenLogout` calls the store's `Logout` directly.
- Navigation and the router: a navigation is modelled as the returned path `/dashboard`.
- The validator library's own message for an invalid role, and its handling of non-string inputs.
- Borrower amounts and other JavaScript numbers are integers; `formatCurrency` is not modelled.
- BorrowerPipeline.ToLower: lower-cases ASCII letters only, while `toLowerCase` also maps non-ASCII letters; every status string the application uses is ASCII.
- Login.Validate: string lengths are counted in Dafny characters (Unicode scalar values), while the schema counts UTF-16 code units; they differ only for characters outside the Basic Multilingual Plane.
- The detail panel's duplicate of the status colour mapping is the same function as `BorrowerPipeline.StatusColor` and is not modelled twice.
- The broker overview panel (fetching the broker record and onboarding workflow) is presentation code calling the two setters that are modelled.
