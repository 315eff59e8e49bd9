# Role and module access model of the facility-booking dashboard

This project models the access rules of a Next.js administration dashboard
for a facility-booking service, together with the pages that use them:

- the sidebar's navigation filter: a fixed manifest of entries, a label
  allow-list for clients, and per-entry role and module tests;
- how the dashboard home page resolves a user's modules into section flags;
- the session store: `user`, `loading`, the role predicates, and the
  start-up, `loadUser`, `login` and `logout` transitions over token storage;
- the route guard's decision;
- the users page's module-override toggle;
- the HTTP client's token storage, header construction and its single
  refresh-and-retry rule;
- the list filters, counts, formatters and save handlers of the businesses
  and facilities pages;
- the change-password page's checks and redirect.

Each source file has its own module. Pure parts are functions and lemmas.
State the source updates in place becomes a `class` whose methods carry
`modifies` clauses and state the whole new state. The `forEach` that builds
the location index is a loop proved against a recursive specification.

Shared helpers:

- `Wrappers` holds `Option`, `Result`, and `Nullable` (JavaScript
  `undefined`/`null`/value).
- `Seqs` holds `Array.prototype.filter` and the sub-list relation.
- `Text` holds JavaScript string operations: `includes`, `toLowerCase`,
  `trim`, `||` and `join`.
- `Uri` holds `encodeURIComponent`.

Network calls are inputs. An API call is a `Result` the handler is given. In
`apiFetch` the network is a script of replies, one per `fetch`. The backend's
profile endpoint is a map from access token to user. Navigation is a
returned value.

The model follows the code where it departs from the intended design:

- `hasRole` has no `super_admin` bypass, so the dashboard layout's
  `["admin", "client"]` refuses a super admin.
  - `ProtectedRoute.DashboardRefusesOtherRoles` proves this.
  - The sidebar's own filter has a super-admin bypass and would keep the
    Businesses entry, which the businesses layout refuses. But the sidebar
    is rendered inside the dashboard layout, which refuses a super admin
    first, so the sidebar is never shown to one:
    `Sidebar.SuperAdminFilterKeepsRefusedEntry`.
- Role strings are compared exactly; `"Admin"` is not an admin.
- A refused role is redirected to `/dashboard` with nothing rendered. No
  denial message is shown.
- A module list is tested for emptiness before its empty entries are
  dropped. So a list holding only `""` is an explicit, empty override. For
  anyone but a super admin it hides every module-gated sidebar entry, and it
  hides every dashboard section, where an absent list would fall back to the
  role defaults. A super admin bypasses the sidebar's module test.

## Model

| member | source | states |
|---|---|---|
| Sidebar.EffectiveModules | components/layout/Sidebar.tsx:157-164 | no override exactly when there is no user or the module list is absent or empty; otherwise the list's non-empty entries, each from the list, with every non-empty entry kept |
| Sidebar.VisibleNavItems | components/layout/Sidebar.tsx:166-182 | the whole manifest for no user and for every role but client; for a client, a sub-list of the manifest in manifest order holding exactly the manifest entries `ClientMayOpen` admits, those whose label is Bookings, Locations, Facilities or Settings |
| Sidebar.RolePasses | components/layout/Sidebar.tsx:250-255 | an entry passes the role test exactly for a super admin, with no user, for an entry without a role list, or when the list names the user's role |
| Sidebar.ModulePasses | components/layout/Sidebar.tsx:258-264 | an entry passes the module test exactly for a super admin, with no user, with an absent or empty module list, for an entry without a (non-empty) key, or when the user's list holds the key |
| Sidebar.Render | components/layout/Sidebar.tsx:166-182 | every rendered entry is in the manifest and passes both the role and module tests; a client only ever gets entries labelled Bookings, Locations, Facilities or Settings |
| Sidebar.RenderKeepsManifestOrder | components/layout/Sidebar.tsx:246-265 | the rendered list is a sub-list of the manifest in manifest order, for every user |
| Sidebar.NoUserSeesEverything | components/layout/Sidebar.tsx:167 | with nobody signed in the rendered list is the whole manifest |
| Sidebar.SuperAdminSeesEverything | components/layout/Sidebar.tsx:250-265 | a super admin gets the whole manifest whatever the entries' roles and the user's modules |
| Sidebar.RoleListHides | components/layout/Sidebar.tsx:253 | a user other than a super admin never sees an entry whose role list leaves out their role |
| Sidebar.ModuleListHides | components/layout/Sidebar.tsx:258-262 | with a non-empty module list, an entry gated by a key the list lacks is hidden from anyone but a super admin |
| Sidebar.BlankModuleListHidesGatedEntries | components/layout/Sidebar.tsx:157-164 | a module list of only `""` yields an empty override, which hides every module-gated entry |
| Sidebar.ModuleTestSpares | components/layout/Sidebar.tsx:258-262 | the module test never hides an entry without a key, nor anything when there is no override |
| Sidebar.ShownEntriesAppear | components/layout/Sidebar.tsx:246-265 | an entry of the allow-listed manifest that passes both tests is rendered (the converse of `Render`'s contract) |
| Sidebar.ClientCandidates | components/layout/Sidebar.tsx:45-149 | an entry of the manifest that the allow-list lets through is the Locations, Facilities, Bookings or Settings entry |
| Sidebar.ClientCandidatesAllowed | components/layout/Sidebar.tsx:171-177 | each of those four entries is in the manifest and is let through by the allow-list (the converse of `ClientCandidates`) |
| Sidebar.BookingsOnlyClientSees | components/layout/Sidebar.tsx:113-134 | a client whose only module is `bookings` is shown Facilities (no module key) and Bookings |
| Sidebar.BookingsOnlyClientSeesNothingElse | components/layout/Sidebar.tsx:171-177 | such a client is shown nothing but those two entries |
| Sidebar.SuperAdminFilterKeepsRefusedEntry | components/layout/Sidebar.tsx:58-63 | the sidebar filter keeps the Businesses entry for a super admin, yet both the businesses layout and the dashboard layout around the sidebar send a super admin to `/dashboard` with nothing rendered, so the entry is never shown |
| Dashboard.ResolveModules | app/dashboard/page.tsx:95-123 | empty without a user; a non-empty list's non-empty entries; otherwise the role defaults |
| Dashboard.RoleDefaults | app/dashboard/page.tsx:96-119 | every role's defaults hold the overview and are among the admin's; analytics exactly for admins; bookings and gaming exactly for admins and clients |
| Dashboard.Layout | app/dashboard/page.tsx:125-250 | the owner title exactly for clients; the stats grid exactly with the overview module; the Active Users card exactly with the grid and a role other than client; the bookings and gaming cards need the grid and their module; the charts row exactly with analytics or gaming, holding the revenue chart exactly with analytics and the gaming chart exactly with gaming; the recent-bookings table exactly with bookings |
| Dashboard.NoUserNoSections | app/dashboard/page.tsx:98 | no user: the module set is empty and every section flag is false |
| Dashboard.DefaultsByRole | app/dashboard/page.tsx:100-119 | without a list: admin gets overview, analytics, bookings and gaming; client gets overview, bookings and gaming; every other role, super admin included, gets overview only |
| Dashboard.SuperAdminDefaultLayout | app/dashboard/page.tsx:119 | a super admin without a list sees only the stats grid with its Active Users card |
| Dashboard.OverrideIgnoresRole | app/dashboard/page.tsx:122 | two users with the same non-empty list resolve to the same modules whatever their roles |
| Dashboard.EmptyListIsNoList | app/dashboard/page.tsx:96 | an empty list and an absent list resolve alike |
| Dashboard.BlankListShowsNothing | app/dashboard/page.tsx:122 | a list of only `""` resolves to no module and hides the grid, the charts and the recent bookings |
| Dashboard.AgreesWithSidebar | app/dashboard/page.tsx:122 | with an explicit list, the dashboard's module set and the sidebar's override hold the same keys |
| AuthContext.HasRole | contexts/AuthContext.tsx:109-118 | true exactly when there is a user whose role is one of the accepted roles, compared as exact strings |
| AuthContext.IsAdmin | contexts/AuthContext.tsx:120 | true exactly for a signed-in user with role `admin` |
| AuthContext.IsClient | contexts/AuthContext.tsx:121 | true exactly for a signed-in user with role `client` |
| AuthContext.IsAuthenticated | contexts/AuthContext.tsx:131 | true exactly when a user is present |
| AuthContext.NoSuperAdminBypass | contexts/AuthContext.tsx:112-113 | a super admin is refused by any role list that does not name `super_admin` |
| AuthContext.RoleCaseMatters | contexts/AuthContext.tsx:113-115 | role `"Admin"` is neither admin nor accepted by `["admin", "client"]` |
| AuthContext.HasRoleWidens | contexts/AuthContext.tsx:112-113 | a role a list accepts is accepted by any list extending it |
| AuthContext.ProfileFor | contexts/AuthContext.tsx:75 | a profile is returned exactly when a non-empty access token is stored and known to the backend, and it is that token's user |
| AuthContext.AuthProvider.constructor | contexts/AuthContext.tsx:59-60 | no user and loading at start |
| AuthContext.AuthProvider.LoadUser | contexts/AuthContext.tsx:73-85 | the session becomes the profile answered for the stored access token; when there is none, only the access token is removed and nothing else in storage changes; loading ends either way |
| AuthContext.AuthProvider.Initialize | contexts/AuthContext.tsx:63-71 | the profile is fetched exactly when an access token is stored; otherwise user and storage are untouched; when fetched, the user is the profile and storage loses the access token exactly when no profile came back; the refresh token is never touched; loading ends either way |
| AuthContext.AuthProvider.Login | contexts/AuthContext.tsx:87-97 | a rejected login changes nothing and propagates; otherwise the tokens are stored, the profile is loaded with the new access token, and the result is navigation to `/dashboard` |
| AuthContext.AuthProvider.Logout | contexts/AuthContext.tsx:99-107 | the logout request carries the refresh token stored beforehand; both tokens are cleared, the user is emptied, and navigation goes to `/login` |
| ProtectedRoute.Decide | components/auth/ProtectedRoute.tsx:20-44 | placeholder and no redirect while loading; loaded without a session: `LoginRedirect` of the path, placeholder; children exactly when loaded, signed in and the role fits (then no redirect); nothing rendered exactly for a refused role, with a redirect to `/dashboard` |
| ProtectedRoute.LoginRedirectShape | components/auth/ProtectedRoute.tsx:23 | `LoginRedirect` is `/login?next=` followed by the encoded path: well-escaped, so no raw `&`, `#` or `?` leaks out of the parameter, and never shorter than the path |
| ProtectedRoute.DashboardRefusesOtherRoles | app/dashboard/layout.tsx:12 | every role but admin and client, `super_admin` and `user` included, is sent to `/dashboard` with nothing rendered |
| ProtectedRoute.ClientsPagesAdmitOnlyAdmins | app/dashboard/clients/layout.tsx:11 | the businesses pages render their children exactly for admins |
| ProtectedRoute.ClientsPagesRefuseOthers | app/dashboard/clients/layout.tsx:11 | any other role is sent to `/dashboard` from the businesses pages with nothing rendered |
| ProtectedRoute.NoRoleListAdmitsEverySession | components/auth/ProtectedRoute.tsx:24 | without a role list every session sees the children |
| UsersPage.StartingSet | app/dashboard/users/page.tsx:74-76 | the set a toggle starts from has no duplicates and holds exactly the stored keys (none for an absent or empty list); a stored list without repeats is kept as it is, in its order |
| UsersPage.StartingSetKeepsFirstOccurrence | app/dashboard/users/page.tsx:74-76 | a key repeated after a list without repeats adds nothing: the starting set is that list, so each key keeps the place of its first occurrence |
| UsersPage.Toggle | app/dashboard/users/page.tsx:78-82 | flips the chosen key's membership and no other; an added key goes last; a removal keeps the order of the rest; no duplicates |
| UsersPage.ToggleEmpties | app/dashboard/users/page.tsx:84-85 | a toggle empties the set exactly when it removes the set's only key |
| UsersPage.NextModules | app/dashboard/users/page.tsx:70-85 | never an empty list; `null` exactly when the toggle removes the only key; otherwise the toggled set in insertion order |
| UsersPage.Members | app/dashboard/users/page.tsx:74-76 | the keys a stored list holds |
| UsersPage.ToggleFlipsOneKey | app/dashboard/users/page.tsx:74-85 | after sending, the chosen key's membership is flipped and every other key's is unchanged |
| UsersPage.ToggleTwiceRestores | app/dashboard/users/page.tsx:78-82 | toggling the same key twice gives back the same keys, and the same sequence when the key was absent |
| UsersPage.ToggleTwiceThroughServer | app/dashboard/users/page.tsx:84-94 | two clicks on the same chip, each stored as sent, restore the original keys |
| UsersPage.RemovingLastKeySendsNull | app/dashboard/users/page.tsx:84-85 | removing the last key sends `null`, also when the stored list repeats it |
| UsersPage.FirstClickSendsOneKey | app/dashboard/users/page.tsx:74-76 | from an absent or empty list a click sends a one-key list |
| UsersPage.ReplaceById | app/dashboard/users/page.tsx:92-94 | same length; users with another id unchanged; users with the id replaced |
| UsersPage.ReplaceUnknownIdIsIdentity | app/dashboard/users/page.tsx:92-94 | an id nobody has leaves the list unchanged |
| UsersPage.ReplaceKeepsIds | app/dashboard/users/page.tsx:92-94 | replacing with a record of the same id keeps every id in place |
| UsersPage.RoleCounts | app/dashboard/users/page.tsx:66-68 | total is the list's length; admins and clients each at most the total; all zero for an empty list |
| UsersPage.RoleCountsStep | app/dashboard/users/page.tsx:66-68 | appending a user adds one to the total, one to admins exactly when its role is `admin`, and one to clients exactly when its role is `client`; with the empty case this determines every count |
| UsersPage.AdminsAndClientsAreDisjoint | app/dashboard/users/page.tsx:66-68 | admins plus clients never exceed the total |
| UsersPage.ChipChecked | app/dashboard/users/page.tsx:214-216 | a chip is lit exactly when its non-empty key is in the user's list |
| UsersPage.ClickFlipsOnlyThatChip | app/dashboard/users/page.tsx:232 | once the sent list is stored, the clicked chip flips and every other chip keeps its state |
| UsersPage.Page.constructor | app/dashboard/users/page.tsx:37-40 | empty list, loading, no error, no save in progress |
| UsersPage.Page.LoadUsers | app/dashboard/users/page.tsx:42-64 | the fetched list with no error, or the old list with the error's message or "Failed to load users"; loading ends |
| UsersPage.Page.HandleToggleModule | app/dashboard/users/page.tsx:70-100 | sends `NextModules`; on success only the user with that id is replaced; on failure the list is kept and the message or "Failed to update modules" is shown; the saving marker is cleared either way |
| Api.WithTokens | lib/api.ts:17-26 | the access token is always written; the refresh token is overwritten only by a non-empty one; other keys are untouched |
| Api.Cleared | lib/api.ts:28-32 | both token keys are gone and every other key is untouched |
| Api.TokenStore.GetAccessToken | lib/api.ts:7-10 | a token exactly when storage holds the `token` key, and then its stored value |
| Api.TokenStore.GetRefreshToken | lib/api.ts:12-15 | a token exactly when storage holds the `refresh_token` key, and then its stored value |
| Api.ClearedForgetsTokens | lib/api.ts:17-32 | clearing after storing tokens leaves storage as clearing alone would |
| Api.TokenStore.constructor | lib/api.ts:7-15 | storage starts with the given items |
| Api.TokenStore.SetAuthTokens | lib/api.ts:17-26 | new storage is `WithTokens` of the old; the access token reads back; the refresh token reads back only if a non-empty one was given |
| Api.TokenStore.ClearAuthTokens | lib/api.ts:28-32 | new storage is `Cleared` of the old; neither token reads back |
| Api.PrepareHeaders | lib/api.ts:40-46 | form data keeps the caller's headers; otherwise a set Content-Type is kept and a missing or empty one becomes `application/json`; no other header changes |
| Api.AttachAuthHeader | lib/api.ts:48-55 | `Bearer <token>` for a non-empty stored token, no Authorization header otherwise; no other header changes |
| Api.FirstHeaders | lib/api.ts:40-55 | the first request's headers: the caller's, Content-Type kept when set or the body is form data and `application/json` otherwise, and `Bearer <token>` exactly when a non-empty access token is stored; no other header changes |
| Api.RetryHeaders | lib/api.ts:48-64 | the retry's headers: `Bearer <new token>` as Authorization, every other header as in the first request |
| Api.Settle | lib/api.ts:104-120 | a non-ok response fails with the server's non-empty JSON message, and with "Request failed" when there is none; 204 yields no content; a network failure is a transport error; an ok non-204 JSON body is returned as its fields; a JSON error exactly for an ok non-204 body that does not parse |
| Api.ApiFetch | lib/api.ts:34-121 | one to three requests; the first carries `FirstHeaders`; the refresh request is sent exactly for a 401 off the login and refresh paths with a stored refresh token; the retry happens only when the refresh grants an access token, and carries the first request's headers with only Authorization replaced by the new token; a failed refresh clears both tokens and the first response decides; a refresh without an access token keeps storage; a failed retry clears the tokens and the first response decides; otherwise the retry's response decides and the new tokens are stored |
| Api.LogoutBody | lib/api.ts:137-147 | a body exactly when the explicit token, or else the stored refresh token, is non-empty, and then `{refresh_token: token}` |
| Api.ClientQuery | lib/api.ts:322 | empty exactly for a missing or empty client id; otherwise `?clientId=` followed by a well-escaped encoding |
| Api.PlainClientIdIsKept | lib/api.ts:322 | a non-empty client id of unreserved characters appears in the query unchanged |
| Api.LocationsPath | lib/api.ts:321-324 | `/locations` alone, or followed by the client query |
| Api.GamingCentersPath | lib/api.ts:352-355 | `/gaming` alone, or followed by the client query |
| Uri.EncodeUriComponent | lib/api.ts:322 | the encoding is made of unreserved characters and upper-case `%XX` escapes, and is never shorter than the input |
| Uri.EncodeUnreservedIsIdentity | lib/api.ts:322 | a string of unreserved characters encodes to itself |
| ClientsPage.FormatStatusExamples | app/dashboard/clients/page.tsx:23-25 | the status label upper-cases the first letter: "pending" is "Pending", "active" is "Active" |
| Text.CapitalizeFirst | app/dashboard/clients/page.tsx:24 | same length; the first character upper-cased and the rest unchanged |
| ClientsPage.StatusBadgeClasses | app/dashboard/clients/page.tsx:27-40 | success exactly for active and approved, warning exactly for pending, error exactly for rejected and suspended, neutral otherwise |
| ClientsPage.DeclaredStatusesAreColoured | app/dashboard/clients/page.tsx:27-40 | every declared status gets a coloured badge |
| ClientsPage.FilterClients | app/dashboard/clients/page.tsx:85-99 | a sub-list in list order holding exactly the businesses that match both the search and the status |
| ClientsPage.NoFilterShowsAll | app/dashboard/clients/page.tsx:85-99 | no query and no status show the whole list |
| ClientsPage.SearchIgnoresCase | app/dashboard/clients/page.tsx:88-89 | two queries that agree once lower-cased match the same businesses |
| ClientsPage.SearchIgnoresNameCase | app/dashboard/clients/page.tsx:88-89 | a company name that differs only in ASCII case matches the same queries |
| ClientsPage.NameContainingQueryMatches | app/dashboard/clients/page.tsx:88-89 | a company name that contains a non-empty query matches it |
| ClientsPage.BlankCityNeverMatches | app/dashboard/clients/page.tsx:92-93 | a null or empty city never makes a business match |
| ClientsPage.ClientStats | app/dashboard/clients/page.tsx:101-106 | total is the list's length; pending and active each at most the total; all zero for an empty list |
| ClientsPage.ClientStatsStep | app/dashboard/clients/page.tsx:101-106 | appending a business adds one to the total, one to pending exactly when its status is `pending`, and one to active exactly when it is `active` |
| ClientsPage.PendingAndActiveAreDisjoint | app/dashboard/clients/page.tsx:101-106 | pending plus active never exceed the total |
| ClientsPage.FormFor | app/dashboard/clients/page.tsx:108-120 | the company name is copied; each of contact name, email, phone, city, country and logo URL is copied when present and non-null, and is `""` otherwise |
| ClientsPage.Pick | app/dashboard/clients/page.tsx:136-138 | a field the answer carries wins; a field it leaves out keeps the stored value |
| ClientsPage.Merge | app/dashboard/clients/page.tsx:136-138 | id, user id, company name and status come from the answer; contact name, email, phone, city, country, logo URL and the two counts are each the answer's when it carries the field and the stored one otherwise |
| ClientsPage.MergeIdempotent | app/dashboard/clients/page.tsx:136-138 | merging the same answer twice changes nothing more |
| ClientsPage.FullAnswerReplaces | app/dashboard/clients/page.tsx:136-138 | an answer carrying every field replaces the stored record |
| ClientsPage.MergeById | app/dashboard/clients/page.tsx:136-138 | same length; only entries with the answer's id are merged |
| ClientsPage.MergeByIdKeepsIds | app/dashboard/clients/page.tsx:136-138 | merging keeps every entry's id |
| ClientsPage.Page.constructor | app/dashboard/clients/page.tsx:45-56 | empty list, loading, no error, no dialog |
| ClientsPage.Page.LoadClients | app/dashboard/clients/page.tsx:58-83 | the fetched list with no error, or the old list with the message or "Failed to load businesses"; loading ends; the dialog is untouched |
| ClientsPage.Page.OpenEdit | app/dashboard/clients/page.tsx:108-120 | the dialog opens on the business with `FormFor` and no error |
| ClientsPage.Page.CloseEdit | app/dashboard/clients/page.tsx:122-127 | the dialog closes and its form, error and busy flag reset |
| ClientsPage.Page.HandleSaveEdit | app/dashboard/clients/page.tsx:129-144 | nothing happens without an open dialog; otherwise the form is sent for the edited id; success merges by id and closes the dialog; failure keeps the list and shows the message or "Failed to update business"; the busy flag clears |
| FacilitiesPage.FormatFacilityType | app/dashboard/facilities/page.tsx:46-48 | the label of a known type key, otherwise the raw type |
| FacilitiesPage.FormatFacilityTypeExamples | app/dashboard/facilities/page.tsx:32-52 | `ps5` is "PS5", `table-tennis-table` is "Table Tennis Table", an unknown type is unchanged, and status `maintenance` is shown as "Maintenance" |
| FacilitiesPage.KnownTypesAreRelabelled | app/dashboard/facilities/page.tsx:32-44 | no known type is shown under its raw key |
| FacilitiesPage.BlankForm | app/dashboard/facilities/page.tsx:67-74 | the blank form: given location, empty name, type "other", status active, no capacity |
| FacilitiesPage.FilterFacilities | app/dashboard/facilities/page.tsx:157-170 | a sub-list in list order holding exactly the facilities that pass the name search, the type and the location filters |
| FacilitiesPage.NoFilterShowsAll | app/dashboard/facilities/page.tsx:157-170 | empty filters keep every facility |
| FacilitiesPage.LocationFilterExcludes | app/dashboard/facilities/page.tsx:166 | once a location is picked, a facility elsewhere is never listed |
| FacilitiesPage.FacilityStats | app/dashboard/facilities/page.tsx:172-179 | total is the list's length; active and maintenance each at most the total; all zero for an empty list |
| FacilitiesPage.FacilityStatsStep | app/dashboard/facilities/page.tsx:172-179 | appending a facility adds one to the total, one to active exactly when its status is `active`, and one to maintenance exactly when it is `maintenance` |
| FacilitiesPage.ActiveAndMaintenanceAreDisjoint | app/dashboard/facilities/page.tsx:172-179 | active plus maintenance never exceed the total |
| FacilitiesPage.Validate | app/dashboard/facilities/page.tsx:126-133 | "Facility name is required" exactly for a blank name; "Please select a location" exactly for a named form without a location; no problem otherwise |
| FacilitiesPage.NameIsCheckedFirst | app/dashboard/facilities/page.tsx:126-133 | a blank name is reported as missing whatever the location, also when the location is missing too |
| FacilitiesPage.IndexByIdHasEveryId | app/dashboard/facilities/page.tsx:149-155 | every location's id is a key of the index |
| FacilitiesPage.IndexByIdLastWins | app/dashboard/facilities/page.tsx:149-155 | only ids are keys, and each maps to the last location with that id |
| FacilitiesPage.LocationById | app/dashboard/facilities/page.tsx:149-155 | the loop builds exactly the index `IndexById` specifies |
| FacilitiesPage.LocationLabel | app/dashboard/facilities/page.tsx:340-345 | an unknown location is labelled by its id; a known one with only a name is labelled by that name |
| FacilitiesPage.LocationLabelExample | app/dashboard/facilities/page.tsx:340-345 | name and city joined by ", ", with the empty country left out; the raw id when the index lacks it |
| FacilitiesPage.AddFacilityVisible | app/dashboard/facilities/page.tsx:195 | the button shows exactly for a client or before any user is known |
| FacilitiesPage.Page.constructor | app/dashboard/facilities/page.tsx:56-74 | empty lists, loading, closed dialog, blank form |
| FacilitiesPage.Page.LoadData | app/dashboard/facilities/page.tsx:80-99 | both lists arrive together with no error, or both are kept and the message or "Failed to load facilities" is shown; loading ends |
| FacilitiesPage.Page.OpenCreateModal | app/dashboard/facilities/page.tsx:101-111 | the dialog opens with a blank form preset to the first location, or to none |
| FacilitiesPage.Page.CloseModal | app/dashboard/facilities/page.tsx:113-123 | the dialog closes and the form is blank |
| FacilitiesPage.Page.HandleSave | app/dashboard/facilities/page.tsx:125-147 | an invalid form only sets its message and sends nothing; a valid one is sent; success closes the dialog, resets the form and reloads: a successful reload replaces both lists and clears the error, a failed one keeps both lists and shows the message or "Failed to load facilities"; failure of the create keeps the dialog and shows the message or "Failed to create facility"; saving ends |
| ChangePassword.Utf16Length | app/change-password/page.tsx:25 | `length` counts UTF-16 units: between the character count and twice it, equal to it for text within the Basic Multilingual Plane |
| ChangePassword.AstralCharactersCountTwice | app/change-password/page.tsx:25 | three characters outside the Basic Multilingual Plane already pass the 6-unit rule |
| ChangePassword.SubmitProblem | app/change-password/page.tsx:25-32 | the short-password message exactly below 6 units; the mismatch message exactly for a long enough password whose confirmation differs; no problem otherwise |
| ChangePassword.LengthIsCheckedFirst | app/change-password/page.tsx:25-32 | a password shorter than 6 units is reported as short whatever the confirmation |
| ChangePassword.SubmitProblemExamples | app/change-password/page.tsx:25-32 | `abc`/`xyz` is too short, `abcdef`/`abcdeg` do not match, `abcdef`/`abcdef` pass |
| ChangePassword.RedirectTarget | app/change-password/page.tsx:16-20 | a redirect exactly once loading is over and nobody is signed in, and it is `ProtectedRoute.LoginRedirect` of this page's path |
| ChangePassword.SlashIsEscaped | app/change-password/page.tsx:18 | `/` encodes as `%2F` |
| ChangePassword.TopLevelPageRedirect | app/change-password/page.tsx:18 | for a top-level page with an unreserved name, only the slash is escaped: `/login?next=%2F` followed by the name |
| ChangePassword.PageNameIsUnreserved | app/change-password/page.tsx:18 | the page's name `change-password` is made of unreserved characters |
| ChangePassword.RedirectSpelledOut | app/change-password/page.tsx:16-20 | loaded and signed out, the page redirects to `/login?next=%2Fchange-password` |
| ChangePassword.HiddenFormMeansWaitingOrLeaving | app/change-password/page.tsx:44-50 | while the form is hidden, loading goes on or the redirect is issued |
| ChangePassword.Page.constructor | app/change-password/page.tsx:10-14 | empty fields, no error, not busy |
| ChangePassword.Page.HandleSubmit | app/change-password/page.tsx:22-42 | a failed check sets its message and calls nothing; otherwise `changePassword(current, new)` is called; success navigates to `/dashboard`; failure shows the message or "Failed to change password"; the busy flag is false afterwards |

## Left out

- Network I/O, JSON parsing and `FormData` uploads. Replies are inputs: a `Result` per call, and a script of replies in `apiFetch`.
- The `typeof window` checks. Storage always exists in the model.
- `localStorage` beyond the two token keys the core touches. Storage is a map.
- React scheduling (`useState`, `useMemo`, `useEffect`) and the `isMounted` cancellation. Each handler is one sequential step, so interleavings of concurrent handlers are not modelled.
- Router navigation. It is a returned value, not a side effect.
- AuthContext.AuthProvider.LoadUser: the profile request goes through `apiFetch`, whose refresh-and-retry is not modelled here. `AuthContext.ProfileFor` answers from the stored access token directly. In the program, a returning user whose access token has expired but whose refresh token is valid is signed back in with new tokens; the model signs them out and removes only the access token. In the program, a failed refresh during that call also clears both tokens; the model keeps the refresh token.
- `changePassword`: the page takes it from the session store, but contexts/AuthContext.tsx does not define it. Its outcome is an input.
- `createFacilityApi`, `getFacilitiesApi`, `getClientsApi`, `updateClientApi`, `getUsersApi` and `updateUserModulesApi` are not part of this model beyond their outcomes.
- `FacilitiesPage.Page.LoadData`: the two calls of `Promise.all` are one combined reply. Which call failed first is not modelled.
- Text.ToLower: lower-cases ASCII letters only. JavaScript's full Unicode case mapping is not modelled.
- Text.CapitalizeFirst: upper-cases an ASCII first letter only, for the same reason.
- Uri.EncodeUriComponent: a lone surrogate, on which `encodeURIComponent` throws, cannot occur, because Dafny characters are Unicode scalar values.
- `FacilitiesPage.FormatFacilityType` does not model inherited object keys such as `constructor` looked up in the label table.
- Location fields other than id, client id, name, city and country.
- The navigation icons, page metadata, and every presentational component and sample-data page.
- The `handleViewLocations` navigation of the businesses page. It is a single `router.push` with an encoded id.
