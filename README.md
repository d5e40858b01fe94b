# Role-based dashboard: a verified model of its core

This project models the logic underneath a small role-based dashboard written in
TypeScript and React. Three roles (admin, merchant, member) sign in through login
forms. A session slice keeps `{token, role}` and writes it through to the browser's
`localStorage`. A route guard admits a session only onto its own role's dashboard.
The dashboards edit lists of users, purchases, customers and notifications. The
layout components cut the current path into breadcrumbs and pick the navigation
links for a role.

The model is written in Dafny, one module per source file:

- `AuthSlice`: the slice as a class whose `storage` field is the key-value snapshot.
- `ProtectedRoute`: the guard as a pure decision.
- `AppRoutes`: the route table.
- `AdminLogin` and `MemberLogin`: the login forms as classes that commit a session into an `AuthStore`.
- `DataSlice` and `MerchantSlice`: the list reducers as classes, with a shared find-first loop in `SliceRecords`.
- `MerchantDashboard` and `AdminDashboard`: the dashboards' list logic as functions over sequences, plus a class holding each page's state.
- `BreadcrumbNav`: the breadcrumb loop as a method.
- `DashboardLayout`: the sidebar configuration, current-link marking, header breadcrumbs and avatar initials.
- `Navigation`: the public navigation bar.

`Roles`, `Badges`, `Optional`, `Seqs` and `Text` hold the shared vocabulary. That is
the role type, the badge variants, an option type, and the array and string
built-ins the code calls (`filter`, `map`, `includes`, `split`, `join`, case mapping
and number-to-string).

Each asynchronous handler is one atomic step. Its loading flag ends false. A router
navigation is recorded as the target path. The current date, the email-format check
and the initial fixture lists are parameters.

Where the intended design and the code differ, the model follows the code:

- A stored role that names no role is loaded as it is, not turned into "no session"
  (`AuthSlice.LoadKeepsUnknownRole`). The guard still redirects such a session on every
  view (`ProtectedRoute.UnknownRoleRedirected`).
- A snapshot holding only a token loads as a session with no role
  (`AuthSlice.LoadMayBeUnpaired`). Both reducers keep token and role paired.
- The guard reads `isAuthenticated` and `userRole` from the auth state, which holds only
  `token` and `role`. As written both read `undefined`, so the guard redirects every
  visitor, even right after a login (`ProtectedRoute.WrittenGuard`, see "## Findings").
  The guard itself is modelled over those two values (`ProtectedRoute.Guard`), and
  everything that ties it to the slice uses the evidently intended binding:
  `isAuthenticated` means "a token is present" and `userRole` is the slice's `role`
  (`ProtectedRoute.SessionGuard`).
- The navigation bar's own logout removes five profile keys but not `token` or `role`.
  Under the intended binding, a reload after it therefore still admits the session
  (`Navigation.LogoutStillAdmitted`).
- Routes match as the router's defaults make them match: letter case is ignored and
  trailing slashes are dropped (`AppRoutes.Matches`).

## Model

| member | source | states |
|---|---|---|
| Roles.ParseRole | src/utils/constants.ts:1-7 | a string names a role exactly when it equals that role's value; any other string names none |
| Roles.ParseRoleName | src/utils/constants.ts:1-7 | every role's value parses back to that role |
| Roles.RoleNameInjective | src/utils/constants.ts:1-7 | two roles have the same value only if they are the same role |
| Optional.Get | src/features/auth/authSlice.ts:10-11 | `getItem` is present exactly for stored keys and then returns the stored value |
| AuthSlice.LoadState | src/features/auth/authSlice.ts:9-12 | the initial state agrees with the snapshot key by key; token and role are present exactly when their keys are |
| AuthSlice.StoreLogin | src/features/auth/authSlice.ts:27-28 | after login the snapshot holds the token and role keys with the new values; every other key is unchanged |
| AuthSlice.StoreLogout | src/features/auth/authSlice.ts:33-34 | after logout both session keys are gone; every other key is unchanged |
| AuthSlice.LoginRoundTrip | src/features/auth/authSlice.ts:9-12 | re-reading the snapshot after a login gives exactly the committed session, which is paired |
| AuthSlice.LogoutRoundTrip | src/features/auth/authSlice.ts:9-12 | re-reading the snapshot after a logout gives the signed-out state |
| AuthSlice.LogoutIdempotent | src/features/auth/authSlice.ts:30-35 | logging out twice leaves the snapshot as logging out once |
| AuthSlice.LoadMayBeUnpaired | src/features/auth/authSlice.ts:9-12 | the startup read does not enforce pairing: a lone token loads without a role |
| AuthSlice.LoadKeepsUnknownRole | src/features/auth/authSlice.ts:11 | the startup read does not check the role: an unknown role string is loaded as it is |
| AuthSlice.AuthStore.constructor | src/features/auth/authSlice.ts:9-12 | the store starts from the snapshot's session, and state and snapshot agree |
| AuthSlice.AuthStore.LoginSuccess | src/features/auth/authSlice.ts:23-29 | the state becomes exactly the new session, nothing of the old one survives, the snapshot is the login snapshot, and state and snapshot still agree and are paired |
| AuthSlice.AuthStore.Logout | src/features/auth/authSlice.ts:30-35 | both fields become null, the snapshot loses both keys, and state and snapshot still agree |
| ProtectedRoute.Guard | src/routes/ProtectedRoute.tsx:10-19 | children render if and only if authenticated with exactly the required role; otherwise a replacing redirect to the required role's login page carrying the location |
| ProtectedRoute.UnauthenticatedRedirected | src/routes/ProtectedRoute.tsx:14-15 | an unauthenticated visitor is redirected whatever role value is present |
| ProtectedRoute.NoRoleHierarchy | src/routes/ProtectedRoute.tsx:14-15 | a session of one role is refused on every other role's view and sent to that other role's login page |
| ProtectedRoute.WrittenGuardAdmitsNobody | src/routes/ProtectedRoute.tsx:11-15 | as written, with both fields undefined, the guard redirects on every view whatever the state |
| ProtectedRoute.WrittenGuardRefusesFreshLogin | src/routes/ProtectedRoute.tsx:11-15 | in the state a login installs, the guard as written redirects on the role's own view, where the intended binding admits it |
| ProtectedRoute.SessionGuardRule | src/routes/ProtectedRoute.tsx:11-14 | under the intended binding ("authenticated" means "a token is present"), the guard admits exactly a token plus an equal role |
| ProtectedRoute.UnknownRoleRedirected | src/routes/ProtectedRoute.tsx:14-15 | a stored role naming no role is redirected on every role's view |
| ProtectedRoute.GuardAfterLoginReload | src/features/auth/authSlice.ts:23-29 | under the intended binding, after a login and a reload, the guard admits the session on a role's view exactly when it is the logged-in role |
| ProtectedRoute.GuardAfterLogoutReload | src/features/auth/authSlice.ts:30-35 | after a logout and a reload, every role's view redirects (under the intended binding; as written it redirects anyway) |
| AppRoutes.TrimmedPrefix | src/routes/AppRoutes.tsx:14 | the trimmed path is a prefix of the path followed only by slashes, and does not end in a slash |
| AppRoutes.RouteKeyLength | src/routes/AppRoutes.tsx:15-42 | the trimmed route patterns have pairwise distinct lengths |
| AppRoutes.AtMostOneRouteMatches | src/routes/AppRoutes.tsx:14-43 | no location path matches two routes of the table |
| AppRoutes.FindRoute | src/routes/AppRoutes.tsx:14-43 | the route found is in the table and its pattern matches the path ignoring case and trailing slashes; nothing found means no pattern matches |
| AppRoutes.FindRouteAt | src/routes/AppRoutes.tsx:14-43 | the first route whose pattern matches is the one found |
| AppRoutes.FindMatching | src/routes/AppRoutes.tsx:14-43 | a path matching a route's pattern finds exactly that route |
| AppRoutes.RoutePathsDistinct | src/routes/AppRoutes.tsx:15-42 | the table has seven routes with pairwise distinct paths |
| AppRoutes.PublicPathsUnguarded | src/routes/AppRoutes.tsx:15-18 | the landing page and the three login pages show for every session, on every path their patterns match |
| AppRoutes.CaseAndTrailingSlashIgnored | src/routes/AppRoutes.tsx:16 | "/Login/Admin/" shows the admin login page |
| AppRoutes.DashboardGuardedByItsRole | src/routes/AppRoutes.tsx:19-42 | every path matching a role's dashboard pattern finds that role's guard around that role's dashboard |
| AppRoutes.GuardedRoutesAreDashboards | src/routes/AppRoutes.tsx:19-42 | every guarded route is a dashboard path whose guard requires the role the path names |
| AppRoutes.ExactlyOwnDashboard | src/routes/AppRoutes.tsx:19-42 | a signed-in role sees a dashboard if and only if it is its own; any other dashboard redirects to that dashboard's login |
| AppRoutes.VisitGuardedRoute | src/routes/AppRoutes.tsx:19-42 | a guarded route shows its page exactly when its guard admits the session |
| AppRoutes.AdmittedOnlyOnOwnDashboard | src/routes/AppRoutes.tsx:19-42 | over all paths, a role's session passes a guard exactly on the paths its own dashboard pattern matches |
| AppRoutes.SignedOutDashboardRedirects | src/routes/AppRoutes.tsx:19-42 | signed out, every dashboard redirects to its login page |
| AppRoutes.UnknownPathNoMatch | src/routes/AppRoutes.tsx:14-43 | a path no pattern matches shows nothing |
| AdminLogin.SchemaErrors | src/pages/auth/AdminLogin.tsx:18-21 | the email fails exactly when it is not an email, the password exactly when shorter than six UTF-16 code units; no errors exactly when both pass |
| AdminLogin.ShortPasswordRefused | src/pages/auth/AdminLogin.tsx:20 | a password under six code units is always refused |
| AdminLogin.PasswordLengthInCharacters | src/pages/auth/AdminLogin.tsx:20 | six or more characters always pass the length check, fewer than three never do |
| AdminLogin.ThreeEmojiPasswordLongEnough | src/pages/auth/AdminLogin.tsx:20 | three emoji count as six units and pass the length check |
| AdminLogin.AdminLoginForm.constructor | src/pages/auth/AdminLogin.tsx:32-34 | the form starts empty, without errors, not loading |
| AdminLogin.AdminLoginForm.HandleChange | src/pages/auth/AdminLogin.tsx:36-38 | only the named field takes the new value |
| AdminLogin.AdminLoginForm.HandleSubmit | src/pages/auth/AdminLogin.tsx:40-57 | valid input commits the admin session with its fixed token and goes to the admin dashboard; invalid input leaves the store untouched and records one error per failing field; loading ends false |
| MemberLogin.SchemaErrors | src/pages/auth/MemberLogin.tsx:19-22 | the contact fails exactly when shorter than three UTF-16 code units, the password exactly when shorter than six; no errors exactly when both pass |
| MemberLogin.MemberLoginForm.constructor | src/pages/auth/MemberLogin.tsx:27-34 | the form starts empty, not loading, on the send-code step |
| MemberLogin.MemberLoginForm.Edit | src/pages/auth/MemberLogin.tsx:109-123 | only the edited field takes the new value |
| MemberLogin.MemberLoginForm.EditOtpCode | src/pages/auth/MemberLogin.tsx:178 | only the code changes |
| MemberLogin.MemberLoginForm.HandlePasswordSubmit | src/pages/auth/MemberLogin.tsx:36-53 | valid input commits the member session and goes to the member dashboard; invalid input leaves the store untouched and records the failing fields |
| MemberLogin.MemberLoginForm.HandleSendOtp | src/pages/auth/MemberLogin.tsx:55-61 | the error clears and the code input shows; nothing else changes |
| MemberLogin.MemberLoginForm.BackToSendOtp | src/pages/auth/MemberLogin.tsx:194 | the code input hides; nothing else changes |
| MemberLogin.MemberLoginForm.HandleOtpSubmit | src/pages/auth/MemberLogin.tsx:63-71 | whatever code was typed, the member session is committed and the member dashboard opened |
| SliceRecords.FindPurchase | src/features/data/dataSlice.ts:66 | the index found is the first purchase with the id; none found means no purchase has it |
| SliceRecords.ApproveFirst | src/features/data/dataSlice.ts:65-70 | only the first purchase with the id becomes approved; every other purchase and the length are unchanged |
| SliceRecords.ApproveUnknownId | src/features/data/dataSlice.ts:67 | an id no purchase has changes nothing |
| SliceRecords.ApproveMarksFirst | src/features/data/dataSlice.ts:65-70 | the first match is approved and every other index is unchanged |
| SliceRecords.ApproveIdempotent | src/features/data/dataSlice.ts:65-70 | approving the same id twice is approving it once |
| SliceRecords.ApproveKeepsApproved | src/features/data/dataSlice.ts:65-70 | no approved purchase goes back to pending |
| DataSlice.WithoutUser | src/features/data/dataSlice.ts:71-73 | no user keeps the id, every other user stays with as many copies as before, and the order is kept |
| DataSlice.WithoutMerchant | src/features/data/dataSlice.ts:74-76 | no merchant keeps the id, every other merchant stays with as many copies as before, and the order is kept |
| DataSlice.DeleteUnknownUser | src/features/data/dataSlice.ts:71-73 | deleting an id nobody has leaves the list as it was |
| DataSlice.DeleteUserIdempotent | src/features/data/dataSlice.ts:71-73 | deleting twice is deleting once |
| DataSlice.DataStore.constructor | src/features/data/dataSlice.ts:50-59 | the store holds the given lists and points |
| DataSlice.DataStore.ApprovePurchase | src/features/data/dataSlice.ts:65-70 | the purchases become the first-match approval of the old list; users, merchants, notifications and points are unchanged |
| DataSlice.DataStore.DeleteUser | src/features/data/dataSlice.ts:71-73 | the users become the filtered list; everything else is unchanged |
| DataSlice.DataStore.DeleteMerchant | src/features/data/dataSlice.ts:74-76 | the merchants become the filtered list; everything else is unchanged |
| MerchantSlice.MerchantStore.constructor | src/features/merchant/merchantSlice.ts:22-32 | the store holds the given purchases, rate and notifications |
| MerchantSlice.MerchantStore.ApprovePurchase | src/features/merchant/merchantSlice.ts:38-43 | the first purchase with the id is approved in place; rate and notifications are unchanged |
| MerchantSlice.MerchantStore.SetContributionRate | src/features/merchant/merchantSlice.ts:44-46 | the rate becomes the given value; purchases and notifications are unchanged |
| MerchantDashboard.ComputeStats | src/pages/dashboard/merchant/MerchantDashboard.tsx:161-171 | the KPI counts are the pending, approved-today and unread counts; pending plus approved-today never exceed the purchases |
| MerchantDashboard.FilteredPurchases | src/pages/dashboard/merchant/MerchantDashboard.tsx:173-177 | exactly the purchases matching both filters, each with as many copies as the list has, in their original order |
| MerchantDashboard.FilterAllShowsEverything | src/pages/dashboard/merchant/MerchantDashboard.tsx:174-175 | with both filters at "all" every purchase is listed |
| MerchantDashboard.PurchaseAction | src/pages/dashboard/merchant/MerchantDashboard.tsx:183-187 | purchases with the id take the action's status; all others and the length are unchanged |
| MerchantDashboard.PurchaseActionPendingCount | src/pages/dashboard/merchant/MerchantDashboard.tsx:183-187 | after an action the pending count is the pending purchases with other ids |
| MerchantDashboard.PurchaseActionIdempotent | src/pages/dashboard/merchant/MerchantDashboard.tsx:183-187 | repeating an action changes nothing more |
| MerchantDashboard.BulkAction | src/pages/dashboard/merchant/MerchantDashboard.tsx:195-201 | every selected purchase takes the action's status; unselected ones are unchanged |
| MerchantDashboard.BulkActionPendingCount | src/pages/dashboard/merchant/MerchantDashboard.tsx:195-201 | after a bulk action the pending count is the unselected pending purchases |
| MerchantDashboard.SelectAll | src/pages/dashboard/merchant/MerchantDashboard.tsx:397-402 | checking selects the listed ids in order; unchecking empties the selection |
| MerchantDashboard.ToggleRow | src/pages/dashboard/merchant/MerchantDashboard.tsx:461-466 | checking appends the id; unchecking removes every copy of it and keeps every copy of the other ids, in order |
| MerchantDashboard.CustomerSearch | src/pages/dashboard/merchant/MerchantDashboard.tsx:206-218 | a blank query gives no results; otherwise exactly the customers whose name, email or member id contains the query ignoring case, each with as many copies as the list has, in order |
| MerchantDashboard.MarkNotificationRead | src/pages/dashboard/merchant/MerchantDashboard.tsx:226-232 | only notifications with the id become read |
| MerchantDashboard.MarkAllNotificationsRead | src/pages/dashboard/merchant/MerchantDashboard.tsx:234-236 | every notification becomes read, nothing else changes |
| MerchantDashboard.MarkReadUnreadCount | src/pages/dashboard/merchant/MerchantDashboard.tsx:226-232 | after marking one id the unread count is the unread notifications with other ids |
| MerchantDashboard.MarkAllReadClearsUnread | src/pages/dashboard/merchant/MerchantDashboard.tsx:234-236 | after marking all the unread count is zero, and marking all again changes nothing |
| MerchantDashboard.StatusBadgeVariant | src/pages/dashboard/merchant/MerchantDashboard.tsx:238-249 | approved, pending and rejected map to default, secondary and destructive; anything else to secondary |
| MerchantDashboard.TierBadgeVariant | src/pages/dashboard/merchant/MerchantDashboard.tsx:251-262 | Platinum and Gold map to default and secondary; anything else to outline |
| MerchantDashboard.MerchantDashboardState.constructor | src/pages/dashboard/merchant/MerchantDashboard.tsx:149-159 | the page starts with the given lists, no selection, empty search and both filters at "all" |
| MerchantDashboard.MerchantDashboardState.SetStatusFilter | src/pages/dashboard/merchant/MerchantDashboard.tsx:347 | only the status filter changes; every other field is unchanged |
| MerchantDashboard.MerchantDashboardState.SetDateFilter | src/pages/dashboard/merchant/MerchantDashboard.tsx:358 | only the date filter changes; every other field is unchanged |
| MerchantDashboard.MerchantDashboardState.SetCustomerSearch | src/pages/dashboard/merchant/MerchantDashboard.tsx:530 | only the query changes; the results wait for the search button and every other field is unchanged |
| MerchantDashboard.MerchantDashboardState.HandlePurchaseAction | src/pages/dashboard/merchant/MerchantDashboard.tsx:179-189 | the purchases become the single action's result and loading ends false; the selection and every other field are unchanged |
| MerchantDashboard.MerchantDashboardState.HandleBulkAction | src/pages/dashboard/merchant/MerchantDashboard.tsx:191-204 | the purchases become the bulk result for the old selection, the selection empties and loading ends false; every other field is unchanged |
| MerchantDashboard.MerchantDashboardState.HandleCustomerSearch | src/pages/dashboard/merchant/MerchantDashboard.tsx:206-218 | the results become the search over the current query; every other field is unchanged |
| MerchantDashboard.MerchantDashboardState.MarkNotificationAsRead | src/pages/dashboard/merchant/MerchantDashboard.tsx:226-232 | the notifications become the one-id marking; every other field is unchanged |
| MerchantDashboard.MerchantDashboardState.MarkAllNotificationsAsRead | src/pages/dashboard/merchant/MerchantDashboard.tsx:234-236 | every notification becomes read; every other field is unchanged |
| MerchantDashboard.MerchantDashboardState.SelectAllChanged | src/pages/dashboard/merchant/MerchantDashboard.tsx:397-402 | the selection becomes the ids of the purchases listed under the current filters, or empty; every other field is unchanged |
| MerchantDashboard.MerchantDashboardState.RowSelectionChanged | src/pages/dashboard/merchant/MerchantDashboard.tsx:461-466 | the selection gains or loses the row's id; every other field, hence the listed purchases, is unchanged |
| AdminDashboard.FilteredUsers | src/pages/dashboard/admin/AdminDashboard.tsx:122-132 | exactly the users matching search, role and status, each with as many copies as the list has, in order; "all" is a wildcard and a null or empty store field never matches |
| AdminDashboard.EmptySearchMatchesEveryone | src/pages/dashboard/admin/AdminDashboard.tsx:123-127 | the empty search term matches every user |
| AdminDashboard.NoFilterShowsEveryone | src/pages/dashboard/admin/AdminDashboard.tsx:122-132 | with an empty term and both selects at "all" the whole list is shown |
| AdminDashboard.StorelessMatchesByNameOrEmail | src/pages/dashboard/admin/AdminDashboard.tsx:126-127 | a user without a store is found only through name or email |
| AdminDashboard.ComputeStats | src/pages/dashboard/admin/AdminDashboard.tsx:134-138 | the total is the list length, the others are filter counts, and active plus pending never exceed the total |
| AdminDashboard.StatusChange | src/pages/dashboard/admin/AdminDashboard.tsx:151 | users with the id take the new status; every other user and the length are unchanged |
| AdminDashboard.ToggleTarget | src/pages/dashboard/admin/AdminDashboard.tsx:417 | the toggle always asks for a status other than the current one, and never pending |
| AdminDashboard.ToggleInvolution | src/pages/dashboard/admin/AdminDashboard.tsx:412-418 | toggling twice restores an active or suspended status |
| AdminDashboard.ToggleTwiceRestores | src/pages/dashboard/admin/AdminDashboard.tsx:412-418 | two toggles of a user's rows give back the original list |
| AdminDashboard.NewMerchantUser | src/pages/dashboard/admin/AdminDashboard.tsx:160-169 | the created user has id length plus one, role merchant, status pending, and the form's store and owner fields |
| AdminDashboard.CreateMerchant | src/pages/dashboard/admin/AdminDashboard.tsx:171 | the new user comes first and the old users follow unchanged |
| AdminDashboard.CreateKeepsIdsOneToN | src/pages/dashboard/admin/AdminDashboard.tsx:161 | when ids are distinct and numbered one to the length, the new id is fresh and the numbering is kept |
| AdminDashboard.StatusBadgeVariant | src/pages/dashboard/admin/AdminDashboard.tsx:189-200 | active and suspended map to default and destructive; anything else to secondary |
| AdminDashboard.RoleBadgeVariant | src/pages/dashboard/admin/AdminDashboard.tsx:202-213 | admin and merchant map to destructive and default; anything else to secondary |
| AdminDashboard.AdminDashboardState.constructor | src/pages/dashboard/admin/AdminDashboard.tsx:106-120 | the page starts with the given users, empty search, filters at "all", dialogs closed and an empty form |
| AdminDashboard.AdminDashboardState.SetFilters | src/pages/dashboard/admin/AdminDashboard.tsx:307-323 | only the search term and the two filters change |
| AdminDashboard.AdminDashboardState.HandleStatusChange | src/pages/dashboard/admin/AdminDashboard.tsx:146-153 | the users become the status change of the old list; nothing else changes |
| AdminDashboard.AdminDashboardState.ToggleClicked | src/pages/dashboard/admin/AdminDashboard.tsx:412-418 | a non-pending user's rows switch between active and suspended |
| AdminDashboard.AdminDashboardState.EditNewMerchant | src/pages/dashboard/admin/AdminDashboard.tsx:464-493 | only the form changes |
| AdminDashboard.AdminDashboardState.SetShowCreateMerchant | src/pages/dashboard/admin/AdminDashboard.tsx:446-499 | only the dialog's open state changes |
| AdminDashboard.AdminDashboardState.HandleCreateMerchant | src/pages/dashboard/admin/AdminDashboard.tsx:155-175 | the new merchant is prepended, the form is reset to empty strings and the dialog closes |
| AdminDashboard.AdminDashboardState.EditInviteEmail | src/pages/dashboard/admin/AdminDashboard.tsx:528 | only the invite email changes |
| AdminDashboard.AdminDashboardState.SetShowInviteAdmin | src/pages/dashboard/admin/AdminDashboard.tsx:509-534 | only the dialog's open state changes |
| AdminDashboard.AdminDashboardState.HandleInviteAdmin | src/pages/dashboard/admin/AdminDashboard.tsx:177-187 | the invite email clears and the dialog closes; the users are unchanged |
| BreadcrumbNav.Segments | src/components/layout/BreadcrumbNav.tsx:11 | the segments are non-empty and hold no slash, are pieces of the split in their order, and hold every non-empty piece with exactly as many copies as the split has |
| BreadcrumbNav.SegmentCount | src/components/layout/BreadcrumbNav.tsx:11 | the number of segments is the number of split pieces less the empty ones, repeats included, so the trail has one crumb more than the path has non-empty pieces |
| BreadcrumbNav.JoinPathSnoc | src/components/layout/BreadcrumbNav.tsx:18 | each step of the loop extends the accumulated path by a slash and the segment |
| BreadcrumbNav.Label | src/components/layout/BreadcrumbNav.tsx:20-33 | every label, fixed or not, is the segment with its first character upper-cased |
| BreadcrumbNav.BuildTrail | src/components/layout/BreadcrumbNav.tsx:13-39 | the loop yields Home followed by one crumb per segment, crumb k+1 carrying segment k capitalised and linking to the first k+1 segments joined |
| BreadcrumbNav.Breadcrumbs | src/components/layout/BreadcrumbNav.tsx:5-39 | "/" gives no trail; any other path gives Home at "/" followed by one crumb per segment, whose href is the first segments joined and whose label is the capitalised segment |
| BreadcrumbNav.HrefProperPrefix | src/components/layout/BreadcrumbNav.tsx:16-18 | each crumb's href is a proper prefix of the next one's |
| BreadcrumbNav.SplitLeadingSlash | src/components/layout/BreadcrumbNav.tsx:11 | a path with a leading slash splits into an empty piece and the pieces of the rest |
| BreadcrumbNav.JoinPathFirstPieceEmpty | src/components/layout/BreadcrumbNav.tsx:11 | an accumulated path always splits with an empty first piece |
| BreadcrumbNav.SplitJoinPath | src/components/layout/BreadcrumbNav.tsx:11 | a built path splits into an empty piece, its first segment, and the pieces of the rest |
| BreadcrumbNav.SegmentsOfJoinPath | src/components/layout/BreadcrumbNav.tsx:11-18 | cutting the accumulated path again gives back exactly its segments |
| BreadcrumbNav.OnlySlashesGiveHomeOnly | src/components/layout/BreadcrumbNav.tsx:9-11 | every path made only of slashes has no segments, so by `Breadcrumbs`' contract its trail, unless it is "/", is Home alone |
| DashboardLayout.NavigationStaysInDashboard | src/components/layout/DashboardLayout.tsx:44-66 | every sidebar link starts with the role's dashboard root, and the first is the root itself |
| DashboardLayout.NavigationHrefsDistinct | src/components/layout/DashboardLayout.tsx:44-66 | no two sidebar links of a role share an href |
| DashboardLayout.JoinPathOfRoot | src/components/layout/DashboardLayout.tsx:113 | a role's dashboard root is the path built from the segments "dashboard" and the role |
| DashboardLayout.DashboardPageSegments | src/components/layout/BreadcrumbNav.tsx:11 | for every role and every page segment, the page's path cuts into "dashboard", the role and the page |
| DashboardLayout.TwoSegments | src/components/layout/DashboardLayout.tsx:113 | a two-segment path cuts into exactly those two segments |
| DashboardLayout.MarkCurrent | src/components/layout/DashboardLayout.tsx:102-105 | links keep name and href, and a link is current exactly when its href is the pathname |
| DashboardLayout.AtMostOneCurrent | src/components/layout/DashboardLayout.tsx:102-105 | at most one sidebar link is current |
| DashboardLayout.FindByHref | src/components/layout/DashboardLayout.tsx:122 | a link is found exactly when one has the href, and the one found has it |
| DashboardLayout.GetBreadcrumbs | src/components/layout/DashboardLayout.tsx:112-132 | no crumbs for two segments or fewer; otherwise the portal crumb first, and a second crumb exactly when a sidebar link's href is the pathname, carrying that link's name |
| DashboardLayout.RootHasNoCrumbs | src/components/layout/DashboardLayout.tsx:116 | the dashboard root has two segments, so it shows no header crumbs |
| DashboardLayout.FirstCharsOfWords | src/components/layout/DashboardLayout.tsx:171-175 | joining the words' first characters gives one character per non-empty word, in order |
| DashboardLayout.Initials | src/components/layout/DashboardLayout.tsx:171-175 | the initials are the upper-cased first characters of the non-empty space-separated words, in order |
| Navigation.FourLinksHomeFirst | src/components/layout/Navigation.tsx:27-58 | there are always four links and the first is Home at "/" |
| Navigation.SignedInLinks | src/components/layout/Navigation.tsx:30-46 | with a role the second link is its dashboard, the other two are the logins of exactly the other roles, and its own login never appears |
| Navigation.SignedOutLinks | src/components/layout/Navigation.tsx:50-56 | without a role the links are Home and the admin, merchant and member logins in that order |
| Navigation.LoginLinksMatchGuard | src/components/layout/Navigation.tsx:32-56 | every login link is the path the guard redirects that role to |
| Navigation.RoleBadgeVariant | src/components/layout/Navigation.tsx:62-73 | admin, merchant and member map to destructive, default and secondary; anything else to outline |
| Navigation.HandleLogout | src/components/layout/Navigation.tsx:18-25 | exactly the five profile keys are removed, the session state and its agreement with the snapshot are kept, and the router goes to "/" |
| Navigation.LogoutKeepsSessionOnReload | src/components/layout/Navigation.tsx:18-23 | the startup read gives the same session after this logout as before it |
| Navigation.LogoutStillAdmitted | src/components/layout/Navigation.tsx:18-23 | under the intended binding, a signed-in user who logs out through the bar is still admitted to their dashboard after a reload |
| Seqs.Filter | src/pages/dashboard/merchant/MerchantDashboard.tsx:173 | the result is no longer than the input and holds exactly the input's elements satisfying the test |
| Seqs.MapSeq | src/pages/dashboard/merchant/MerchantDashboard.tsx:184 | the result has the input's length and the function applied at every index |
| Seqs.FilterIsSubsequence | src/pages/dashboard/merchant/MerchantDashboard.tsx:173 | filtering keeps the survivors in their original order |
| Seqs.FilterAll | src/pages/dashboard/merchant/MerchantDashboard.tsx:173 | a test every element passes filters nothing out |
| Seqs.FilterNone | src/pages/dashboard/merchant/MerchantDashboard.tsx:173 | a test no element passes leaves nothing |
| Seqs.FilterMultiset | src/features/data/dataSlice.ts:71-76 | filtering keeps every copy of a passing element and no copy of the others |
| Seqs.FilterCons | src/components/layout/BreadcrumbNav.tsx:11 | filtering a list with a head keeps the head exactly when it passes, then filters the rest |
| Seqs.FilterAppend | src/pages/dashboard/merchant/MerchantDashboard.tsx:173 | filtering a concatenation is concatenating the filtered parts |
| Seqs.DisjointCountsBounded | src/pages/dashboard/admin/AdminDashboard.tsx:137-138 | two exclusive tests count at most the list length together |
| Seqs.CountSplit | src/pages/dashboard/merchant/MerchantDashboard.tsx:162 | a test and its negation count the list exactly |
| Seqs.CountAfterMap | src/pages/dashboard/merchant/MerchantDashboard.tsx:162 | counting after a map is counting with the test composed with the map |
| Seqs.CountRefine | src/pages/dashboard/merchant/MerchantDashboard.tsx:162 | splitting a count by a second test adds up to the whole count |
| Text.Utf16Length | src/pages/auth/AdminLogin.tsx:20 | the length in UTF-16 code units lies between the number of characters and twice it, and equals it exactly when no character lies outside the Basic Multilingual Plane |
| Text.LowerString | src/pages/dashboard/merchant/MerchantDashboard.tsx:210 | lower-casing keeps the length and maps every character |
| Text.UpperString | src/components/layout/DashboardLayout.tsx:175 | upper-casing keeps the length and maps every character |
| Text.IncludesAt | src/pages/dashboard/merchant/MerchantDashboard.tsx:210-212 | `includes` holds exactly when the needle occurs at some offset |
| Text.IncludesEmpty | src/pages/dashboard/admin/AdminDashboard.tsx:124 | every string includes the empty string |
| Text.Split | src/components/layout/BreadcrumbNav.tsx:11 | splitting gives at least one piece and no piece holds the separator |
| Text.JoinSplit | src/components/layout/BreadcrumbNav.tsx:11 | joining the pieces back gives the original string |
| Text.SplitPrefix | src/components/layout/BreadcrumbNav.tsx:11 | a separator-free prefix glues onto the first piece of the rest |
| Text.Capitalize | src/components/layout/BreadcrumbNav.tsx:20 | the first character is upper-cased and the rest kept |
| Text.DecimalString | src/pages/dashboard/admin/AdminDashboard.tsx:161 | a number's decimal text is non-empty and all digits |
| Text.DecimalRoundTrip | src/pages/dashboard/admin/AdminDashboard.tsx:161 | reading the decimal text back gives the number |
| Text.DecimalStringInjective | src/pages/dashboard/admin/AdminDashboard.tsx:161 | different numbers have different decimal texts |

## Findings

| source | as written | input that shows it | evidently intended | confidence | as-written member | corrected member |
|---|---|---|---|---|---|---|
| src/routes/ProtectedRoute.tsx:11 | the guard reads `isAuthenticated` and `userRole` from `state.auth`, which holds only `token` and `role`, so both are undefined and every visit redirects | the state `{token: "admin-token", role: "admin"}` right after `loginSuccess`, visiting `/dashboard/admin` | admit exactly when a token is present and the role equals the required one | medium (the store setup is not part of this model), not executed | ProtectedRoute.WrittenGuardRefusesFreshLogin | ProtectedRoute.GuardAfterLoginReload |

## Left out

- Rendering: all JSX, icons, styling and view-only state are not modelled. This covers the view dialogs' selected user and customer, the member login tabs, the sidebar sheet, the header search box and notification badge, and the mobile menu. `src/pages/Landing.tsx`, `src/pages/NotFound.tsx` and `src/pages/dashboard/member/MemberDashboard.tsx` only render, so they are not part of this model either.
- Timers: the `setTimeout` delays only show a spinner. Each handler is one atomic step whose loading flag ends false.
- Redux wiring: the store, `dispatch` and `useSelector` are not modelled. A form's submit calls the `AuthStore` method directly.
- `src/pages/auth/MerchantLogin.tsx` is not part of this model. Its submit handler refers to identifiers that are never defined, and it never applies its own schema.
- `src/features/admin/adminSlice.ts` and `src/features/member/memberSlice.ts` have no reducers, only fixture state, so they are not part of this model.
- Fixture data (the dummy users, purchases, customers and notifications, and the JSON files) is not modelled. Constructors take the initial lists as parameters.
- The `DashboardLayout` signed-in user comes from an `authHelpers` module that is not part of this model. Its role and name are parameters, and the layout's own `handleLogout` calls that module, so it is left out too.
- AdminLogin.SchemaErrors: records which fields fail, not zod's message texts. The email-format check is a parameter, not zod's regular expression.
- MemberLogin.SchemaErrors: records which fields fail, not zod's message texts.
- Text.LowerString: `toLowerCase` and `toUpperCase` are modelled on the ASCII letters only, without Unicode case mapping.
- Text.Capitalize: strings are sequences of Unicode characters, not UTF-16 code units. For a first character outside the Basic Multilingual Plane, `charAt(0)` takes its lone high surrogate, but gluing `slice(1)` back gives the same text as keeping the character whole. Only the ASCII case map differs.
- DashboardLayout.FirstCharsOfWords: a word's first character is a whole Unicode character. For a word starting outside the Basic Multilingual Plane, `n[0]` is a lone high surrogate, which a string of characters cannot hold.
- DashboardLayout.Initials: inherits that gap. Such a word contributes its whole first character, not a lone surrogate.
- AppRoutes.FindRoute: matching ignores letter case and trailing slashes, as the router does by default. The router's percent-decoding of the path is not modelled. Neither is the empty path, which no browser location has: here it matches "/".
- `BreadcrumbNav.tsx` (line 6), `DashboardLayout.tsx` (lines 79-80) and `Navigation.tsx` (lines 15-16) call `usePathname` and `useRouter` without importing or defining them, so as written these components throw when rendered. The model takes the pathname as a parameter and records the navigation target itself.
- MerchantSlice.MerchantStore.SetContributionRate: amounts and the contribution rate are carried as reals, and nothing arithmetic is proved about them. The dashboard's `Number.parseFloat` input handling and its save button, which only shows a spinner, are left out. So are the mock growth percentages in both stats objects.
- AdminDashboard.NewMerchantUser: the creation date is a parameter standing for the clock's `new Date()` date.
- AdminDashboard.AdminDashboardState.HandleInviteAdmin: sends nothing. Its `console.log` is left out.
- Numeric ids in the two slices are unbounded integers, not JavaScript numbers.
