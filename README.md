# A verified model of the ProjectTelkomFIX CRM front end

ProjectTelkomFIX is a role-gated CRM single-page application for account
managers (role `sales`), their managers (`manager`) and administrators
(`admin`). This project models the application's rule-like core in Dafny and
proves what the code promises about it:

- **the authorization gate**: the role registry, the authentication context
  and its storage slot, the route table, the public/protected split of `App`,
  the sign-in redirect and the role menu of the sidebar;
- **the activity lifecycle**: the computed status of an activity on the
  activities page, on the activity card and in the detail dialog (three
  derivations of "past", proved to agree when date and time are present), the
  seven-day document window, the activity form's defaults, validation and
  Outlook link, and `formatDate`;
- **account-manager data**: the SME sales-id generator and the AM form, the
  filters, pagination and statistics of the AM update and AM profile pages;
- **the executive dashboard**: health classification, aggregation by region
  and the health distribution;
- **sales plans and contacts**: validation, `slugify`, filters and the
  per-customer persistence of sales plans; initials, avatar colour, role
  inference, the email shape test and submission on the contact page;
- **small state widgets**: the multi-value search box, the two-level
  guidance-principle editor, the application-wide confirm dialog and the
  registration form.

Every module follows one source file. Pure code (computations, filters,
formatters) is modelled by functions, with lemmas relating them to an
independent statement of what they promise. Component state that the source
updates in place (the session, the sign-in form, the sidebar's open groups,
the activity list, the dialogs, the forms) is a `class` whose methods are
proved against those functions. Loops of the source (aggregation by region,
counting, filtering) are methods with loop invariants, proved against a
specification function.

Shared helper modules: `Wrappers` (`Option`), `Text` (the JavaScript
whitespace set, `trim`, ASCII case mapping, `split`/`join`, substring search,
decimal text), `Seqs` (filters, de-duplication) and `Dates` (calendar dates
and `HH:MM` times parsed to integer instants).

Inputs that come from outside the code are parameters: the current instant
`now`, the identifiers built from `Date.now()`, the sign-in service's answer,
and the content of browser storage.

## Model

| member | source | states |
|---|---|---|
| Roles.AllIds | src/auth/roles.js:14 | the identifiers of `ALL_ROLES` are the role identifiers in registry order |
| Roles.FromId | src/auth/roles.js:2-6 | a stored identifier names the role whose identifier it is, and names none when no role has it |
| Roles.IdRoundTrip | src/auth/roles.js:2-6 | role identifiers are one to one: reading a role's identifier gives the role back |
| Roles.AllRolesComplete | src/auth/roles.js:14 | `ALL_ROLES` lists exactly three distinct roles, every role once, with sales first |
| Roles.LabelsDistinct | src/auth/roles.js:8-12 | every role has a non-empty label and no two roles share a label |
| Auth.AllowedList | src/auth/AuthContext.jsx:36 | a single allowed role is read as a one-element list, a list as itself |
| Auth.HasRoleNeedsRole | src/auth/AuthContext.jsx:35 | without a user or with a missing or empty role, `hasRole` is false for any argument |
| Auth.HasRoleScalarIsList | src/auth/AuthContext.jsx:36 | `hasRole(r)` and `hasRole([r])` agree |
| Auth.HasRoleIffMember | src/auth/AuthContext.jsx:35-37 | with a role set, `hasRole(list)` holds iff the user's role is an element of the list |
| Auth.UnknownRoleRejected | src/auth/AuthContext.jsx:36-37 | a role identifier outside the registry never passes a list of registry roles |
| Auth.LoadedUser | src/auth/AuthContext.jsx:12-20 | start-up takes the slot's parsed value when the slot holds JSON text, and otherwise (absent, empty, unparsable) keeps the current user |
| Auth.PersistThenLoad | src/auth/AuthContext.jsx:3-25 | an identity written by `setUser` is what the next start-up loads |
| Auth.LogoutThenLoad | src/auth/AuthContext.jsx:14-30 | after `logout` removed the slot the next start-up loads nobody |
| Auth.Session.constructor | src/auth/AuthContext.jsx:8-9 | a new session has no user and is loading |
| Auth.Session.CurrentRole | src/auth/AuthContext.jsx:45 | `role` is the user's role when there is a user with a role, and null otherwise |
| Auth.Session.Load | src/auth/AuthContext.jsx:12-20 | the start-up effect sets the user to `LoadedUser` of the slot, always ends loading and leaves storage alone |
| Auth.Session.SetUser | src/auth/AuthContext.jsx:22-49 | the identity becomes the user, the session is authenticated, and only the `app_user` slot changes, to the identity's serialisation |
| Auth.Session.Logout | src/auth/AuthContext.jsx:27-49 | the user is cleared, the session is no longer authenticated, the role is null and exactly the `app_user` slot is removed |
| Routes.MatchBothCompatible | src/routes/routeConfig.jsx:30-63 | two patterns that both match one path are compatible: same length, and equal wherever both hold a literal |
| Routes.SeparatedIncompatible | src/routes/routeConfig.jsx:30-63 | a length difference or a clash of literals at one position makes two patterns incompatible |
| Routes.TableSeparated | src/routes/routeConfig.jsx:30-63 | any two entries of the table differ in length or clash at a literal position |
| Routes.NoOverlap | src/routes/routeConfig.jsx:30-63 | with `:x` matching one segment, no concrete path matches two entries of the table |
| Routes.PatternsDistinct | src/routes/routeConfig.jsx:30-63 | the path patterns of the table are pairwise distinct |
| Routes.PublicEntries | src/routes/routeConfig.jsx:31-33 | exactly the first three entries are public, and they are `/login`, `/register` and `/403` |
| Routes.ProtectedHaveRoles | src/routes/routeConfig.jsx:36-62 | every protected entry admits at least one role |
| Routes.ManagerEntries | src/routes/routeConfig.jsx:49-52 | every `/manager` entry admits admin and manager and never sales |
| Routes.SegmentsOfHref | src/routes/routeConfig.jsx:30-63 | reading the segments of a link gives back the path it was written from |
| App.PublicOf | src/App.jsx:17 | the public group holds only public routes |
| App.ProtectedOf | src/App.jsx:24 | the protected group holds only non-public routes |
| App.GroupsPartition | src/App.jsx:17-24 | every route lands in exactly one of the two groups: together they are a permutation of the table |
| App.PublicPrefix | src/App.jsx:17-24 | when the public routes come first, the public group is that prefix and the protected group the rest, in order |
| App.PublicGroup | src/App.jsx:17-24 | the public group of the table is `/login`, `/register` and `/403`, and the protected group is every other entry in order |
| App.Dispatch | src/App.jsx:17-29 | a path lands on a public entry matching it, on a guarded entry matching it with that entry's roles, or, when no entry matches, on the redirect to `/` with replace |
| App.UniqueMatch | src/App.jsx:17-29 | at most one table entry matches a path |
| App.DispatchAt | src/App.jsx:17-28 | a path matching entry k lands on entry k, public or guarded by entry k's roles |
| App.RoleIds | src/App.jsx:25 | the guard receives the identifiers of the entry's roles, in order |
| App.PublicNeedsNoIdentity | src/App.jsx:17-19 | public pages render for anyone, signed in or not |
| App.GateByRole | src/App.jsx:23-28 | a user holding a registry role passes a guarded page iff that role is in the entry's roles |
| App.AdminOnlyPaths | src/routes/routeConfig.jsx:46-55 | `/ecrm-workspace`, `/ecrm-workspace/validation`, `/executive` and `/executive/region` open for admin only |
| App.SalesOnlyPaths | src/routes/routeConfig.jsx:36-53 | `/` and `/sales-plans` open for sales only |
| App.ContactPaths | src/routes/routeConfig.jsx:42-43 | `/contacts` and `/contacts/:id` open for sales only |
| App.CsgPaths | src/routes/routeConfig.jsx:60-62 | the three `/CSG` pages open for sales only |
| App.ManagerPaths | src/routes/routeConfig.jsx:49-52 | every guarded page under `/manager` opens for admin and manager and never for sales |
| App.AllRolesIn | src/routes/routeConfig.jsx:38 | the three-role list of the table holds every role |
| App.CustomerPaths | src/routes/routeConfig.jsx:38-39 | the customer list and customer pages open for every role |
| App.CustomerSubPaths | src/routes/routeConfig.jsx:40-41 | a customer's sales-plan and account-profile pages open for every role |
| App.ProfileAndActivityPaths | src/routes/routeConfig.jsx:44-58 | the AM-profile pages open for every role; `/aktivitas` opens for admin and sales but not manager |
| App.ManagerMenuPaths | src/routes/routeConfig.jsx:49-52 | `/manager` and `/manager/sales-plans` open exactly for the roles other than sales |
| App.TwoSegmentEntry | src/routes/routeConfig.jsx:30-63 | no two-segment entry starts with `admin`, and no `/manager` entry has `approval` second |
| App.ApprovalPathsFallBack | src/App.jsx:29 | `/admin/approval` and `/manager/approval` have no entry and land on the redirect to `/` |
| Login.HomeFor | src/pages/Login.jsx:38-54 | admin goes to `/executive`, manager to `/manager`, and any other role (sales, account_manager, the rest) to `/` |
| Login.Shape | src/pages/Login.jsx:30-35 | the stored identity keeps the account's id, email and role, and takes `nama_lengkap` as its name, else the username |
| Login.RoleRequired | src/pages/Login.jsx:25-27 | an answer without an account or without a truthy role shows "Role tidak ditemukan pada akun ini", stores nothing and stays |
| Login.FailureMessage | src/pages/Login.jsx:56-57 | a failure shows its message, or "Terjadi kesalahan saat login" when that is empty, and stores nothing |
| Login.SuccessStoresRole | src/pages/Login.jsx:29-54 | an account with a role clears the error, stores its shaped identity, which then has a role, and navigates to the role's home |
| Login.HomeOpensForRole | src/pages/Login.jsx:38-54 | every registry role's home page is a page that role may open |
| Login.AccountManagerRefusedAtHome | src/pages/Login.jsx:47-49 | the identifier `account_manager` is sent to `/`, whose guard admits only sales, so that user is refused there |
| Login.LoginForm.constructor | src/pages/Login.jsx:13-14 | the form starts with no error and not loading |
| Login.LoginForm.HandleSubmit | src/pages/Login.jsx:16-61 | the error, the navigation and the session end as `SubmitOutcome` says, the stored identity is written to the slot, and loading is false afterwards in all cases |
| Sidebar.MenuFor | src/components/layout/Sidebar.jsx:19-75 | each registry role gets its own menu, and an absent or unknown role gets `[]` |
| Sidebar.ItemsFor | src/components/layout/Sidebar.jsx:73-76 | with no user nothing renders; otherwise the items are `MENU.base` then the role's items |
| Sidebar.UnknownRoleEmptyMenu | src/components/layout/Sidebar.jsx:20-76 | a signed-in user whose role is outside the registry gets an empty menu |
| Sidebar.RoleMenu | src/components/layout/Sidebar.jsx:22-76 | a user holding a registry role gets exactly that role's menu |
| Sidebar.LinksOf | src/components/layout/Sidebar.jsx:19-67 | a single item shows its own link, a group its sub-menu |
| Sidebar.InLinks | src/components/layout/Sidebar.jsx:19-67 | a link is shown in a menu iff some item of the menu shows it |
| Sidebar.SalesMenuOpens | src/components/layout/Sidebar.jsx:38-52 | every link of the sales menu targets a page that opens for sales |
| Sidebar.AdminMenuOpens | src/components/layout/Sidebar.jsx:22-36 | every admin link opens for admin except the two approval links, which land on the redirect to `/` |
| Sidebar.ManagerMenuOpens | src/components/layout/Sidebar.jsx:54-66 | every manager link opens for manager except `/manager/approval`, which lands on the redirect to `/` |
| Sidebar.Toggled | src/components/layout/Sidebar.jsx:80-82 | toggling flips the open flag of one label, a never-toggled label reading as closed, and leaves every other label as it was |
| Sidebar.ToggleTwice | src/components/layout/Sidebar.jsx:80-82 | toggling a label twice restores every group's open flag |
| Sidebar.SidebarState.constructor | src/components/layout/Sidebar.jsx:78 | no group starts open |
| Sidebar.SidebarState.ToggleMenu | src/components/layout/Sidebar.jsx:80-82 | `toggleMenu` replaces the open flags by `Toggled` of the old ones |
| ActivitiesPage.CompletedWins | src/pages/ActivitiesPage.jsx:133-173 | a stored status of "completed", in any letter case, gives the computed status completed at every instant |
| ActivitiesPage.NoInstantIsUpcoming | src/pages/ActivitiesPage.jsx:107-143 | a pending activity with no date, or a date and time that do not parse, is upcoming |
| ActivitiesPage.PastNeedsUpdate | src/pages/ActivitiesPage.jsx:144-181 | a pending activity with an instant needs an update iff that instant is before now, and is never computed completed |
| ActivitiesPage.StatusMonotone | src/pages/ActivitiesPage.jsx:144-148 | once an activity needs an update it keeps needing one at every later instant |
| ActivitiesPage.CountStatus | src/pages/ActivitiesPage.jsx:151-152 | a status count never exceeds the number of activities |
| ActivitiesPage.NotificationStats | src/pages/ActivitiesPage.jsx:128-158 | the one-pass reduce with one `now` returns the number of activities needing an update and the number upcoming |
| ActivitiesPage.CountsPartition | src/pages/ActivitiesPage.jsx:136-149 | every activity has exactly one computed status: the three counts add up to the list's length |
| ActivitiesPage.NotificationsArePending | src/pages/ActivitiesPage.jsx:128-157 | the two notification counts add up to the activities not computed completed |
| ActivitiesPage.CountPositive | src/pages/ActivitiesPage.jsx:151-152 | a status count is positive iff some activity has that computed status |
| ActivitiesPage.HasNotifications | src/pages/ActivitiesPage.jsx:160 | `hasNotifications` holds iff some listed activity is not computed completed |
| ActivitiesPage.Search | src/pages/ActivitiesPage.jsx:115-125 | an empty query keeps the list as it is; any result is drawn from the list |
| ActivitiesPage.SearchMembers | src/pages/ActivitiesPage.jsx:117-124 | with a query, an activity is kept iff it is listed and its title, type, topic or present customer contains the lower-cased query |
| ActivitiesPage.SearchIgnoresCase | src/pages/ActivitiesPage.jsx:117 | the letter case of the query does not change the result |
| ActivitiesPage.WithComputed | src/pages/ActivitiesPage.jsx:166-185 | each activity is listed, in order, with its computed status |
| ActivitiesPage.ByStatus | src/pages/ActivitiesPage.jsx:187-190 | the filter "all" keeps every entry; any other filter keeps only entries with that computed status |
| ActivitiesPage.ByStatusMembers | src/pages/ActivitiesPage.jsx:190 | with a filter other than "all", an entry is kept iff it is listed with that computed status |
| ActivitiesPage.UnknownFilterEmpty | src/pages/ActivitiesPage.jsx:187-190 | a filter value naming no status keeps nothing |
| ActivitiesPage.Insert | src/pages/ActivitiesPage.jsx:192-197 | inserting an entry into the sorted list adds exactly that entry |
| ActivitiesPage.SortByInstant | src/pages/ActivitiesPage.jsx:192-197 | sorting permutes the entries |
| ActivitiesPage.AscendingPairs | src/pages/ActivitiesPage.jsx:192-197 | a list ascending entry by entry is ascending between any two positions |
| ActivitiesPage.InsertTimed | src/pages/ActivitiesPage.jsx:192-197 | inserting a timed entry among timed entries leaves every entry timed |
| ActivitiesPage.InsertAscending | src/pages/ActivitiesPage.jsx:192-197 | inserting a timed entry into an ascending timed list keeps it ascending |
| ActivitiesPage.SortAscending | src/pages/ActivitiesPage.jsx:192-197 | when every entry has an instant, the sort puts them in ascending order of instant |
| ActivitiesPage.ListActivities | src/pages/ActivitiesPage.jsx:163-198 | the list holds exactly the computed entries the status filter keeps, each once |
| ActivitiesPage.ListSorted | src/pages/ActivitiesPage.jsx:163-198 | when every activity has an instant, the list is ascending by instant |
| ActivitiesPage.StartAt | src/pages/ActivitiesPage.jsx:67 | the composed start is a valid instant iff the date parses and the hour and minute are in range |
| ActivitiesPage.PageDeeplink | src/pages/ActivitiesPage.jsx:62-85 | seven parameters in order: the subject is the title or "Aktivitas Baru", the location is kept, `startdt` is the start and `enddt` exactly one hour later (both absent for an invalid start); an eighth, the ';'-joined invitees, only when there are invitees |
| ActivitiesPage.LinkStartAgrees | src/pages/ActivitiesPage.jsx:65-113 | for a valid `HH:MM` time, the compose link starts at the instant the status is derived from |
| ActivitiesPage.LinkStartAt | src/pages/ActivitiesPage.jsx:64-67 | the link starts at the minute of the date that the clock read from the time names |
| ActivitiesPage.PageInstantAt | src/pages/ActivitiesPage.jsx:107-113 | with a ten-character date and a valid time, the page's instant is the date's day plus the time's minutes |
| ActivitiesPage.DefaultClock | src/pages/ActivitiesPage.jsx:65-66 | the default time "09:00" is read as hour 9, minute 0 |
| ActivitiesPage.DefaultClockOf | src/pages/ActivitiesPage.jsx:65-66 | any text spelling "09:00" is read as hour 9, minute 0 |
| ActivitiesPage.ClockOfTime | src/pages/ActivitiesPage.jsx:66 | a valid `HH:MM` time is read as its hour and minute |
| ActivitiesPage.ClockOfDigits | src/pages/ActivitiesPage.jsx:66 | two digit runs around the colon are read as their decimal values |
| ActivitiesPage.ClockOfParts | src/pages/ActivitiesPage.jsx:66 | the clock is the two numbers `parseInt` reads from the two parts |
| ActivitiesPage.Created | src/pages/ActivitiesPage.jsx:200-210 | a created activity keeps the draft's fields and takes the fresh id, status "upcoming", the current user as creator, no proof or minutes, not added to Outlook, and the draft's compose link |
| ActivitiesPage.CreatedIsPending | src/pages/ActivitiesPage.jsx:200-210 | a new activity is not completed, and without an instant it is computed upcoming |
| ActivitiesPage.Marked | src/pages/ActivitiesPage.jsx:89 | marking sets the Outlook flag, keeps an existing link or stores a new one, and changes nothing else |
| ActivitiesPage.MarkedIdempotent | src/pages/ActivitiesPage.jsx:89 | marking twice is marking once |
| ActivitiesPage.ActivityBoard.constructor | src/pages/ActivitiesPage.jsx:21-60 | the board starts with the seed list |
| ActivitiesPage.ActivityBoard.Create | src/pages/ActivitiesPage.jsx:200-213 | the created activity is appended to the list |
| ActivitiesPage.ActivityBoard.Update | src/pages/ActivitiesPage.jsx:215-219 | every element with the updated id is replaced and every other element is kept in place |
| ActivitiesPage.ActivityBoard.Delete | src/pages/ActivitiesPage.jsx:221-225 | exactly the elements with that id are removed, the rest kept in order |
| ActivitiesPage.ActivityBoard.MarkOutlookAdded | src/pages/ActivitiesPage.jsx:87-91 | the elements with that id are marked and every other element is kept in place |
| ActivitiesPage.ActivityBoard.AddToOutlook | src/pages/ActivitiesPage.jsx:93-104 | the link opened is the activity's stored link, else a new one, and then the activity is marked |
| ActivityCard.BadgeOf | src/components/activities/ActivityCard.jsx:21-44 | the badge is "Selesai" iff completed, "Perlu Update" iff not completed and past, and "Akan Datang" otherwise |
| ActivityCard.OutlookLabel | src/components/activities/ActivityCard.jsx:88 | the button reads "Outlook" iff the activity was added to Outlook, else "Add to Outlook" |
| ActivityCard.CustomerLine | src/components/activities/ActivityCard.jsx:124-128 | the customer line appears iff the activity is with a customer and the customer is set, and then shows that customer |
| ActivityCard.LowerCaseCompleted | src/components/activities/ActivityCard.jsx:18 | for a status stored in lower case, the card's exact "completed" test agrees with the page's case-insensitive one |
| ActivityCard.CardInstantWithTime | src/components/activities/ActivityCard.jsx:16 | with a time present, the card reads the same instant as the page, in every time zone |
| ActivityCard.CardInstantWithoutTime | src/components/activities/ActivityCard.jsx:16 | without a time, the card's `00:00` default reads a ten-character date as local midnight and the page's date-only parse as UTC midnight: both valid or both invalid, and the card's instant is the page's minus the zone's offset |
| ActivityCard.CardAheadOfPage | src/components/activities/ActivityCard.jsx:16-17 | east of UTC, for a date without a time, every `now` after the card's instant and within the zone's offset of it is not yet past the page's instant |
| ActivityCard.CardMatchesLocalPage | src/components/activities/ActivityCard.jsx:16 | the card's instant equals the intended page reading (a missing time read as local `00:00`) for every activity in every zone |
| ActivitiesPage.LocalPageAtUtc | src/pages/ActivitiesPage.jsx:107-113 | at UTC, the intended reading equals the page's as written, for a present time or a ten-character date |
| ActivityCard.CardMatchesPage | src/components/activities/ActivityCard.jsx:16-44 | when the instants agree and the status is stored in lower case, the card's badge names the page's computed status |
| ActivityCard.CapitalisedCompletedDiffers | src/components/activities/ActivityCard.jsx:18 | a status stored as "Completed" is completed for the page but not for the card |
| ActivityDetail.CeilDays | src/components/activities/ActivityDetailModal.jsx:36 | `Math.ceil(ms / day)` is the least number of whole days covering the duration |
| ActivityDetail.CanEditWindow | src/components/activities/ActivityDetailModal.jsx:25-40 | documents are editable iff the activity is with a customer, its instant is valid, and now lies after it by at most seven days |
| ActivityDetail.CanEditShowsSection | src/components/activities/ActivityDetailModal.jsx:40-43 | whoever may edit the documents also sees their section |
| ActivityDetail.RemainingDaysBound | src/components/activities/ActivityDetailModal.jsx:290-293 | while documents are editable, the remaining-days badge `7 - diffDays` lies between 0 and 6 |
| ActivityDetail.NoTimeNeverEditable | src/components/activities/ActivityDetailModal.jsx:25-43 | without a time the dialog's instant is invalid, so the activity is never past, never editable and shows no document section |
| ActivityDetail.ModalInstantWithTime | src/components/activities/ActivityDetailModal.jsx:25 | with a time present, the dialog, the card and the page read the same instant |
| ActivityDetail.HeaderMatchesCard | src/components/activities/ActivityDetailModal.jsx:214-223 | with a time present, the header badge is the card's badge |
| ActivityDetail.HeaderWithoutTime | src/components/activities/ActivityDetailModal.jsx:214-223 | without a time a pending activity shows "Akan Datang" in the dialog |
| ActivityDetail.SaveCaption | src/components/activities/ActivityDetailModal.jsx:191 | the save button reads "Simpan Perubahan" for a completed activity and "Simpan & Tandai Selesai" otherwise |
| ActivityDetail.SavedDocs | src/components/activities/ActivityDetailModal.jsx:78-85 | saving returns the activity with the new proof and minutes and status "completed", every other field unchanged |
| ActivityDetail.MarkedComplete | src/components/activities/ActivityDetailModal.jsx:87-92 | marking complete changes only the status, to "completed" |
| ActivityDetail.SavedIsCompleted | src/components/activities/ActivityDetailModal.jsx:78-92 | a saved or marked activity is completed for the page, the card and the dialog, and is no longer offered mark-complete |
| ActivityDetail.DetailDialog.constructor | src/components/activities/ActivityDetailModal.jsx:20-21 | the dialog starts with the activity's own proof and minutes |
| ActivityDetail.DetailDialog.PickFile | src/components/activities/ActivityDetailModal.jsx:60-76 | a picked file replaces the proof (or the minutes) only inside the edit window; otherwise nothing changes |
| ActivityDetail.DetailDialog.RemoveFile | src/components/activities/ActivityDetailModal.jsx:151-156 | the remove button clears the proof (or the minutes) only inside the edit window |
| ActivityDetail.DetailDialog.Save | src/components/activities/ActivityDetailModal.jsx:185-191 | saving is possible iff documents are editable and a proof or minutes file is present, and hands on the saved activity |
| ActivityDetail.DetailDialog.MarkComplete | src/components/activities/ActivityDetailModal.jsx:196-199 | mark-complete is offered iff the activity is pending and without a customer, and hands on the marked activity |
| ActivityForm.BuildFormState | src/components/activities/ActivityFormModal.jsx:84-112 | no data gives the empty form; otherwise every field comes from the data: date, time and duration when truthy, else today, "09:00" and 60; `withCustomer` is set when the data has the flag or a truthy customer; the customer is kept only when truthy; invitees that are not an array become [] |
| ActivityForm.BuildFormStable | src/components/activities/ActivityFormModal.jsx:100-112 | building the form from a form it built gives that form again |
| ActivityForm.LockedOpening | src/components/activities/ActivityFormModal.jsx:131-139 | a locked customer opens the empty form with that customer selected and `withCustomer` set |
| ActivityForm.FormTimeIsClock | src/components/activities/ActivityFormModal.jsx:167-168 | a five-character time passes the form's pattern iff it is a valid `HH:MM` clock time |
| ActivityForm.FormTimeClock | src/components/activities/ActivityFormModal.jsx:51-52 | every time the pattern accepts, `H:MM` or `HH:MM`, reads as an in-range hour and minute, the minute of the day its padded `HH:MM` text names |
| ActivityForm.ShortTimeParts | src/components/activities/ActivityFormModal.jsx:51-52 | an `H:MM` time reads as its hour digit and its minutes, and its padded text is a valid `HH:MM` time of the same minute |
| ActivityForm.HourTwentyFourRefused | src/components/activities/ActivityFormModal.jsx:167-168 | "24:00" fails the time pattern, so such a form is not valid |
| ActivityForm.ValidFormStart | src/components/activities/ActivityFormModal.jsx:247-251 | the preview builds the link only for a valid form, and a valid form's link starts at the minute of its padded time on its date |
| ActivityForm.ValidIff | src/components/activities/ActivityFormModal.jsx:159-182 | the form is valid iff title, type, date, location and topic are filled, the time is filled and matches the pattern, a customer is chosen when `withCustomer` is set, and a follow-up date is given for the three follow-up outcomes |
| ActivityForm.ErrorMapExact | src/components/activities/ActivityFormModal.jsx:159-180 | the error map built check after check holds exactly the keys whose check fails, each with that check's message |
| ActivityForm.ErrorAt | src/components/activities/ActivityFormModal.jsx:159-180 | one key of the error map is present iff its check fails, with that check's message |
| ActivityForm.ErrorAtFirst | src/components/activities/ActivityFormModal.jsx:161-169 | for title, type, date, time and duration: present iff the check fails, with its message |
| ActivityForm.ErrorAtLast | src/components/activities/ActivityFormModal.jsx:170-178 | for location, topic, customer, follow-up date and the unchecked keys: present iff the check fails, with its message |
| ActivityForm.ErrorMapEmpty | src/components/activities/ActivityFormModal.jsx:181 | `Object.keys(newErrors).length === 0` iff the form is valid |
| ActivityForm.EditKeepsOtherErrors | src/components/activities/ActivityFormModal.jsx:184-187 | editing one text field leaves the check of every other key as it was (the outcome also governs the follow-up check) |
| ActivityForm.FormatTime | src/components/activities/ActivityFormModal.jsx:410-411 | the time input keeps only digits and ':' |
| ActivityForm.FormatTimeIdempotent | src/components/activities/ActivityFormModal.jsx:410-411 | filtering text the filter already produced changes nothing |
| ActivityForm.LinkParams | src/components/activities/ActivityFormModal.jsx:55-74 | a compose link lists seven parameters, with `startdt` and `enddt` sixth and seventh, and an eighth when there are attendees |
| ActivityForm.Addresses | src/components/activities/ActivityFormModal.jsx:73 | each invitee is addressed by its email, else its name, in order |
| ActivityForm.FormDeeplink | src/components/activities/ActivityFormModal.jsx:47-82 | the link is "#" unless date and time are present and the start is a valid date; then it starts at the form's start, ends the duration (default 60 minutes) later, has the title (default "Aktivitas AM") as subject, the location, and attendees, ';'-joined, iff there are invitees |
| ActivityForm.ClockPartsOf | src/components/activities/ActivityFormModal.jsx:51 | two digit parts around the colon are read as their decimal values |
| ActivityForm.ClockPartsOfDigits | src/components/activities/ActivityFormModal.jsx:51 | `split(':').map(Number)` of two digit runs gives their values |
| ActivityForm.FormStartIsInstant | src/components/activities/ActivityFormModal.jsx:51-52 | with the hour read as intended and a valid `HH:MM` time, the link starts at the instant `new Date(date + "T" + time)` names |
| ActivityForm.FormStartDay | src/components/activities/ActivityFormModal.jsx:51-52 | with a valid time of `minutes` after midnight, the link starts at that minute of the form's date |
| ActivityForm.JoinedInstant | src/components/activities/ActivityFormModal.jsx:52 | a ten-character date and a valid time joined by 'T' name that minute of that day |
| ActivityForm.ParseTimeParts | src/components/activities/ActivityFormModal.jsx:51 | a valid time has five characters, and its two parts read as the hour and minute it denotes |
| ActivityForm.ClockOfNumbers | src/components/activities/ActivityFormModal.jsx:52 | when both parts read as numbers, the intended clock is those numbers |
| ActivityForm.StartAtClock | src/components/activities/ActivityFormModal.jsx:52 | an in-range clock on a date is that minute of the date's day, and nothing for an invalid date |
| ActivityForm.MidnightHourAsWritten | src/components/activities/ActivityFormModal.jsx:52 | as written, a time in the hour after midnight (`00:mm`) is read as `09:mm` |
| ActivityForm.ZeroHourAsWritten | src/components/activities/ActivityFormModal.jsx:52 | as written, an hour read as 0 is replaced by 9 |
| ActivityForm.MidnightStartAsWritten | src/components/activities/ActivityFormModal.jsx:52 | as written, the link of a `00:mm` time starts nine hours after the instant the date and time name |
| ActivityForm.SubmissionOf | src/components/activities/ActivityFormModal.jsx:195-206 | the form's fields are sent with the AM id and name, each replaced by its placeholder when empty, and the customer name `SubmittedCustomer` picks; a locked customer forces `withCustomer`, otherwise the form's flag is kept |
| ActivityForm.SubmittedCustomerCases | src/components/activities/ActivityFormModal.jsx:199-201 | a locked string is sent as it is, a locked record by its name; otherwise the selected record's name when with a customer, and "" without one |
| ActivityForm.FormModal.constructor | src/components/activities/ActivityFormModal.jsx:123-126 | the dialog first renders the empty form and no errors |
| ActivityForm.FormModal.Open | src/components/activities/ActivityFormModal.jsx:131-139 | opening builds the form from the initial data, else the locked customer, else nothing, and clears the errors |
| ActivityForm.FormModal.Reset | src/components/activities/ActivityFormModal.jsx:218-223 | reset builds the form from the locked customer, else nothing, and clears the errors |
| ActivityForm.FormModal.Validate | src/components/activities/ActivityFormModal.jsx:159-182 | validation leaves the form alone, records the error map, and reports whether the form is valid |
| ActivityForm.FormModal.ChangeText | src/components/activities/ActivityFormModal.jsx:184-187 | a text field takes the value and only that field's error is cleared |
| ActivityForm.FormModal.ChangeDuration | src/components/activities/ActivityFormModal.jsx:184-187 | the duration takes the number and only its error is cleared |
| ActivityForm.FormModal.TypeTime | src/components/activities/ActivityFormModal.jsx:409-413 | typing stores the filtered time and clears only the time's error |
| ActivityForm.FormModal.Submit | src/components/activities/ActivityFormModal.jsx:189-208 | nothing is submitted unless the form validates; then the submission is `SubmissionOf` the form, and the errors are the error map |
| DateFormat.Before | src/utils/date.js:6-7 | the text before the first occurrence of a character is `split(c)[0]`, and holds no such character |
| DateFormat.FormatDateCases | src/utils/date.js:2-11 | a non-string or falsy value gives ""; a string with a space is cut before its first space, else before its first 'T', else kept, so the result is always a prefix of a string input |
| DateFormat.FormatDateCuts | src/utils/date.js:6-7 | the result holds no space, and holds a 'T' only when the input held a space |
| DateFormat.FormatDateIdempotent | src/utils/date.js:2-11 | formatting a formatted date again changes nothing, unless a 'T' remains before the first space |
| DateFormat.FormatDateTwiceCutsAgain | src/utils/date.js:6-7 | with a 'T' left before the first space, a second pass cuts again before that 'T' |
| Dates.ParseJoined | src/pages/ActivitiesPage.jsx:109-110 | a ten-character date and a time joined by 'T' name a valid instant iff both parts are valid, and it is the date's day plus the time's minutes |
| Dates.DateOnlyIsMidnight | src/components/activities/ActivityCard.jsx:16 | a ten-character date alone (UTC midnight) and that date at `00:00` (local midnight) are valid together, and the second is the first minus the zone's offset |
| Dates.ZoneShift | src/pages/ActivitiesPage.jsx:109-110 | whether a text is a valid date does not depend on the zone; a date with a time lies the zone's offset before its UTC reading, and a date alone does not move |
| Dates.MissingTimeIsInvalid | src/components/activities/ActivityDetailModal.jsx:25 | a date followed by 'T' and no time is an Invalid Date |
| AmForm.SmeNumbers | src/pages/accountProfile/AMForm.jsx:54-61 | the numbers of the counted ids are never more than the rows |
| AmForm.SmeNumbersMembers | src/pages/accountProfile/AMForm.jsx:54-61 | a number is listed iff some row of group "AM SME" carries an id `A` plus five digits denoting it |
| AmForm.MaxOf | src/pages/accountProfile/AMForm.jsx:63 | the maximum bounds every number and is one of them; an empty list gives 0 |
| AmForm.NextSmeIdValue | src/pages/accountProfile/AMForm.jsx:53-65 | the generated id is "A" followed by digits whose value is the largest counted number plus one |
| AmForm.NextSmeIdAbove | src/pages/accountProfile/AMForm.jsx:53-65 | the generated id is numerically above every counted SME id |
| AmForm.FirstSmeId | src/pages/accountProfile/AMForm.jsx:63-64 | with no counted id the first id is "A00001" |
| AmForm.NextSmeIdShape | src/pages/accountProfile/AMForm.jsx:59-64 | the generated id matches `/^A\d{5}$/` iff the largest counted number is below 99999 |
| AmForm.SmeIdOverflow | src/pages/accountProfile/AMForm.jsx:59-64 | once "A99999" is taken the next id is "A100000", which the generator's own pattern rejects |
| AmForm.MaxReached | src/pages/accountProfile/AMForm.jsx:54-63 | a counted 99999 is the largest counted number |
| AmForm.InitialForm | src/pages/accountProfile/AMForm.jsx:70-120 | every key of `initialForm` is present, in order, with an empty value |
| AmForm.Set | src/pages/accountProfile/AMForm.jsx:160-163 | setting a present key keeps the key order; a new key is appended |
| AmForm.SetGet | src/pages/accountProfile/AMForm.jsx:160-163 | after `{ ...p, [id]: value }` the key reads the value and every other key reads what it did |
| AmForm.AutoIdResult | src/pages/accountProfile/AMForm.jsx:141-158 | the effect sets `id_sales` to the generated id for "AM SME", to the NIK for the Pro Hire and Organik groups, leaves it for any other group, and touches no other field |
| AmForm.AutoIdSettles | src/pages/accountProfile/AMForm.jsx:141-158 | running the effect a second time on its own result changes no field |
| AmForm.ResetPromptCases | src/pages/accountProfile/AMForm.jsx:222-237 | the reset only informs iff every field is empty; otherwise it lists one line per filled field |
| AmForm.FilledCount | src/pages/accountProfile/AMForm.jsx:223-228 | the summary has one line per non-empty field, and none exactly when all are empty |
| AmForm.InitialFormEmpty | src/pages/accountProfile/AMForm.jsx:230-237 | a fresh form has nothing to reset |
| AmForm.SubmitPromptOf | src/pages/accountProfile/AMForm.jsx:256-265 | submission is refused iff `id_sales` is empty; otherwise the confirmation carries that id |
| AmForm.SmeSubmittable | src/pages/accountProfile/AMForm.jsx:141-148 | an "AM SME" form is always submittable once the effect has run |
| AmForm.AmInsertPage.constructor | src/pages/accountProfile/AMForm.jsx:69-122 | no rows loaded and the initial form |
| AmForm.AmInsertPage.Loaded | src/pages/accountProfile/AMForm.jsx:136-138 | the rows become the loaded ones and the form stays |
| AmForm.AmInsertPage.Change | src/pages/accountProfile/AMForm.jsx:160-163 | the form becomes the form with the input's id set |
| AmForm.AmInsertPage.SyncId | src/pages/accountProfile/AMForm.jsx:141-158 | the form becomes the effect's result on the current rows |
| AmForm.AmInsertPage.Reset | src/pages/accountProfile/AMForm.jsx:222-251 | the prompt is the reset prompt of the form, informing only when every field is empty |
| AmForm.AmInsertPage.ConfirmReset | src/pages/accountProfile/AMForm.jsx:242-243 | the form goes back to the initial form and the rows stay |
| AmForm.AmInsertPage.Submit | src/pages/accountProfile/AMForm.jsx:253-265 | the prompt is the submit prompt of the form |
| AmRows.FieldValueFirstPresent | src/pages/accountProfile/AMUpdate.jsx:195-196 | the value read is that of the exact key if present, else of the upper-case key, else of the lower-case key, and "" when none is present; a present key wins even when its value is "" |
| AmRows.ActiveCount | src/pages/accountProfile/AMUpdate.jsx:198-242 | the number of rows whose upper-cased status is "AKTIF" is at most the number of rows |
| AmRows.Column | src/pages/accountProfile/AMUpdate.jsx:245 | one field read from every row, in row order |
| AmRows.RegionsExact | src/pages/accountProfile/AMUpdate.jsx:244-246 | the region options are distinct, and a value is offered iff it is non-empty and some row carries it |
| AmRows.RegionKeysAgree | src/pages/accountProfile/AMProfile.jsx:117 | reading regions through "TR" instead of "tr" gives the same value unless a row carries both keys |
| AmRows.PageEnd | src/pages/accountProfile/AMUpdate.jsx:235-236 | the window's end is at most the total and at most the start plus `rowsPerPage` |
| AmRows.SliceIndex | src/pages/accountProfile/AMUpdate.jsx:237 | `slice` puts any index, negative ones counted from the end, within the list |
| AmRows.Slice | src/pages/accountProfile/AMUpdate.jsx:237 | a slice is never longer than the list |
| AmRows.PageRowsBound | src/pages/accountProfile/AMUpdate.jsx:234-237 | whatever the page number, a page shows at most `rowsPerPage` rows |
| AmRows.PageRowsWindow | src/pages/accountProfile/AMUpdate.jsx:234-237 | from page 1 on, a page shows the rows from its start to its end, and none past the last row |
| AmRows.PageOfIndex | src/pages/accountProfile/AMUpdate.jsx:234-237 | filtered row `i` is shown on page `i / rowsPerPage + 1` at position `i % rowsPerPage` |
| AmRows.PrevPage | src/pages/accountProfile/AMUpdate.jsx:502 | "previous" never goes below page 1 and goes one back from any later page |
| AmRows.NextPageNonEmpty | src/pages/accountProfile/AMUpdate.jsx:503 | "next" advances exactly when the next page would show at least one row |
| AmUpdate.Filtered | src/pages/accountProfile/AMUpdate.jsx:204-231 | the filtered list is no longer than the loaded one |
| AmUpdate.NoFilterKeepsAll | src/pages/accountProfile/AMUpdate.jsx:204-231 | with no criterion set every row is kept, in order |
| AmUpdate.FilteredMembers | src/pages/accountProfile/AMUpdate.jsx:204-231 | a row is kept iff it is loaded, its name, NIK or sales id contains the query ignoring case, and its region, group and upper-cased status equal those set |
| AmUpdate.NarrowingShrinks | src/pages/accountProfile/AMUpdate.jsx:204-231 | setting one more criterion never keeps more rows |
| AmUpdate.AktifFilterAllActive | src/pages/accountProfile/AMUpdate.jsx:227-242 | with the status filter on "AKTIF" the active count equals the filtered count |
| AmUpdate.EmptyForm | src/pages/accountProfile/AMUpdate.jsx:140-190 | the empty form holds exactly the form keys, each "" |
| AmUpdate.CellValuePrefix | src/pages/accountProfile/AMUpdate.jsx:264-274 | a clicked row's field is a prefix of its value, the whole value when it holds no '-' or no space and no 'T', and "" when the key is missing |
| AmUpdate.RowForm | src/pages/accountProfile/AMUpdate.jsx:264-277 | the form after a click holds exactly the form keys |
| AmUpdate.Formatted | src/pages/accountProfile/AMUpdate.jsx:267-274 | the loop fills one field per form key with that key's cell value, and no other field |
| AmUpdate.SubmitPromptOf | src/pages/accountProfile/AMUpdate.jsx:290-312 | no selection refuses first; an empty name or sales id refuses next; otherwise the update targets the selected sales id if non-empty, else the selected NIK |
| AmUpdate.AmUpdatePage.constructor | src/pages/accountProfile/AMUpdate.jsx:124-137 | no rows, no filter, page 1 of 10 rows, no selection, the empty form |
| AmUpdate.AmUpdatePage.Stats | src/pages/accountProfile/AMUpdate.jsx:233-252 | active rows are at most the filtered rows, which are at most the loaded rows |
| AmUpdate.AmUpdatePage.Loaded | src/pages/accountProfile/AMUpdate.jsx:254-261 | the rows become the delivered ones and nothing else changes |
| AmUpdate.AmUpdatePage.SetFilter | src/pages/accountProfile/AMUpdate.jsx:386-451 | the filter takes the new value and the page goes back to 1 |
| AmUpdate.AmUpdatePage.SetRowsPerPage | src/pages/accountProfile/AMUpdate.jsx:466-469 | the page size takes the new value and the page goes back to 1 |
| AmUpdate.AmUpdatePage.Prev | src/pages/accountProfile/AMUpdate.jsx:502 | the page becomes the previous page |
| AmUpdate.AmUpdatePage.Next | src/pages/accountProfile/AMUpdate.jsx:503 | the page becomes the next page of the filtered rows |
| AmUpdate.AmUpdatePage.RowClick | src/pages/accountProfile/AMUpdate.jsx:264-277 | the row is selected and the form is filled from it |
| AmUpdate.AmUpdatePage.Change | src/pages/accountProfile/AMUpdate.jsx:279-282 | the named field takes the value |
| AmUpdate.AmUpdatePage.ConfirmReset | src/pages/accountProfile/AMUpdate.jsx:284-288 | the form empties and the selection stays |
| AmUpdate.AmUpdatePage.Submit | src/pages/accountProfile/AMUpdate.jsx:290-312 | the prompt is the submit prompt of the selection and the form |
| AmProfile.Filtered | src/pages/accountProfile/AMProfile.jsx:83-105 | the filtered list is no longer than the loaded one, and every row in it passes the region, group, status and search tests |
| AmProfile.SameAsUpdateFilter | src/pages/accountProfile/AMProfile.jsx:83-105 | though it tests region, group and status before the search, the filter keeps a row iff the update page's filter keeps it |
| AmProfile.SameFilteredList | src/pages/accountProfile/AMProfile.jsx:83-105 | the profile page's filtered list is the update page's filtered list for the same criteria, row for row in the same order |
| AmProfile.NoFilterKeepsAll | src/pages/accountProfile/AMProfile.jsx:83-105 | with every criterion empty every row is kept |
| AmProfile.RegionOptionsExact | src/pages/accountProfile/AMProfile.jsx:117 | the options are distinct, and when no row carries both spellings of the key, a value is offered iff some row's non-empty region, as the filter reads it, is that value |
| AmProfile.ApproveExact | src/pages/accountProfile/AMProfile.jsx:212-216 | approving keeps exactly the pending entries with another sales id, and changes nothing when none carries it |
| AmProfile.ApproveAppend | src/pages/accountProfile/AMProfile.jsx:213-215 | approving keeps the order: it distributes over a split of the list |
| AmProfile.AmProfilePage.constructor | src/pages/accountProfile/AMProfile.jsx:39-59 | no rows, no filter, page 1 of 10 rows, the two pending entries |
| AmProfile.AmProfilePage.Stats | src/pages/accountProfile/AMProfile.jsx:107-123 | active rows are at most the filtered rows, which are at most the loaded rows |
| AmProfile.AmProfilePage.Loaded | src/pages/accountProfile/AMProfile.jsx:71-80 | the rows become the delivered ones and nothing else changes |
| AmProfile.AmProfilePage.SetFilter | src/pages/accountProfile/AMProfile.jsx:247-267 | the filter takes the new value and the page number stays |
| AmProfile.AmProfilePage.SetRowsPerPage | src/pages/accountProfile/AMProfile.jsx:294-297 | the page size takes the new value and the page goes back to 1 |
| AmProfile.AmProfilePage.Prev | src/pages/accountProfile/AMProfile.jsx:291 | the page becomes the previous page |
| AmProfile.AmProfilePage.Next | src/pages/accountProfile/AMProfile.jsx:292 | the page becomes the next page of the filtered rows |
| AmProfile.AmProfilePage.ApprovePending | src/pages/accountProfile/AMProfile.jsx:212-216 | the pending list becomes the approved list and nothing else changes |
| Dashboard.HealthStatus | src/pages/ExecutivePerformanceDashboard.jsx:24-28 | Green iff profile at least 85 and freshness at most 4 days; Yellow iff not Green but profile at least 70 and freshness at most 7; Red otherwise; the tone follows the status |
| Dashboard.HealthMonotone | src/pages/ExecutivePerformanceDashboard.jsx:24-28 | a higher profile or a fresher record never moves the status towards Red |
| Dashboard.RegionOf | src/pages/ExecutivePerformanceDashboard.jsx:35 | an item's region is never empty: a missing one is "Unknown" |
| Dashboard.Totals | src/pages/ExecutivePerformanceDashboard.jsx:36-49 | a region's bucket carries that region |
| Dashboard.TotalsCount | src/pages/ExecutivePerformanceDashboard.jsx:45-46 | a bucket's count is the number of items in its region |
| Dashboard.TotalsOccurs | src/pages/ExecutivePerformanceDashboard.jsx:36-44 | a region has a non-empty bucket iff some item is in it, and an untouched bucket is the fresh one |
| Dashboard.CountsSumToLength | src/pages/ExecutivePerformanceDashboard.jsx:31-50 | the bucket counts add up to the number of items |
| Dashboard.BucketRegionsSnoc | src/pages/ExecutivePerformanceDashboard.jsx:36-44 | the Map's keys are distinct, and one more item appends its region exactly when the region is new |
| Dashboard.TotalsSnoc | src/pages/ExecutivePerformanceDashboard.jsx:45-49 | one more item changes only its own region's bucket, by adding itself |
| Dashboard.RoundedMean | src/pages/ExecutivePerformanceDashboard.jsx:53-54 | `Math.round(total / count)` is the integer nearest the mean, halves rounded up |
| Dashboard.Aggregate | src/pages/ExecutivePerformanceDashboard.jsx:51-56 | one entry per region |
| Dashboard.AggregateAt | src/pages/ExecutivePerformanceDashboard.jsx:51-56 | entry `j` is the averaged bucket of the `j`-th region first seen, and that bucket is non-empty |
| Dashboard.HoldsStep | src/pages/ExecutivePerformanceDashboard.jsx:33-50 | one pass of the `forEach` body keeps the Map equal to the buckets and key order of the items seen so far |
| Dashboard.FillHolds | src/pages/ExecutivePerformanceDashboard.jsx:32-50 | after all items the Map holds each region's totals with its keys in first-seen order |
| Dashboard.FillBuckets | src/pages/ExecutivePerformanceDashboard.jsx:32-50 | the loop builds the same Map as the item-by-item definition |
| Dashboard.AggregateByRegion | src/pages/ExecutivePerformanceDashboard.jsx:31-57 | the method returns the aggregate of the items |
| Dashboard.AggregateExact | src/pages/ExecutivePerformanceDashboard.jsx:31-57 | each entry holds one region, the regions are distinct, and an entry's count is the positive number of items in its region |
| Dashboard.InsertString | src/pages/ExecutivePerformanceDashboard.jsx:142 | inserting adds exactly the one string |
| Dashboard.SortStrings | src/pages/ExecutivePerformanceDashboard.jsx:142 | the sorted list is a permutation of the input |
| Dashboard.SortAscending | src/pages/ExecutivePerformanceDashboard.jsx:142 | distinct strings come out in strictly ascending code-unit order |
| Dashboard.RegionOptionsExact | src/pages/ExecutivePerformanceDashboard.jsx:139-144 | the options start with "Semua Indonesia", then list in ascending order, once each, exactly the regions other than "" and "Unknown" that some AM carries |
| Dashboard.FilterAms | src/pages/ExecutivePerformanceDashboard.jsx:147-165 | the filtered list is no longer than the loaded one |
| Dashboard.FilterAmsMembers | src/pages/ExecutivePerformanceDashboard.jsx:147-165 | an AM is shown iff it is loaded, in the chosen region unless "Semua Indonesia" is chosen, and, when the search is not blank, its name or witel contains the lower-cased search |
| Dashboard.NoFilterKeepsAll | src/pages/ExecutivePerformanceDashboard.jsx:147-165 | "Semua Indonesia" with a blank search shows every AM, in order |
| Dashboard.WorstRegion | src/pages/ExecutivePerformanceDashboard.jsx:186-189 | none iff there are no entries; otherwise an entry whose average profile is the lowest |
| Dashboard.WorstRegionFirst | src/pages/ExecutivePerformanceDashboard.jsx:188 | as the sort is stable, the weakest entry is the first among those with its average |
| Dashboard.HealthCount | src/pages/ExecutivePerformanceDashboard.jsx:425-427 | a status count is at most the number of AMs |
| Dashboard.HealthPartition | src/pages/ExecutivePerformanceDashboard.jsx:424-428 | the Green, Yellow and Red counts add up to the number of AMs shown |
| Dashboard.InsightBoard.constructor | src/pages/ExecutivePerformanceDashboard.jsx:65-68 | the one opening insight and an empty input |
| Dashboard.InsightBoard.Type | src/pages/ExecutivePerformanceDashboard.jsx:448 | the input takes the text and the list stays |
| Dashboard.InsightBoard.AddInsight | src/pages/ExecutivePerformanceDashboard.jsx:196-206 | a blank input changes nothing; otherwise the trimmed text, by "Top-Level Manager", goes first and the input clears |
| Slugs.SkipRun | src/pages/SalesPlans.jsx:157 | skipping a run outside `[a-z0-9]` never lengthens the string, and shortens it when it starts with such a character |
| Slugs.SkipRunStops | src/pages/SalesPlans.jsx:157 | what is left after the run is empty or starts with a kept character |
| Slugs.CollapseShape | src/pages/SalesPlans.jsx:157 | `replace(/[^a-z0-9]+/g, '-')` leaves kept characters and single dashes, is empty only for the empty string, and starts with '-' exactly when the string starts outside `[a-z0-9]` |
| Slugs.CollapseChars | src/pages/SalesPlans.jsx:157 | collapsing keeps every `[a-z0-9]` character, in order |
| Slugs.StripDashes | src/pages/SalesPlans.jsx:158 | dropping the edge dashes never lengthens the string |
| Slugs.StripShape | src/pages/SalesPlans.jsx:158 | after dropping them, a dash-separated string is still dash-separated and neither starts nor ends with '-' |
| Slugs.TrimChars | src/pages/SalesPlans.jsx:156 | trimming keeps every `[a-z0-9]` character |
| Slugs.SlugifyShape | src/pages/SalesPlans.jsx:153-158 | the slug keeps exactly the `[a-z0-9]` characters of the lower-cased value, in order; the fallback is taken exactly when there are none; otherwise the slug is those characters joined by single dashes, with no dash at either end |
| Slugs.CollapseFixed | src/pages/SalesPlans.jsx:157 | a dash-separated string collapses to itself |
| Slugs.SlugFixed | src/pages/SalesPlans.jsx:153-158 | a dash-separated string with no dash at either end is its own slug |
| Slugs.SlugifyIdempotent | src/pages/SalesPlans.jsx:153-158 | a slug that is not the fallback is its own slug, whatever the later fallback |
| SalesPlans.Errors | src/pages/SalesPlans.jsx:174-183 | a title or customer name is in error iff blank, the start date iff missing, and the end date iff missing or, both given, before the start as strings compare |
| SalesPlans.AcceptedDatesOrdered | src/pages/SalesPlans.jsx:178-180 | dates that pass are both given and equal or in order |
| SalesPlans.NewPlanFields | src/pages/SalesPlans.jsx:198-220 | a plan created from a valid form has a trimmed non-empty title, a customer name and id, both dates, approval "Pending", no comment and no decision, the owner label "Account Manager", and an attachment iff a file was chosen |
| SalesPlans.StatusOf | src/pages/SalesPlans.jsx:236 | a plan's status is never empty: a missing one counts as "Draft" |
| SalesPlans.FilteredPlans | src/pages/SalesPlans.jsx:226-241 | the filtered list is no longer than the plans |
| SalesPlans.FilteredMembers | src/pages/SalesPlans.jsx:226-241 | a plan is listed iff it is loaded, a blank search or its title, customer or owner contains the trimmed lower-cased search, and the filter is "all" or its status, with "Draft" taking plans without one |
| SalesPlans.NoFilterKeepsAll | src/pages/SalesPlans.jsx:226-241 | a blank search with status "all" lists every plan, in order |
| SalesPlans.PayloadFields | src/pages/SalesPlans.jsx:245-255 | the stored record has a customer id and an approval; it is "Approved" iff the id is "sp-002", the title contains "Modernization DC & Cloud" or the plan was approved; a plan with none of these and no approval is "Pending"; no other field changes |
| SalesPlans.Merge | src/pages/SalesPlans.jsx:259-261 | the merged list ends with the payload |
| SalesPlans.MergeExact | src/pages/SalesPlans.jsx:259-261 | before the payload the merged list holds exactly the stored plans with another id, in order; merging again changes nothing; with no plan of that id the payload is appended |
| SalesPlans.Persisted | src/pages/SalesPlans.jsx:256-265 | nothing is written iff the slot cannot be parsed; otherwise the written list holds the payload |
| SalesPlans.PlanStore.constructor | src/pages/SalesPlans.jsx:257 | the store holds the given slots |
| SalesPlans.PlanStore.Persist | src/pages/SalesPlans.jsx:243-266 | no plan writes nothing; otherwise the slot `salesPlan_<customerId>` takes the persisted list, and no other slot changes |
| SalesPlans.StatusBadge | src/pages/SalesPlans.jsx:125-130 | a status badge has one of three styles |
| SalesPlans.ApprovalTone | src/pages/SalesPlans.jsx:132-137 | an approval tone has one of three styles |
| SalesPlans.BadgeFallbacks | src/pages/SalesPlans.jsx:125-139 | a missing status is styled as Draft and a missing approval as Pending; the three status options have three styles; "Active", "Closed", "Approved" and "Rejected" are exactly the values with their own style |
| SalesPlans.SalesPlansPage.constructor | src/pages/SalesPlans.jsx:162-167 | the seeded plans, no search, status "all", the dialog closed, the initial form and no errors |
| SalesPlans.SalesPlansPage.Validate | src/pages/SalesPlans.jsx:174-183 | the recorded errors are the form's errors, and the answer is true iff there are none |
| SalesPlans.SalesPlansPage.CreatePlan | src/pages/SalesPlans.jsx:198-224 | a form with errors records them and changes nothing else; a valid one puts the new plan first, closes the dialog and resets the form and errors |
| SalesPlans.SalesPlansPage.SetSearch | src/pages/SalesPlans.jsx:163 | the search takes the text and nothing else changes |
| SalesPlans.SalesPlansPage.SetStatusFilter | src/pages/SalesPlans.jsx:164 | the status filter takes the value and nothing else changes |
| ContactManagement.Head | src/pages/ContactManagement.jsx:32-33 | a word's first character is at most one character |
| ContactManagement.Initials | src/pages/ContactManagement.jsx:30-35 | the intended initials are at most two characters |
| ContactManagement.InitialsAgree | src/pages/ContactManagement.jsx:30-35 | the code as written and the intended initials agree unless the name has a space and ends with one |
| ContactManagement.InitialsOfWords | src/pages/ContactManagement.jsx:30-35 | for non-empty words joined by single spaces, the initials are the upper-cased first character of the first word and, with several words, of the last |
| ContactManagement.TrailingSpaceShowsUndefined | src/pages/ContactManagement.jsx:33-34 | for a word followed by a space, the code as written shows the letter then "UNDEFINED", where the intended initials are the letter alone |
| ContactManagement.AvatarIndex | src/pages/ContactManagement.jsx:46-49 | the colour index is within the six colours |
| ContactManagement.AvatarColor | src/pages/ContactManagement.jsx:37-49 | every name gets one of the six colours |
| ContactManagement.CharSumAppend | src/pages/ContactManagement.jsx:47 | the code sum of two joined strings is the sum of their sums |
| ContactManagement.CharSumMultiset | src/pages/ContactManagement.jsx:47 | the code sum depends only on which characters occur how often |
| ContactManagement.AvatarColorOrderFree | src/pages/ContactManagement.jsx:46-49 | a name and any rearrangement of its characters get the same colour |
| ContactManagement.InferDecisionRole | src/pages/ContactManagement.jsx:79-85 | the role is one of the three; "decision-maker" iff the lower-cased tag contains "decision"; "influencer" iff it contains "influencer" but not "decision"; "user" otherwise, and for no tag |
| ContactManagement.Enrich | src/pages/ContactManagement.jsx:87-92 | one contact per record; exactly the first three are priority; every status and role is filled |
| ContactManagement.PriorityPrefix | src/pages/ContactManagement.jsx:89 | when exactly the first `n` contacts are priority, `min(n, length)` are |
| ContactManagement.EnrichPriorityCount | src/pages/ContactManagement.jsx:87-92 | the seeded list has `min(3, size)` priority contacts |
| ContactManagement.Filtered | src/pages/ContactManagement.jsx:135-145 | the filtered list is no longer than the contacts |
| ContactManagement.FilteredMembers | src/pages/ContactManagement.jsx:135-145 | a contact is listed iff it is loaded and the query is empty or its lower-cased form is in the name, title, company or email, ignoring case |
| ContactManagement.EmailShapeFacts | src/pages/ContactManagement.jsx:260-261 | an address the pattern accepts has exactly one '@', no whitespace, at least five characters, and is its own trim |
| ContactManagement.EmailExamples | src/pages/ContactManagement.jsx:260-261 | "budi@telkom.co.id" is accepted and "budi@telkom" is not |
| ContactManagement.Errors | src/pages/ContactManagement.jsx:253-264 | name, title and company are in error iff blank; the email is "required" iff blank, and "invalid" iff not blank but its trim fails the pattern |
| ContactManagement.NewContactFields | src/pages/ContactManagement.jsx:271-282 | a contact from a valid form has a non-empty name, title and company, an accepted address and the form's priority |
| ContactManagement.NewContactId | src/pages/ContactManagement.jsx:271-273 | the id is a non-empty slug followed by '-' and the time stamp |
| ContactManagement.StampedId | src/pages/ContactManagement.jsx:273 | a non-empty slug, '-' and the stamp end with '-' and the stamp |
| ContactManagement.CompaniesCons | src/pages/ContactManagement.jsx:229 | one more contact adds its company to the set |
| ContactManagement.CompaniesBound | src/pages/ContactManagement.jsx:229 | there are no more companies than contacts, and at least one for a non-empty list |
| ContactManagement.Stats | src/pages/ContactManagement.jsx:227-235 | the priority count and the company count never exceed the total, and a non-empty list has a company |
| ContactManagement.StatsAfterAdd | src/pages/ContactManagement.jsx:227-235 | adding a contact adds one to the total, one to the priority count iff it is a priority contact, and at most one company |
| ContactManagement.Check | src/pages/ContactManagement.jsx:253-264 | the checks made one after the other give the form's errors |
| ContactManagement.ContactPage.constructor | src/pages/ContactManagement.jsx:120-126 | the seeded contacts, no query, page 1 of 10 rows, the dialog closed, the empty form and no errors |
| ContactManagement.ContactPage.SetQuery | src/pages/ContactManagement.jsx:320 | the query takes the text and the page is kept |
| ContactManagement.ContactPage.SetRowsPerPage | src/pages/ContactManagement.jsx:375-378 | the page size takes the value and the page goes back to 1 |
| ContactManagement.ContactPage.Prev | src/pages/ContactManagement.jsx:155 | the page becomes the previous page |
| ContactManagement.ContactPage.Next | src/pages/ContactManagement.jsx:156 | the page becomes the next page of the filtered contacts |
| ContactManagement.ContactPage.OpenAddModal | src/pages/ContactManagement.jsx:237-241 | a fresh form, no errors, the dialog open |
| ContactManagement.ContactPage.CloseAddModal | src/pages/ContactManagement.jsx:243-245 | the dialog closes and the form stays |
| ContactManagement.ContactPage.ChangeField | src/pages/ContactManagement.jsx:247-249 | the named text field takes the value |
| ContactManagement.ContactPage.SetPriority | src/pages/ContactManagement.jsx:509-510 | the priority flag takes the value |
| ContactManagement.ContactPage.Submit | src/pages/ContactManagement.jsx:251-289 | with any error the errors are shown and nothing else changes; otherwise the new contact goes first, the page returns to 1, the dialog closes and the form and errors clear |
| MultiSearch.AddValue | src/components/ui/MultiSearchInput.jsx:17-26 | nothing is handed on iff the trimmed text is empty, already a chip, or the list is full; otherwise the list gains the trimmed text at its end |
| MultiSearch.AddKeepsChipList | src/components/ui/MultiSearchInput.jsx:17-26 | an addition keeps the chips distinct, trimmed, non-empty and within `maxValues` |
| MultiSearch.KeyDown | src/components/ui/MultiSearchInput.jsx:28-33 | Enter or ',' adds the input's text, any other key does nothing; the input is empty afterwards iff an addition happened or it already was |
| MultiSearch.EnterAdds | src/components/ui/MultiSearchInput.jsx:17-33 | Enter on a fresh, non-blank text with room appends exactly that chip and clears the input |
| MultiSearch.RemoveValue | src/components/ui/MultiSearchInput.jsx:35-40 | a removal never lengthens the list |
| MultiSearch.RemoveValueSpec | src/components/ui/MultiSearchInput.jsx:36 | the filter drops exactly the chip at the index and keeps the rest in order; an index off the list changes nothing |
| MultiSearch.RemoveUndoesAdd | src/components/ui/MultiSearchInput.jsx:17-40 | removing the chip just added gives back the list before it |
| MultiSearch.RemoveKeepsChipList | src/components/ui/MultiSearchInput.jsx:35-40 | a removal keeps the chip list well formed and re-enables the input |
| MultiSearch.TrimAll | src/components/ui/MultiSearchInput.jsx:47 | every piece is trimmed, and none is lost |
| MultiSearch.PastedItems | src/components/ui/MultiSearchInput.jsx:45-48 | every kept piece is non-empty and not already a chip |
| MultiSearch.PastedItemsExact | src/components/ui/MultiSearchInput.jsx:45-48 | a text is kept iff it is non-empty, not a chip, and the trim of some piece of the paste cut at ',', ';' or a newline |
| MultiSearch.Take | src/components/ui/MultiSearchInput.jsx:50 | `slice(0, n)` is the first `min(n, length)` elements |
| MultiSearch.PasteRepeats | src/components/ui/MultiSearchInput.jsx:42-54 | as written, pasting "a,a" into an empty box gives two equal chips, breaking the list an addition by hand keeps |
| MultiSearch.Paste | src/components/ui/MultiSearchInput.jsx:42-54 | a paste keeps the chips already there, in front, and stays within `maxValues` |
| MultiSearch.PasteLength | src/components/ui/MultiSearchInput.jsx:42-50 | the list after a paste holds the old chips plus every fresh piece once, cut at `maxValues` |
| MultiSearch.PasteAddsFresh | src/components/ui/MultiSearchInput.jsx:42-50 | when the fresh pieces fit, every fresh, trimmed piece of the paste is a chip afterwards |
| MultiSearch.PasteKeepsChipList | src/components/ui/MultiSearchInput.jsx:42-54 | the intended paste keeps the chip list well formed, and every chip it adds is a fresh, trimmed piece of the paste |
| MultiSearch.PasteNothingNew | src/components/ui/MultiSearchInput.jsx:42-54 | pasting only blanks and existing chips changes nothing |
| MultiSearch.ClearAll | src/components/ui/MultiSearchInput.jsx:113 | "Clear all" leaves a well-formed empty list with the input enabled |
| MultiSearch.ClearThenAdd | src/components/ui/MultiSearchInput.jsx:17-26 | after clearing, any non-blank text can be added again |
| MultiSearch.Notify | src/components/ui/MultiSearchInput.jsx:21-25 | `onChange` gets the new list, and `onSearch` the same list iff it is set |
| MultiSearch.ClearAllHandoff | src/components/ui/MultiSearchInput.jsx:113 | "Clear all" hands the empty list to `onChange` and calls no search |
| MultiSearch.ClearSkipsSearch | src/components/ui/MultiSearchInput.jsx:35-40 | clearing a one-chip list tells `onChange` what removing the chip would, but unlike the removal it does not ask `onSearch` to search the empty list |
| Guidance.CountStats | src/components/customerCSG/GuidancePrinciple.jsx:166-178 | the loop counts the groups, their rows and the rows' sub-activities |
| Guidance.DefaultShape | src/components/customerCSG/GuidancePrinciple.jsx:8-124 | each default category has one row, and only the first two rows have a sub-activity, one each |
| Guidance.DefaultPrefixStats | src/components/customerCSG/GuidancePrinciple.jsx:8-124 | the first `n` default categories hold `n` activities and `min(n, 2)` sub-activities |
| Guidance.DefaultStats | src/components/customerCSG/GuidancePrinciple.jsx:8-124 | the sheet starts with nine categories, nine activities and two sub-activities |
| Guidance.StatsAgree | src/components/customerCSG/GuidancePrinciple.jsx:166-178 | sheets with the same rows and sub-activities per group have the same counts |
| Guidance.ChildrenAgree | src/components/customerCSG/GuidancePrinciple.jsx:173-175 | row lists with the same number of sub-activities per row have the same total |
| Guidance.Toggled | src/components/customerCSG/GuidancePrinciple.jsx:185-191 | the row is expanded afterwards iff it was not, and every other row keeps its state |
| Guidance.ToggleTwice | src/components/customerCSG/GuidancePrinciple.jsx:185-191 | toggling a row twice restores the set |
| Guidance.SetField | src/components/customerCSG/GuidancePrinciple.jsx:201 | the one column takes the value; the id and the other columns stay |
| Guidance.InCategory | src/components/customerCSG/GuidancePrinciple.jsx:195-206 | the groups of the category get their rows replaced, the others stay, and no group is added, dropped or renamed |
| Guidance.ChildEditDropped | src/components/customerCSG/GuidancePrinciple.jsx:193-208 | as written, editing a sub-activity whose id no top-level row of its category carries leaves the sheet unchanged, while the intended edit sets the field |
| Guidance.WithCellExact | src/components/customerCSG/GuidancePrinciple.jsx:193-208 | the intended edit sets the field on every line of the category with the id, keeps every other line, adds and removes nothing, and leaves other categories alone |
| Guidance.WithCellKeepsStats | src/components/customerCSG/GuidancePrinciple.jsx:166-208 | an edit leaves the counts unchanged |
| Guidance.WithChildExact | src/components/customerCSG/GuidancePrinciple.jsx:210-228 | the parent rows of the category gain one empty sub-activity at the end; every other row and category stays |
| Guidance.ChildrenGrow | src/components/customerCSG/GuidancePrinciple.jsx:217-223 | a group's sub-activities grow by the number of its rows carrying the parent id |
| Guidance.SubActivitiesGrow | src/components/customerCSG/GuidancePrinciple.jsx:212-228 | over the sheet, sub-activities grow by the number of matching parent rows and activities stay |
| Guidance.WithChildStats | src/components/customerCSG/GuidancePrinciple.jsx:166-228 | adding a sub-activity keeps the activity count and adds one sub-activity per matching parent row |
| Guidance.WithActivityExact | src/components/customerCSG/GuidancePrinciple.jsx:232-243 | each group of the category ends with the new empty row; the others stay |
| Guidance.WithActivityStats | src/components/customerCSG/GuidancePrinciple.jsx:166-243 | adding an activity adds one row per group of the category and no sub-activity |
| Guidance.DropId | src/components/customerCSG/GuidancePrinciple.jsx:256 | the kept sub-activities are lines of the list without the id |
| Guidance.DropRow | src/components/customerCSG/GuidancePrinciple.jsx:263 | the kept rows are rows of the list without the id |
| Guidance.DropIdKeeps | src/components/customerCSG/GuidancePrinciple.jsx:256 | a line is kept iff it is in the list and has another id |
| Guidance.DropRowKeeps | src/components/customerCSG/GuidancePrinciple.jsx:263 | a row is kept iff it is in the list and has another id |
| Guidance.DeleteChildExact | src/components/customerCSG/GuidancePrinciple.jsx:247-260 | with a parent id, the parent's sub-activities lose exactly those with the id, and every top-level row stays in place |
| Guidance.DeleteRowExact | src/components/customerCSG/GuidancePrinciple.jsx:247-265 | without a parent id, the category's groups lose exactly the rows with the id, sub-activities and all; other categories stay |
| Guidance.DeleteLeavesNone | src/components/customerCSG/GuidancePrinciple.jsx:247-266 | no line with the id is left where the deletion looked |
| Guidance.GuidanceSheet.constructor | src/components/customerCSG/GuidancePrinciple.jsx:162-164 | the given groups, not editing, nothing expanded |
| Guidance.GuidanceSheet.EditToggle | src/components/customerCSG/GuidancePrinciple.jsx:180-183 | a given `onEdit` is called and the mode stays; otherwise the mode flips |
| Guidance.GuidanceSheet.ToggleRow | src/components/customerCSG/GuidancePrinciple.jsx:185-191 | the expanded set becomes the toggled set |
| Guidance.GuidanceSheet.UpdateCell | src/components/customerCSG/GuidancePrinciple.jsx:193-208 | the sheet becomes the intended edit of it |
| Guidance.GuidanceSheet.AddChild | src/components/customerCSG/GuidancePrinciple.jsx:210-230 | the sub-activity is added and the parent is expanded |
| Guidance.GuidanceSheet.AddActivity | src/components/customerCSG/GuidancePrinciple.jsx:232-245 | the row is added and expanded |
| Guidance.GuidanceSheet.DeleteRow | src/components/customerCSG/GuidancePrinciple.jsx:247-272 | the line goes and its id leaves the expanded set |
| GlobalMessage.ConfirmVariant | src/components/ui/GlobalMessage.jsx:55-61 | the confirm button is destructive iff the type is "danger", secondary iff "warning", primary otherwise, and never the ghost look of the cancel button |
| GlobalMessage.ConfigureDefaults | src/components/ui/GlobalMessage.jsx:11-27 | a left-out type, confirm text or cancel text becomes "info", "Ya" or "Batal"; given ones, the title, the message and the handler are kept |
| GlobalMessage.MessageProvider.constructor | src/components/ui/GlobalMessage.jsx:9 | no dialog is open |
| GlobalMessage.MessageProvider.ShowMessage | src/components/ui/GlobalMessage.jsx:11-27 | the configured dialog takes the slot, replacing any open one |
| GlobalMessage.MessageProvider.Close | src/components/ui/GlobalMessage.jsx:29-50 | the slot empties |
| GlobalMessage.MessageProvider.HandleConfirm | src/components/ui/GlobalMessage.jsx:31-34 | the open dialog's handler, if any, runs, and the slot empties |
| GlobalMessage.ShowTwiceConfirm | src/components/ui/GlobalMessage.jsx:11-34 | after two dialogs in a row, confirming runs only the second's handler |
| Register.InitialForm | src/pages/Register.jsx:18-26 | the form starts with the first role, "sales" |
| Register.Update | src/pages/Register.jsx:30-32 | the named field takes the value and every other field stays |
| Register.FormByKeys | src/pages/Register.jsx:18-26 | forms agreeing on every field are equal |
| Register.UpdateLaws | src/pages/Register.jsx:30-32 | writing a field's own value changes nothing, and of two writes to one field the last wins |
| Register.DisabledIffRequiredEmpty | src/pages/Register.jsx:49-54 | the button is disabled iff one of name, username, email, password and confirmation is empty; the phone and the role play no part; a fresh form is disabled |
| Register.Submit | src/pages/Register.jsx:34-47 | the page goes to /login iff the passwords match, and then with no error; otherwise the mismatch message shows |
| Register.SubmitLandsOnSignIn | src/pages/Register.jsx:46 | a successful registration lands on the public sign-in entry, which needs no signed-in user |
| Register.RegisterPage.constructor | src/pages/Register.jsx:18-28 | the initial form, no error, no navigation |
| Register.RegisterPage.SetField | src/pages/Register.jsx:30-32 | the form becomes the updated form |
| Register.RegisterPage.HandleSubmit | src/pages/Register.jsx:34-47 | the error and the navigation become those of the submission, and the form stays |

## Left out

- Network services (`getAMs`, `createAM`, `updateAM`, the approval and dashboard fetches, the REST client): their answers are parameters of the model (the delivered rows or the error message), and the fetch-and-normalise plumbing is not part of this model.
- Browser storage: `localStorage` is a map from slot names to stored text, and JSON serialisation is a `Stored` value: a serialised identity, empty text, or text that does not parse. `JSON.parse` itself is not modelled.
- Clocks and ids: `Date.now()`, `new Date()` and the timestamp ids are parameters (`now`), not read from a clock.
- JavaScript `Date` parsing: dates and times are parsed to whole-minute instants counted from 0000-01-01. The zone is a parameter of `Dates.ParseInstantIn`, which reads a date alone as UTC midnight and a date with a time as local time. The statuses, badges and edit windows are computed at UTC; in another zone every date with a time moves by the same offset, which amounts to moving `now`, and the one reading that moves differently, a date alone on the activities page, is stated by `ActivityCard.CardInstantWithoutTime` (see Findings).
- Locale formatting (`toLocaleDateString`, `toLocaleString`) and `localeCompare`: the contact page's company option list is not modelled, and the dashboard's region list uses the default code-unit `sort()`, which is modelled.
- Floating point: `avgFreshness` with `toFixed(1)`, the national summary averages, the distribution percentages and the file sizes shown in KB. `Math.round` of an integer mean is modelled exactly.
- Dashboard data loading (the `AM_AKTIF` filter, freshness days from `UPDATED_AT`): the model starts from the loaded AM records.
- Text: case mapping covers ASCII letters only, `charCodeAt` counts one code unit per `char`, and there is no Unicode normalisation. Surrogate pairs are not modelled.
- Query strings: a URL is an ordered list of parameters. Percent-encoding by `URLSearchParams` (section 5.2 of the WHATWG URL Standard) is not modelled.
- Side effects with no observable state here: `FileReader` and data URLs, `window.open`, `alert`, `confirm` and console logging. Uploaded files are opaque values.
- Navigation after a save and the router itself: only the target path is recorded. RequireAuth, RequireRole and Layout are modelled through `hasRole` and the route table, not as components.
- Rendering and styling: only values that decide what is shown are modelled (badges, labels, the disabled states, the sidebar's items). Relationship and decision badge colours are left out.
- The pagination component's `onPageChange` (src/pages/accountProfile/AMUpdate.jsx:508) only sets the page it is given, and is not modelled.
- The AM profile page's initial `levelAm` and `status` filter fields are never read by the filter, so they are not part of the model's filter state.
- The AM form's renewal field: the input and its label use the key `perpanjng_pro_hire`, while the initial form uses `perpnjng_pro_hire`. The model keeps both keys as the source has them and does not claim this as a defect, because whether the backend expects either key is not visible.
- Row values that are not strings (numbers, null in API rows) are modelled as text; a missing value is "".
- MultiSearch: typing into the input is the input's own state and is not modelled. The callbacks are modelled by `Handoff`: adding, removing and pasting hand the new list to both, and "Clear all" only to `onChange`.
- GlobalMessage: an argument passed as `null` is not modelled; only a left-out argument takes a default. An `onConfirm` handler is a tag, and running it is the caller's business.
- Register: the phone and role fields are kept in the form but nothing is sent anywhere, because the source sends nothing.
- Guidance: rendering, and every prop other than `items` (the sheet's initial groups) and `onEdit`, are left out.
- Guidance: a row holds one level of sub-activities. `renderRow` (src/components/customerCSG/GuidancePrinciple.jsx:345) would also render a sub-activity's own children, but the default groups have none and `addChild` only extends top-level rows. The model's `Row` cannot hold them, so `items` with deeper rows is not modelled.
- ActivitiesPage: activities without an instant compare equal in the sort. The model sorts them by a stable insertion sort, which is one of the orders the source's comparator allows.
- Guidance.GuidanceSheet.UpdateCell: uses the intended `WithCell`, which also edits sub-activities. The code as written is `WithCellAsWritten` (see Findings).
- ActivityForm.FormDeeplink: a time outside `HH:MM` range (such as "24:00", which some engines read as the next midnight) gives "#". The form's only call of the link builder comes after validation, which refuses such times (`HourTwentyFourRefused`).
- ActivityForm.SubmissionOf: the `createdAt`/`updatedAt` stamps and the invitees' empty `phone` default are not modelled; invitees are sent as they are.
- ActivityForm.FormDeeplink: reads the hour with the intended `Clock`, where an hour of 0 stays 0. The code as written is `ClockAsWritten` (see Findings).
- MultiSearch.Paste: de-duplicates the pasted pieces among themselves. The code as written is `PasteAsWritten` (see Findings).
- ActivitiesPage.ComputedStatus: computed at UTC, where the page's date-only reading as written and the intended `LocalPageInstantIn` agree (`LocalPageAtUtc`); the card/page split east of UTC is `CardAheadOfPage` (see Findings).
- ContactManagement.Initials: an empty last word adds nothing. The code as written is `InitialsAsWritten` (see Findings).

## Findings

| source | as written | input that shows it | evidently intended | confidence | as-written member | corrected member |
|---|---|---|---|---|---|---|
| src/components/activities/ActivityFormModal.jsx:51-52 | `hours \|\| 9` treats hour 0 as missing | time "00:30" starts the Outlook event at 09:30 | only a missing or non-numeric hour defaults to 9 | not executed | ActivityForm.MidnightHourAsWritten | ActivityForm.FormStartIsInstant |
| src/pages/ContactManagement.jsx:32-34 | the last word's first character is read with `?.[0]` and interpolated | name "Budi " shows "BUNDEFINED" | an empty last word adds nothing: "B" | not executed | ContactManagement.TrailingSpaceShowsUndefined | ContactManagement.InitialsOfWords |
| src/components/customerCSG/GuidancePrinciple.jsx:193-208 | `updateCell` rewrites only top-level rows, though sub-activities are edited through it (line 345) | editing a cell of any sub-activity | the line with that id, at either level, takes the value | not executed | Guidance.ChildEditDropped | Guidance.WithCellExact |
| src/components/activities/ActivityCard.jsx:16 | the card reads a missing time as local `00:00`, while the page (src/pages/ActivitiesPage.jsx:108-110) parses the date alone, as UTC midnight | an activity dated 2024-03-05 with no time, seen at 03:00 on that day in UTC+7: the card shows "Perlu Update", the page counts it upcoming | the card and the page read the same instant, local midnight, as every other date in the application is read | not executed | ActivityCard.CardAheadOfPage | ActivityCard.CardMatchesLocalPage |
| src/components/ui/MultiSearchInput.jsx:45-50 | pasted pieces are checked against existing chips but not against each other | pasting "a,a" into an empty box gives chips ["a", "a"] | each new piece once, as `addValue` guarantees | not executed | MultiSearch.PasteRepeats | MultiSearch.PasteKeepsChipList |

Two behaviours are exposed as lemmas, but they are not claimed as defects. `AmForm.SmeIdOverflow`: after "A99999" the next SME id is "A100000", which fails the generator's own `A\d{5}` pattern. `App.ApprovalPathsFallBack`: the menu links /admin/approval and /manager/approval (src/components/layout/Sidebar.jsx:24-25,57) have no route entry, so they fall back to "/".
