# Team performance tracker — rule layer in Dafny

This project models the rule layer of a single-page team-performance tracker.
Companies sign up an administrator, who adds reviewers and team members.
Reviewers and administrators give each member positive feedback and
improvement items, and team members read their own. On top of that, the app
shows a dashboard, per-member cards and filterable reports with a CSV export.

The model covers:

- **The record store** (`firebase_service.dfy`). The `companies`, `users` and `feedbacks` collections are held as sequences of (document id, fields) entries on a `Store` class. A field map is `Js.Doc`: a `map<string, Value>` where a missing key is JavaScript's `undefined` and a Firestore timestamp is `Stamp(seconds)`.
  - Sign-up, member creation, listing, update, the cascading delete and the feedback operations are methods.
  - The authentication service, the server clock, the random password generator, the outcomes of the sign-up's two document writes and the cascade's query and batch failures are parameters or nondeterministic choices.
- **The application shell** (`app.dfy`). `AppContent` holds the loaded lists and the four handlers the tabs call: save member, delete member, submit feedback and toggle status. Each handler is stated against the store's new state. The handlers reload the lists, and the reload is stated as the role-scoped listing sorted newest first.
- **The feedback lifecycle** (`feedback_form.dfy`, `feedback_item.dfy`, `feedback_tab.dfy`). This covers what a submission carries and the open/closed toggle. It also covers the `yyyy-mm-dd` ⇄ `dd/mm/yyyy` deadline conversion.
- **Reports and counters** (`reports.dfy`, `tallies.dfy`, `dashboard.dfy`, `member_card.dfy`, `team_member_card.dfy`).
  - Reports apply a staged filter pipeline, show summary counters and export a CSV document. The CSV quotes and doubles quotes in the two free-text columns only, and its lines are joined with `\n`, so the last line has no terminator.
  - The dashboard's recent-activity list is an in-place insertion sort on an `array`.
- **Role gates** (`roles.dfy`, `protected_route.dfy`, `navigation.dfy`, `team_members.dfy`, `member_form.dfy`). A role is `Admin | Reviewer | TeamMember | Other(string)`.
- **Sign-in helpers** (`login.dfy`): sign-up validation and the error-code map.

General-purpose pieces:

- `seqs.dfy`: `filter`, `find`, `slice` and their laws.
- `text.dfy`: `split`, `join` and number printing.
- `sorting.dfy`: the insertion sort.
- `js.dfy`: truthiness, `||`, spread, `delete` and `new Date(...)` on a field.

The model follows the code, including where it is more permissive than the screens suggest:

- `updateTeamMember` writes whatever fields it is given, `email` included (`src/services/firebaseService.js:240-252`).
- `createTeamMember` does not refuse an `admin` role (`src/services/firebaseService.js:137-196`).
- The status toggle does not check the feedback's type (`src/App.jsx:136-150`).
- The cascading delete removes the member first and its feedback afterwards, after a separate query, in a separate batch. If that query or batch fails, the member is gone and the feedback stays (`src/services/firebaseService.js:255-295`).

## Model

| member | source | states |
|---|---|---|
| FirebaseService.Store.SignUp | src/services/firebaseService.js:48-82 | An accepted account with both writes accepted appends one company under a fresh id and one admin user of that company under a fresh id, and returns both ids. A rejected account or a refused company write returns that error and changes nothing. A refused user write returns its error after the company is appended, leaving it without an admin |
| FirebaseService.AdminRecordSpec | src/services/firebaseService.js:64-75 | The first user of a company is an admin with position `Administrator`, of exactly that company and account, with empty experience and skills and no forced password change |
| FirebaseService.Store.GeneratePassword | src/services/firebaseService.js:127-134 | A generated password has the requested length and draws every character from the 67-character set |
| FirebaseService.Store.CreateTeamMember | src/services/firebaseService.js:137-196 | On success, exactly one user is appended: the built member record under a fresh id, in the caller's company. The result reports the member's name, email and the non-empty password the account was opened with, which is generated iff none was supplied. On failure nothing changes |
| FirebaseService.MemberRecord | src/services/firebaseService.js:153-165 | Role defaults to `team_member`; position falls back to the role; experience and skills default to empty; `mustChangePassword` holds iff no password was supplied; nothing outside the listed fields is stored |
| FirebaseService.SelectionMembers | src/services/firebaseService.js:218-221 | A listing holds one document per matching entry: the document id under `id`, overridden by an `id` field of the document's own, then its fields |
| FirebaseService.MemberListingSpec | src/services/firebaseService.js:199-237 | A team member sees only their own user records, by uid, with no company check. Any other role sees the users of the given company. A failed query yields the empty list |
| FirebaseService.FeedbackListingSpec | src/services/firebaseService.js:298-337 | A team member sees only feedback whose `memberUid` is their uid. Any other role sees the feedback of the given company. A failed query yields the empty list |
| FirebaseService.Store.ListNewestFirst | src/services/firebaseService.js:224-230 | The listing is a permutation of the matching documents, ordered newest first by creation time |
| FirebaseService.Store.GetTeamMembers | src/services/firebaseService.js:199-237 | Returns exactly the role-scoped user listing (as a multiset), newest first; changes nothing |
| FirebaseService.Store.GetFeedbacks | src/services/firebaseService.js:298-337 | Returns exactly the role-scoped feedback listing (as a multiset), newest first; changes nothing |
| FirebaseService.Patch | src/services/firebaseService.js:244-247 | An update writes the given fields and `updatedAt`, and keeps every other field |
| FirebaseService.PatchEntries | src/services/firebaseService.js:356-368 | Only the entry with the given id is patched; every other entry, and the order and ids, are unchanged |
| FirebaseService.Store.UpdateTeamMember | src/services/firebaseService.js:240-252 | Succeeds iff the id names a user. On success that user is patched with the given fields, `email` included. On failure nothing changes |
| FirebaseService.Store.DeleteTeamMember | src/services/firebaseService.js:255-295 | A missing member is an error and changes nothing. Otherwise the member is removed. The feedback about its uid in the company is removed only when the batch runs; the result is Ok iff the member has a uid, the company id is set, the feedback query succeeds and the batch ran or had nothing to delete |
| FirebaseService.Store.AddFeedback | src/services/firebaseService.js:339-353 | Appends one feedback under a fresh id, built as the stored feedback record, and returns the submitted fields with that id |
| FirebaseService.FeedbackRecord | src/services/firebaseService.js:342-347 | The stored feedback carries the company id and creation/update time and every submitted field |
| FirebaseService.Store.UpdateFeedback | src/services/firebaseService.js:356-368 | Succeeds iff the id names a feedback; on success only that feedback is patched |
| FirebaseService.Store.CompanyInfo | src/services/firebaseService.js:372-384 | The company document with the given id and its `id` field, or nothing when there is none |
| Sorting.SortNewestFirst | src/components/dashboard/Dashboard.jsx:40-45 | The array is sorted in place into a permutation of its old contents, non-increasing by the key |
| App.NewStatus | src/App.jsx:142 | The new status is `closed` iff the current one is `open`, and `open` otherwise |
| App.ToggleTwice | src/App.jsx:142 | Toggling an open or closed item twice restores its status |
| App.FeedbackToSave | src/App.jsx:119-124 | The saved fields carry the selected member's uid and name, no `memberId`, and every other submitted field unchanged |
| App.SelectedMember | src/App.jsx:113-116 | Finds the first loaded member whose `id` is the submitted `memberId`; none iff no member has it |
| App.AppContent.LoadData | src/App.jsx:34-62 | Without a company id nothing changes. Otherwise the lists become the role-scoped listings newest first, the company info is reloaded and loading ends |
| App.AppContent.HandleSaveMember | src/App.jsx:65-87 | Editing patches that member and returns no credentials. Adding appends the new member to the user's company under a fresh id and returns its credentials: the name, the email and the non-empty password the account was opened with, generated iff none was supplied, so the team screen shows them. Success reloads the lists; a failure changes no user and is passed on |
| App.AppContent.HandleDeleteMember | src/App.jsx:90-104 | An unconfirmed delete changes nothing, and no company ever changes. A confirmed delete of an unknown id fails and changes nothing. For an existing member exactly that user is removed; it succeeds iff the member has a uid, the user has a company, the feedback query succeeds and the batch commits or has nothing to delete; on success exactly the member's feedback in that company is removed and the lists are reloaded, on failure no feedback changes |
| App.AppContent.HandleSubmitFeedback | src/App.jsx:107-133 | An unknown selected member stores nothing. Otherwise one feedback is appended, carrying the member's uid and name and no `memberId`, under a fresh id, and the lists are reloaded |
| App.AppContent.HandleToggleStatus | src/App.jsx:136-150 | Succeeds iff the id names a stored feedback. On success only that feedback's status is flipped, whatever its type, and the lists are reloaded |
| App.ToggleTouchesOnlyStatus | src/App.jsx:136-150 | The toggle changes only `status` and `updatedAt` of the targeted feedback, and no other feedback; the type is kept |
| FeedbackForm.AvailableMembersSpec | src/components/feedback/FeedbackForm.jsx:18-22 | The selectable subjects are exactly the team members and reviewers other than the current user, in order and with every copy; never an admin |
| FeedbackForm.InitialForm | src/components/feedback/FeedbackForm.jsx:5-13 | A fresh form has the seven fields, all empty except the reviewer, which is the current user's name |
| FeedbackForm.Submit | src/components/feedback/FeedbackForm.jsx:24-44 | A submission is `open` iff its type is improvement (else `closed`) and carries the reviewer's uid and every form field; the form resets and hides the action items |
| FeedbackForm.Change | src/components/feedback/FeedbackForm.jsx:51-53 | Editing a field sets that field and keeps the others |
| FeedbackForm.TypeChange | src/components/feedback/FeedbackForm.jsx:46-49 | Choosing a type records it and shows the action items iff it is `improvement` |
| FeedbackForm.FormatDateForDisplay | src/components/feedback/FeedbackForm.jsx:56-63 | An empty date shows as empty; an invalid date shows `NaN` in each place |
| FeedbackForm.DisplayLayout | src/components/feedback/FeedbackForm.jsx:56-63 | A valid date shows as two digits denoting the day, `/`, two digits denoting the month, `/`, the year |
| FeedbackForm.FormatDateForInput | src/components/feedback/FeedbackForm.jsx:66-70 | An empty stored deadline gives an empty input value |
| FeedbackForm.FormatDateForInputSpec | src/components/feedback/FeedbackForm.jsx:66-70 | `dd/mm/yyyy` becomes `yyyy-mm-dd` |
| FeedbackForm.DateChange | src/components/feedback/FeedbackForm.jsx:72-80 | A picked date is stored in display form, an empty pick as empty, and no other field changes |
| FeedbackForm.DateRoundTrip | src/components/feedback/FeedbackForm.jsx:56-80 | A picked `yyyy-mm-dd` that the calendar reads as that day comes back unchanged after storing and re-reading |
| FeedbackItem.MemberName | src/components/feedback/FeedbackItem.jsx:33 | The item names the stored member name, else the resolved member's name, else `Unknown Member` |
| FeedbackItem.ShowsToggleSpec | src/components/feedback/FeedbackItem.jsx:94 | The toggle appears iff the item is an improvement, a handler is given and the viewer is an admin or reviewer |
| FeedbackItem.ToggleTargetsOwnRecord | src/components/feedback/FeedbackItem.jsx:97 | Clicking a listed item's toggle passes its own document id and stored status, so the store flips exactly that record |
| FeedbackItem.ToggleLabel | src/components/feedback/FeedbackItem.jsx:104-114 | The button reads `Mark as Resolved` iff the item is open, `Reopen Item` otherwise |
| FeedbackItem.CreatedLabel | src/components/feedback/FeedbackItem.jsx:6-30 | A missing creation time shows `Unknown date` |
| Js.DateLabel | src/components/feedback/FeedbackItem.jsx:6-30 | A falsy time gives the fallback. A timestamp is shown from its seconds ×1000, and a date string from its parse. The team member card's `formatDate` (`src/components/team-members/TeamMemberCard.jsx:11-23`) is this with fallback `Unknown` |
| FeedbackTab.CanGiveFeedbackSpec | src/components/feedback/FeedbackTab.jsx:7 | Feedback can be given iff the role is admin or reviewer |
| FeedbackTab.Title | src/components/feedback/FeedbackTab.jsx:9-16 | The title is `My Feedback` iff the viewer is a team member |
| FeedbackTab.EmptyState | src/components/feedback/FeedbackTab.jsx:18-35 | The empty-state message depends on the role and, for managers, on whether members exist |
| FeedbackTab.ItemMember | src/components/feedback/FeedbackTab.jsx:78 | An item's member is the first loaded member with the item's `memberId`, none iff there is none |
| FeedbackTab.TabGating | src/components/feedback/FeedbackTab.jsx:43-86 | A team member never sees the form or a toggle; a shown toggle implies a manager; a shown form implies a shown list |
| Tallies.NonAdmins | src/components/team-members/TeamMembers.jsx:43 | The displayed members are exactly the non-admin members, in order and with every copy |
| Tallies.TallyOf | src/components/dashboard/Dashboard.jsx:11-14 | The total is the list length; positive, improvement and open are the lengths of the filters by `type === 'positive'`, `type === 'improvement'` and `status === 'open'`; positive plus improvement is at most the total, open at most the total |
| Tallies.OpenClosedBound | src/components/dashboard/Dashboard.jsx:233-239 | Open plus closed counts are at most the number of feedback items |
| Tallies.BreakdownOf | src/components/dashboard/MemberCard.jsx:7-9 | The positive and improvement lists are the member's items filtered by type; the open improvements are exactly the open items among the improvements; no positive item is counted open |
| Dashboard.DashboardStats | src/components/dashboard/Dashboard.jsx:8-36 | Four cards; the positive and improvement counts together, and the open count, never exceed the feedback count |
| Dashboard.DashboardStatsSpec | src/components/dashboard/Dashboard.jsx:9-34 | A team member's first card counts all its feedback, any other role's the non-admin members; the others count positive, improvement and open feedback |
| Dashboard.RecentActivity | src/components/dashboard/Dashboard.jsx:38-47 | The feedback array is sorted in place, newest first, as a permutation; the recent list is its first five |
| Dashboard.RecentActivitySpec | src/components/dashboard/Dashboard.jsx:38-47 | The recent list has at most five items, newest first, all from the feedback |
| Dashboard.TeamOverview | src/components/dashboard/Dashboard.jsx:169-171 | The first six non-admin members (all of them when fewer), in their listed order |
| Dashboard.OpenClosed | src/components/dashboard/Dashboard.jsx:233-239 | The open and closed counts, together at most the number of items |
| Dashboard.CurrentUserProfile | src/components/dashboard/Dashboard.jsx:64 | The profile is the first loaded member with the user's uid; found iff one exists |
| MemberCard.Counts | src/components/dashboard/MemberCard.jsx:6-9 | A member's feedback is exactly the items whose `memberUid` is the member's uid, in order and with every copy; its positive, improvement and open-improvement lists are that feedback filtered by type and status |
| MemberCard.RoleLabelOf | src/components/dashboard/MemberCard.jsx:20-27 | The label is `Unknown` iff the role is none of the three |
| Roles.RoleLabelSpec | src/components/dashboard/MemberCard.jsx:20-27 | Each known role has its own label and distinct known roles get distinct labels |
| TeamMemberCard.CountsAsWritten | src/components/team-members/TeamMemberCard.jsx:6-9 | As written, a member's feedback is the items whose `memberId` is the member's document id, in order and with every copy; its positive, improvement and open-improvement lists are that feedback filtered by type and status |
| TeamMemberCard.NeverCountsSavedFeedback | src/components/team-members/TeamMemberCard.jsx:6 | Feedback saved through the app about a member is never counted on that member's team card, though the member card counts it |
| TeamMemberCard.SavedFeedbackKeeps | src/App.jsx:119-126 | Saving and listing a feedback keeps every submitted field other than the member and bookkeeping fields, such as its type |
| TeamMemberCard.SavedFeedbackExample | src/components/team-members/TeamMemberCard.jsx:6 | A concrete member `m1`/`u1` with one saved item: team card count 0, member card count 1 |
| TeamMembers.CanManageMembersSpec | src/components/team-members/TeamMembers.jsx:40 | Members can be managed iff the role is admin or reviewer |
| TeamMembers.RoleCounts | src/components/team-members/TeamMembers.jsx:182-194 | Reviewer and team-member counts of the displayed members, together at most their number |
| TeamMembers.TeamMembersView.AddMember | src/components/team-members/TeamMembers.jsx:52-54 | Opens the form and leaves the rest of the view state alone |
| TeamMembers.TeamMembersView.EditMember | src/components/team-members/TeamMembers.jsx:24-27 | Opens the form on the chosen member |
| TeamMembers.TeamMembersView.Cancel | src/components/team-members/TeamMembers.jsx:29-32 | Closes the form and forgets the member being edited |
| TeamMembers.TeamMembersView.SaveMember | src/components/team-members/TeamMembers.jsx:12-22 | A failed save leaves the view unchanged. A successful save closes the form. Credentials are shown iff a new member came back with a password |
| MemberForm.InitialForm | src/components/team-members/MemberForm.jsx:5-14 | The form copies the edited member's fields or empties them; role defaults to `team_member`; the password is empty and generated by default |
| MemberForm.RoleOptions | src/components/team-members/MemberForm.jsx:27-40 | The last option is team member; there are two, reviewer first, iff the user is an admin or reviewer; admin is never offered |
| MemberForm.MemberFormState.Change | src/components/team-members/MemberForm.jsx:55-57 | Editing a field sets it and keeps the others |
| MemberForm.MemberFormState.Submit | src/components/team-members/MemberForm.jsx:42-53 | The submitted data never has the generated-password flag and has the password iff it is not generated; other fields pass through |
| Reports.FilteredSpec | src/components/reports/ReportsTab.jsx:15-57 | A feedback is kept iff it passes every set filter, with every copy; the result keeps the input order and filtering again changes nothing |
| Reports.PipelineIsOneFilter | src/components/reports/ReportsTab.jsx:15-57 | The four successive filters equal one filter by their conjunction |
| Reports.InitialFiltersKeepAll | src/components/reports/ReportsTab.jsx:7-12 | The initial filters keep every feedback |
| Reports.DateFilterSpec | src/components/reports/ReportsTab.jsx:30-53 | Range `all` keeps every item. Any other range keeps exactly the items with a valid creation time at or after its cutoff: the same local time seven calendar days back for `week`, one or three calendar months back for `month` and `quarter`, otherwise now |
| Reports.Summary | src/components/reports/ReportsTab.jsx:254-276 | The total is the number of filtered items; positive, improvement and open are the lengths of the filtered items' filters by type and status |
| Reports.AvailableMembers | src/components/reports/ReportsTab.jsx:119 | The member drop-down offers exactly the non-admin members, in order and with every copy |
| Reports.Quote | src/components/reports/ReportsTab.jsx:84-85 | A quoted free-text cell starts and ends with `"` |
| Reports.QuoteRoundTrip | src/components/reports/ReportsTab.jsx:84-85 | Undoubling the inside of a quoted cell gives the original text back |
| Reports.CsvDate | src/components/reports/ReportsTab.jsx:70-74 | A timestamp with non-zero seconds gives the locale date of seconds ×1000; any string, even empty, the locale date of its parse; anything else `Unknown` |
| Reports.CsvCells | src/components/reports/ReportsTab.jsx:69-87 | Ten cells. The row fails, with the `replace` type error, iff the description is not a string or truthy action items are not a string |
| Reports.CsvTextCells | src/components/reports/ReportsTab.jsx:84-85 | The description and action-items cells unquote to the feedback's own texts; missing action items give the empty text |
| Reports.CsvMemberCells | src/components/reports/ReportsTab.jsx:69-79 | The name cell is the stored member name when there is one. When no listed member has the feedback's uid, name, role and position read `Unknown` |
| Reports.CsvLines | src/components/reports/ReportsTab.jsx:68-88 | The rows succeed iff every feedback's cells do; then there is one row per feedback, in order, its cells joined with `,` |
| Reports.Csv | src/components/reports/ReportsTab.jsx:66-89 | The document exists iff every row does, and is the header followed by the rows, joined with `\n` |
| Reports.CsvLineCount | src/components/reports/ReportsTab.jsx:66-89 | For feedback whose cells hold no line break, the document splits into exactly 1 + n lines |
| Reports.HeaderHasNoBreak | src/components/reports/ReportsTab.jsx:67 | The header has ten columns and no line break |
| Navigation.TabsForRole | src/components/layout/Navigation.jsx:6-26 | A team member gets dashboard, my-feedback and my-reports. Every other role gets dashboard, team-members, feedback and reports |
| Navigation.TabsSpec | src/components/layout/Navigation.jsx:11-24 | The dashboard tab is always first; a team member never gets the team-members tab |
| ProtectedRoute.Level | src/components/auth/ProtectedRoute.jsx:24-31 | admin 3, reviewer 2, team member 1, anything else no level |
| ProtectedRoute.Decide | src/components/auth/ProtectedRoute.jsx:11-33 | Spinner while loading, then sign-in when signed out, content when no role is required, access denied iff both levels exist and the user's is lower |
| ProtectedRoute.Monotone | src/components/auth/ProtectedRoute.jsx:33 | A role admitted by a gate admits every higher role |
| ProtectedRoute.UnknownNeverDenied | src/components/auth/ProtectedRoute.jsx:30-33 | An unknown user role or required role is never denied |
| ProtectedRoute.DeniedSpec | src/components/auth/ProtectedRoute.jsx:24-33 | With a required role, access is denied iff the user's level is strictly below the required level |
| Login.ErrorMessage | src/components/auth/Login.jsx:85-88 | A code outside the six known ones maps to the generic message if it contains `auth/`, and is shown as is otherwise |
| Login.KnownCodeMessages | src/components/auth/Login.jsx:72-84 | Each of the six known provider codes maps to its own message |
| Login.AuthCodesAreTranslated | src/components/auth/Login.jsx:85-88 | No `auth/` code is ever shown raw |
| Login.Validate | src/components/auth/Login.jsx:47-57 | Mismatching passwords are reported first, then a password under six characters; a form passes iff neither holds |
| Login.LoginState.HandleLogin | src/components/auth/Login.jsx:27-39 | Loading ends; the error is cleared on success and the translated code on failure |
| Login.LoginState.HandleSignUp | src/components/auth/Login.jsx:41-69 | An invalid form reports the validation message and touches no store. A valid form signs up: success appends, under fresh ids, one company named after the form and one admin record with the provider's uid, the form's email and name and the new company's id, keeping every earlier record, and clears the error; a provider failure or a refused company write shows its message and adds nothing; a refused user write shows its message and leaves the new company without an admin. Feedback never changes and loading always ends |

## Left out

- `signIn`, `signOut` and `getCurrentUserData` (`src/services/firebaseService.js:85-124`) are not modelled. They only forward to the authentication service, which is a parameter here.
- The authentication context, the data hook and the user-management screen (`src/context/AuthContext.jsx`, `src/hooks/useFirebaseData.jsx`, `src/components/users/UserManagement.jsx`) are not part of this model. The components modelled here do not use them.
- Presentation components (header, spinner, notification, stat card) and every CSS class, icon and colour choice are left out.
- Notifications, console logging, `window.confirm`, the Blob download and the clipboard are left out. The confirmation dialog's answer is a parameter.
- `FirebaseService.Store.CreateTeamMember`: the user record's write is taken to succeed once the account is open, so an account left without a record is not captured.
- `FirebaseService.Store.UpdateTeamMember`: the document write is taken to succeed whenever the document exists.
- `FirebaseService.Store.DeleteTeamMember`: the member's own read and delete are taken to succeed; only the feedback query and batch can fail.
- `FirebaseService.Store.AddFeedback`: the document write is taken to succeed.
- `FirebaseService.Store.UpdateFeedback`: the document write is taken to succeed whenever the document exists.
- `App.AppContent.HandleSubmitFeedback`, `App.AppContent.HandleToggleStatus`: they inherit the infallible single-document writes above, so a refused write is not among their outcomes.
- `App.AppContent.HandleSaveMember`: it inherits the infallible update of `UpdateTeamMember` and the infallible record write of `CreateTeamMember`. A refused write, including an account left without its record, is not among its outcomes.
- `App.AppContent.HandleDeleteMember`: it inherits the infallible read and delete of the member's own record in `DeleteTeamMember`. Only the feedback query and batch can fail.
- `FirebaseService.Store.CreateTeamMember`: creating an account signs the creator out of the authentication service, and the error path tries to sign back in. The session is not modelled, so neither is the swap.
- `FirebaseService.Store.GeneratePassword`: `Math.random` is a nondeterministic choice, so the model states the length and the charset, not the distribution.
- Fresh document ids are any id not yet in the collection. Firestore's id format is not modelled.
- Firestore refusing `undefined` field values on write is not modelled. A missing field is simply not stored.
- The order of an unsorted query result is not modelled. Listings are specified up to permutation plus the newest-first order.
- The sort comparator for documents without `createdAt` is inconsistent in JavaScript; the model's key treats them as time 0. Recent activity likewise keys an invalid date as 0.
- Date arithmetic is left to the platform: time zones, daylight saving, `setDate` and `setMonth` overflow and the locale's date format. The report's cutoffs (a week, a month and a quarter back in local calendar terms) come in as a `Clock` parameter, parsing as `parse`, display as `locale`, and the calendar as `Calendar`.
- The dashboard's positive percentage (`Math.round` of a float ratio, `src/components/dashboard/Dashboard.jsx:227`) is not modelled. Floating point is out of scope.
- `App.AppContent.LoadData`: the `!userData` guard is not modelled. The shell is only reached with a user record, and `Promise.all` failure handling is reduced to the listings' own empty-on-failure rule. One `reachable` flag stands for both listings, so the model does not capture the feedback listing failing while the member listing succeeds, or the reverse.
- `TeamMembers.TeamMembersView.SaveMember`: the outcome of the app's save handler is a parameter rather than a call, so the view and the shell are connected only through that value.
- `Login.Validate`: the length is counted in Dafny characters. JavaScript counts UTF-16 code units.
- `FeedbackForm.DateRoundTrip` assumes a four-digit year without a leading zero. `getFullYear()` is not padded, so other years do not round-trip.
- `FeedbackForm.FormatDateForInput` states only the empty case in its own contract. The rearrangement is `FeedbackForm.FormatDateForInputSpec`, for parts without `/`.
- The report's per-row member lookup by uid and the feedback tab's lookup by id are modelled as written. The tab's lookup by `memberId` finds nothing for saved feedback; the item then falls back to the stored `memberName`.

## Findings

| source | as written | input that shows it | evidently intended | confidence | as-written member | corrected member |
|---|---|---|---|---|---|---|
| src/components/team-members/TeamMemberCard.jsx:6 | The card counts feedback whose `memberId` equals the member's document id, but the app deletes `memberId` before saving feedback (`src/App.jsx:124`), so every stored feedback is counted 0 times | member `{id: "m1", uid: "u1"}` and feedback submitted with `memberId: "m1"`: it is stored with `memberUid: "u1"` and no `memberId`, so the card shows 0 items | Match on `memberUid === member.uid`, as the dashboard member card does (`src/components/dashboard/MemberCard.jsx:6`) | high, not executed | TeamMemberCard.CountsAsWritten | MemberCard.Counts |
