# QuickDesk ticket-desk core in Dafny

QuickDesk is a help desk web application. Requesters file support tickets, and administrators triage them: they search and filter every ticket, assign tickets to agents, update ticket status, manage users and invitations, and maintain ticket categories. This project models the logic inside the application's pages and dialogs and proves properties about it. It proves nothing about the rendering around that logic.

The model has three layers.

- **Values.** Tickets, users, categories, notification preferences and emails are datatypes (`Entities`).
- **Pure rules.** These are functions over sequences and records:
  - the search and filter predicates of the list pages;
  - the role scoping of the dashboard;
  - the counting functions;
  - the record patches that each write sends;
  - the email contents;
  - the colour fallbacks;
  - the navigation menu.
- **Procedures.** Page handlers that await calls one after another and then change page state. These are methods of classes.
  - A class's fields are the page's state hooks.
  - Each handler takes the outcome of every call it makes as a parameter. So each success path and each failure path is stated in the handler's `ensures`.

The hosted backend is abstract.

- `Gateway.EntityStore` is a map from id to record. Its `Update` merges a partial record into an existing record. Its `Create` stores a record under a fresh id.
- `Gateway.Outbox` is the sequence of every email attempt, each with a flag saying whether it was delivered. So "no email was attempted" can be stated.
- Records are untyped maps from field name to `Value`, like the JSON the service stores.
- A page's `loadData` call after a successful write is counted in a `reloads` field. The model does not compute what the reload fetches.

Shared building blocks:

- `Text` models the JavaScript string functions the pages use:
  - `toLowerCase` (ASCII only);
  - `includes`;
  - `trim`, with JavaScript's whitespace set (its WhiteSpace and LineTerminator code points);
  - `indexOf`;
  - `replace` with a one-character pattern, which replaces the first match only;
  - truthiness of optional strings.
- `Seqs` models `filter`, `filter(...).length` and `find`, with their general lemmas.
- `TicketQuery` defines once the four attribute filters that the admin list and the dashboard both apply.

## Model

| member | source | states |
|---|---|---|
| AllTickets.FilteredTickets | pages/AllTickets.tsx:90-108 | The list is an order-preserving subsequence of the loaded tickets. A ticket is in it iff all of these hold: the query is empty or case-insensitively contained in its title, description or requester email; status, category and priority each equal the ticket's field unless the filter is "all"; "assigned" requires a truthy `assigned_to`; "unassigned" requires a falsy one. |
| AllTickets.InitialSettingsListEverything | pages/AllTickets.tsx:56-62 | With the initial empty query and all four filters at "all", the page lists every loaded ticket, in order. |
| AllTickets.RefilteringChangesNothing | pages/AllTickets.tsx:90-108 | Filtering the filtered list again with the same settings gives the same list. |
| AllTickets.FindTicket | pages/AllTickets.tsx:118 | The ticket found is the first loaded ticket with the id. Nothing is found iff no loaded ticket has that id. |
| AllTickets.AssigneeCandidates | pages/AllTickets.tsx:403 | The agents offered are exactly the loaded users whose role is admin, in order. |
| AllTickets.AssignmentPatch | pages/AllTickets.tsx:112-115 | An assignment writes exactly the two fields `assigned_to` and `status`. |
| AllTickets.AssignmentOverridesStatus | pages/AllTickets.tsx:112-115 | Whatever the record held before, after the assignment it holds the assignee and status `in_progress`. Every other field is unchanged. |
| AllTickets.AssignmentEmailMentions | pages/AllTickets.tsx:120-124 | The assignment email goes to the assignee. Its subject contains the title. Its body contains the title and the requester's email. |
| AllTickets.StatusPatch | pages/AllTickets.tsx:136-137 | A status update always writes the status. It writes `resolution_notes` iff the notes are non-empty, with the notes as value. It writes no other field. |
| AllTickets.EmptyNotesKeepExistingNotes | pages/AllTickets.tsx:134-139 | An update with the default empty notes neither removes nor replaces notes the ticket already has. |
| AllTickets.StatusLabel | pages/AllTickets.tsx:147 | The status as the email shows it has the same length as the status. |
| AllTickets.LabelSwapsFirstUnderscore | pages/AllTickets.tsx:147 | The first underscore, and only the first, becomes a space. |
| AllTickets.InProgressLabel | pages/AllTickets.tsx:147 | `in_progress` is shown as `in progress`. |
| AllTickets.PlainStatusLabels | pages/AllTickets.tsx:147 | `open`, `resolved` and `closed` are shown unchanged. |
| AllTickets.StatusEmailMentions | pages/AllTickets.tsx:144-148 | The status email goes to the requester, with the title in its subject. Its body contains the readable status and the title. It contains a "Resolution Notes" line when the notes are non-empty. With empty notes the body is only the headline and the title. |
| AllTickets.StatusBodyFacts | pages/AllTickets.tsx:147 | The status body contains the readable status, the title, and the notes line when there are notes. |
| AllTickets.StatusColor | pages/AllTickets.tsx:158-166 | A known status gets its own colours. Any other status gets the colours of `open`. |
| AllTickets.PriorityColor | pages/AllTickets.tsx:168-176 | A known priority gets its own colours. Any other priority gets the colours of `medium`. |
| AllTickets.AllTicketsPage.constructor | pages/AllTickets.tsx:52-66 | The page starts with empty lists, loading on, and both dialogs closed. |
| AllTickets.AllTicketsPage.LoadData | pages/AllTickets.tsx:72-88 | The three lists are replaced together only when every load succeeds. Loading ends either way. |
| AllTickets.AllTicketsPage.HandleAssignTicket | pages/AllTickets.tsx:110-132 | The store changes only by the assignment patch, and only when the write succeeds. The assignee is emailed only after a successful write, and only when the ticket is in the loaded list. Reload and closing the dialog happen only when nothing failed. |
| AllTickets.AllTicketsPage.HandleStatusUpdate | pages/AllTickets.tsx:134-156 | The store changes only by the status patch, and only when the write succeeds. The requester is emailed only after a successful write, and only when the ticket is in the loaded list. Reload and closing the dialog happen only when nothing failed. |
| AllTickets.AllTicketsPage.FinishStatusUpdate | pages/AllTickets.tsx:141-152 | After the write, exactly one status email is attempted when the ticket is loaded, and none otherwise. Reload and closing the dialog happen unless that email failed. Nothing else changes. |
| Dashboard.FilteredTickets | pages/dashboard.tsx:68-85 | The list is an order-preserving subsequence. A ticket is in it iff the query is empty or in its title or description (ignoring case), and the four filters all hold as on the admin list. |
| Dashboard.SearchIgnoresRequester | pages/dashboard.tsx:69-71 | Changing a ticket's requester email never changes whether it matches the search. |
| Dashboard.ScopedTickets | pages/dashboard.tsx:51-55 | An admin gets the full listing. Anyone else gets exactly the tickets they requested, in order. |
| Dashboard.NonAdminSeesOnlyOwnTickets | pages/dashboard.tsx:51-85 | Whatever query and filters a non-admin chooses, every listed ticket is one they requested. |
| Dashboard.InitialSettingsListScoped | pages/dashboard.tsx:32-38 | With the initial empty query and all filters at "all", the scoped list is shown unchanged, in order. |
| Dashboard.Render | pages/dashboard.tsx:128-168 | The list shown is the filtered list: an order-preserving subsequence of the scoped list holding exactly the tickets that match the title/description search and every filter. Each card counts the tickets of its status in the whole scoped list, never fewer than the list shows with that status. For every status, the list holds at most as many tickets as the scoped list. The cards add up to at most the scoped list's length. |
| Dashboard.CardsIgnoreSearchAndFilters | pages/dashboard.tsx:128-168 | Changing the query or any filter never changes the status cards. |
| Dashboard.InitialCardsCountTheList | pages/dashboard.tsx:128-168 | With the initial empty query and filters, the list is the whole scoped list, and the cards count exactly that list. |
| Dashboard.DashboardPage.constructor | pages/dashboard.tsx:28-31 | There is no user and no ticket yet, and loading is on. |
| Dashboard.DashboardPage.LoadData | pages/dashboard.tsx:45-66 | The user is set as soon as `User.me` succeeds. Tickets (role-scoped) and categories are set only when every load succeeds. Loading ends either way. |
| StatsOverview.StatusCountsPartition | components/dashboard/statsoverview.tsx:14-17 | No ticket is counted under two statuses. The four counts add up to at most the ticket count, and to exactly it when every status is one of the four. |
| StatsOverview.GetStats | components/dashboard/statsoverview.tsx:13-20 | Each count is the number of tickets with exactly that status. The total is bounded as in the partition lemma. An empty list gives four zeros. |
| StatsOverview.StatCards | components/dashboard/statsoverview.tsx:24-53 | There are four cards, in the order Open, In Progress, Resolved, Closed. Each shows the count of its own status. |
| UserManagement.FilteredUsers | pages/UserManagement.tsx:92-101 | The list is an order-preserving subsequence. A user is in it iff two things hold: the query is empty or in the full name (if any), email or department (if any), ignoring case; and the role filter is "all" or equals the role. |
| UserManagement.InitialSettingsListEveryone | pages/UserManagement.tsx:92-101 | With an empty query and role "all", every loaded user is listed, in order. |
| UserManagement.TicketStatsFor | pages/UserManagement.tsx:103-113 | `created` counts the tickets the user requested, and `assigned` counts those assigned to them. `open` is at most `created`. `resolved` is at most `assigned`. |
| UserManagement.OverallStatsOf | pages/UserManagement.tsx:188-195 | Admins plus regular users are at most the total, and exactly the total when every role is user or admin. Active users are at most the total. |
| UserManagement.InvitationRecord | pages/UserManagement.tsx:133-140 | The record holds the dialog's three fields, `invited_by` set to the inviter's email, and `expires_at` seven days after now. It holds nothing else. |
| UserManagement.InvitationEmailMentions | pages/UserManagement.tsx:147-176 | The invitation email goes to the invited address. Its body names the role title, that address, the site origin, and the personal message when there is one. |
| UserManagement.InviteOutcome.Message | pages/UserManagement.tsx:126-181 | Each of the three errors carries a message; only the normal ending has none. |
| UserManagement.UserManagementPage.constructor | pages/UserManagement.tsx:52-60 | There are no users, no tickets and no current user yet, and loading is on. Both dialogs start closed and nothing has been reloaded. |
| UserManagement.UserManagementPage.LoadData | pages/UserManagement.tsx:67-81 | Users and tickets are both set only when both loads succeed, and both are kept otherwise. Loading ends either way. Nothing else changes. |
| UserManagement.UserManagementPage.LoadCurrentUser | pages/UserManagement.tsx:83-90 | The current user is set when `User.me` succeeds and kept when it fails. Nothing else changes. |
| UserManagement.UserManagementPage.HandleRoleUpdate | pages/UserManagement.tsx:115-123 | Only the role is written. Reload and closing the dialog happen on success. On failure nothing changes. |
| UserManagement.UserManagementPage.HandleInviteUser | pages/UserManagement.tsx:125-186 | The outcome depends on which step fails. (1) Without a current user: no write, no email. (2) A failed record write: no email, "could not save". (3) A failed email: the record stays, "email failed". (4) Only when both steps succeed is the list reloaded and the dialog closed. |
| UserManagement.UserManagementPage.FinishInvite | pages/UserManagement.tsx:146-185 | After the record is saved, exactly one invitation email is attempted. The outcome is success iff it was delivered, and only then is the list reloaded and the dialog closed. Nothing else changes. |
| CategoryManagement.FilteredCategories | pages/CategoryManagement.tsx:67-71 | The list is an order-preserving subsequence. A category is in it iff the query is empty, or is in its name or (when present) its description, ignoring case. |
| CategoryManagement.EmptySearchListsEverything | pages/CategoryManagement.tsx:67-71 | An empty search lists every loaded category, in order. |
| CategoryManagement.CategoryTicketCount | pages/CategoryManagement.tsx:73-75 | The count is the number of loaded tickets whose `category_id` is the category's id. |
| CategoryManagement.DistinctCategoriesShareNoTicket | pages/CategoryManagement.tsx:73-75 | The counts of two different categories add up to at most the number of tickets. |
| CategoryManagement.OverallStatsOf | pages/CategoryManagement.tsx:121-128 | Active plus inactive categories equals the total. The ticket total is the number of loaded tickets. |
| CategoryManagement.ColorClass | pages/CategoryManagement.tsx:77-89 | A known colour gets its own classes. Any other colour gets the blue ones. |
| CategoryManagement.TogglePatch | pages/CategoryManagement.tsx:114 | The toggle writes only `is_active`: the negation of the flag the page holds. |
| CategoryManagement.ToggleTouchesOnlyActive | pages/CategoryManagement.tsx:112-115 | After the toggle, `is_active` is negated and every other field of the category is unchanged. |
| CategoryManagement.CategoryManagementPage.constructor | pages/CategoryManagement.tsx:39-45 | Empty lists, loading on, no dialog open, nothing selected. |
| CategoryManagement.CategoryManagementPage.LoadData | pages/CategoryManagement.tsx:51-65 | Both lists are replaced together only when both loads succeed. Loading ends either way. |
| CategoryManagement.CategoryManagementPage.BeginEdit | pages/CategoryManagement.tsx:300-303 | The category is remembered and the edit dialog opens. |
| CategoryManagement.CategoryManagementPage.HandleCreateCategory | pages/CategoryManagement.tsx:91-99 | The dialog's data is stored unchanged. Reload and closing the dialog happen only on success. |
| CategoryManagement.CategoryManagementPage.HandleUpdateCategory | pages/CategoryManagement.tsx:101-110 | The dialog's data is merged unchanged into the record. On success the page reloads, closes the dialog and forgets the selection. On failure nothing changes. |
| CategoryManagement.CategoryManagementPage.HandleToggleActive | pages/CategoryManagement.tsx:112-119 | Only the category store changes, and only by the toggle patch. Reload happens only on success. |
| CreateTicket.SetField | pages/CreateTicket.tsx:55 | The named form field takes the value. The other three fields keep theirs. |
| CreateTicket.ClearError | pages/CreateTicket.tsx:56-58 | The keys are unchanged. Only the named entry can change, and afterwards it holds no message. The map is unchanged iff that entry held no message. |
| CreateTicket.ValidationErrorsExact | pages/CreateTicket.tsx:87-104 | An error is present iff its field fails: trimmed title empty, trimmed description empty, or no category. Each error has its own message, and there are no other keys. The map is empty iff the form is valid. |
| CreateTicket.InitialFormIsRejected | pages/CreateTicket.tsx:87-104 | The initial form fails validation on all three required fields. |
| CreateTicket.BlankTitleIsRejected | pages/CreateTicket.tsx:90-92 | A title made only of whitespace fails like an empty one. |
| CreateTicket.BlankDescriptionIsRejected | pages/CreateTicket.tsx:94-96 | A description made only of whitespace fails like an empty one. |
| CreateTicket.RemoveAttachment | pages/CreateTicket.tsx:83-85 | Exactly the element at that index is removed, and the rest keep their order. An index out of range removes nothing. |
| CreateTicket.AttachmentUrls | pages/CreateTicket.tsx:116 | There is one URL per attachment, in order. |
| CreateTicket.UrlsOfAppend | pages/CreateTicket.tsx:116 | The URLs of appended uploads follow the URLs already present. |
| CreateTicket.TicketRecordFields | pages/CreateTicket.tsx:113-117 | The record holds the four form fields, the requester's email and the attachment URLs in order. It has no `status` and no `assigned_to`. |
| CreateTicket.ConfirmationEmailMentions | pages/CreateTicket.tsx:123-127 | The confirmation goes to the requester. It names the title in its subject and body, and names the new ticket's id. |
| CreateTicket.CreateTicketPage.constructor | pages/CreateTicket.tsx:26-37 | The form starts with empty title, description and category and priority `medium`. There are no attachments and no errors. |
| CreateTicket.CreateTicketPage.LoadData | pages/CreateTicket.tsx:43-52 | The user and the active categories are set only when both calls succeed. |
| CreateTicket.CreateTicketPage.HandleInputChange | pages/CreateTicket.tsx:54-59 | Only the named field changes. Only that field's error is cleared, and only if it held a message. |
| CreateTicket.CreateTicketPage.HandleFileUpload | pages/CreateTicket.tsx:61-81 | On success the uploads are appended after the existing attachments. Uploading ends either way. |
| CreateTicket.CreateTicketPage.RemoveAttachmentAt | pages/CreateTicket.tsx:83-85 | The attachments become the list without that index. |
| CreateTicket.CreateTicketPage.ValidateForm | pages/CreateTicket.tsx:87-104 | The stored errors are the validation errors of the form. The result is true iff the form is valid. |
| CreateTicket.CreateTicketPage.HandleSubmit | pages/CreateTicket.tsx:106-139 | An invalid form: no ticket, no email, only the validation errors. A valid form: the ticket record is created when the user is loaded and the create succeeds. Only a created ticket gets the confirmation, whose failure still navigates to the dashboard. Otherwise only the `submit` error is set. |
| CreateTicket.CreateTicketPage.SubmitValidForm | pages/CreateTicket.tsx:111-138 | With no user, nothing is created or sent. Loading is off at the end. |
| CreateTicket.CreateTicketPage.CreateAndConfirm | pages/CreateTicket.tsx:119-135 | A failed create sets the `submit` error and sends nothing. A successful create sends the confirmation and navigates. |
| UserProfile.ProfileStatsFor | pages/UserProfile.tsx:45-51 | `created` is the number of the user's own tickets. `open + resolved` is at most `created`. |
| UserProfile.OrEmpty | pages/UserProfile.tsx:56-58 | A truthy value is kept. Anything else becomes the empty string. |
| UserProfile.ProfileOf | pages/UserProfile.tsx:55-64 | Missing names, departments and phones become empty strings. Missing preferences become the defaults: email notifications on, ticket updates on, weekly summary off. |
| UserProfile.SetProfileField | pages/UserProfile.tsx:72-74 | Only the named text field changes. The preferences are unchanged. |
| UserProfile.SetPreference | pages/UserProfile.tsx:76-84 | Only the named preference changes. The other preferences and every text field are unchanged. |
| UserProfile.Overlay | pages/UserProfile.tsx:90 | The profile's four fields replace the user's. Id, email, role and last login stay. |
| UserProfile.OverlayThenProfileRoundTrip | pages/UserProfile.tsx:55-90 | Deriving the profile from the overlaid user gives back the saved profile. |
| UserProfile.ProfileOfOverlayOwnProfile | pages/UserProfile.tsx:55-90 | Saving the profile as loaded leaves the derived profile unchanged. |
| UserProfile.ProfilePatch | pages/UserProfile.tsx:89 | The write carries the four profile fields. |
| UserProfile.SavedRecordHoldsProfile | pages/UserProfile.tsx:89 | Whatever the user's record held before, after the save's write the four profile fields read back exactly the saved profile, preferences included. |
| UserProfile.ProfilePage.constructor | pages/UserProfile.tsx:23-36 | Zero counts, the blank profile with default preferences, loading on. |
| UserProfile.ProfilePage.LoadData | pages/UserProfile.tsx:42-70 | User, counts and profile are set together when both calls succeed. Loading ends either way. |
| UserProfile.ProfilePage.HandleInputChange | pages/UserProfile.tsx:72-74 | The profile becomes the one with that field set. |
| UserProfile.ProfilePage.HandleNotificationChange | pages/UserProfile.tsx:76-84 | The profile becomes the one with that preference set. |
| UserProfile.ProfilePage.HandleSave | pages/UserProfile.tsx:86-99 | The user's own record gets the profile patch. On success the page's user becomes the overlaid user. On failure it is unchanged. Saving ends either way. |
| Layout.NavigationItems | layout.js:51-94 | With no user the menu is empty. Otherwise it starts with Dashboard and New Ticket. A non-admin gets only those two. An admin also gets All Tickets, User Management and Categories, in that order. |
| Layout.NavigationNames | layout.js:54-93 | Gives the entry names a non-admin sees and the names an admin sees, in order. |
| Layout.NonAdminSeesNoAdminEntry | layout.js:54-93 | No non-admin gets an admin-only entry, and every entry they get allows role `user`. |
| Layout.EntriesAllowTheUsersRole | layout.js:54-93 | For role user or admin, every entry shown lists that role. |
| Layout.OtherRolesAreNotListed | layout.js:51-94 | Any user whose role is neither `user` nor `admin` gets exactly the base entries, and neither entry lists that role. |
| Layout.AtMostOneActive | layout.js:211 | When different pages have different URLs, at most one entry is highlighted. |
| AssignTicketDialog.OptionValues | components/admin/AssignTicketDialog.tsx:69-70 | There is one option per user, in order, and its value is that user's email. |
| AssignTicketDialog.Title | components/admin/AssignTicketDialog.tsx:43 | "Reassign Ticket" iff the ticket has a truthy `assigned_to`, otherwise "Assign Ticket". |
| AssignTicketDialog.AssignDialog.constructor | components/admin/AssignTicketDialog.tsx:21-22 | Nothing is selected and nothing is loading. |
| AssignTicketDialog.AssignDialog.ChooseAgent | components/admin/AssignTicketDialog.tsx:64-70 | Picking an option selects that user's email. |
| AssignTicketDialog.AssignDialog.BeginAssign | components/admin/AssignTicketDialog.tsx:25-29 | No call is issued iff no agent is selected or there is no ticket, and then nothing changes. Otherwise loading is on and the call carries the ticket id and the selected email. |
| AssignTicketDialog.AssignDialog.FinishAssign | components/admin/AssignTicketDialog.tsx:30-35 | The selection is cleared only on success. Loading ends either way. |
| AssignTicketDialog.AssignDialog.HandleAssign | components/admin/AssignTicketDialog.tsx:24-36 | At most one call is made, exactly under the guard, and an enabled button always makes it. Afterwards loading is off. The selection is empty on success and kept on failure. |
| RoleDialog.RoleOptionValues | components/admin/RoleDialog.tsx:40-53 | There are two options, and their values are `user` and `admin`. |
| RoleDialog.RoleDialogState.constructor | components/admin/RoleDialog.tsx:23-24 | Nothing is selected and nothing is loading. |
| RoleDialog.RoleDialogState.ChooseRole | components/admin/RoleDialog.tsx:95-103 | Clicking an option selects its value. The selection stays empty or one of the two roles. |
| RoleDialog.RoleDialogState.BeginUpdate | components/admin/RoleDialog.tsx:27-31 | No call is issued iff no role is selected or there is no user. Otherwise loading is on and the call carries the user id and a role the dialog offers. |
| RoleDialog.RoleDialogState.FinishUpdate | components/admin/RoleDialog.tsx:32-37 | The selection is cleared only on success. Loading ends either way. |
| RoleDialog.RoleDialogState.HandleUpdate | components/admin/RoleDialog.tsx:26-38 | At most one call is made, exactly under the guard. While the Update button is enabled, the call always changes the user's role. Loading ends off. |
| Text.Trim | pages/CreateTicket.tsx:90-94 | The result is empty iff the string is all whitespace. Otherwise it neither starts nor ends with whitespace. It occurs inside the string with only whitespace before and after it. |
| Text.TrimStartDropsWhitespace | pages/CreateTicket.tsx:90-94 | Everything removed from the front is whitespace. |
| Text.TrimEndDropsWhitespace | pages/CreateTicket.tsx:90-94 | Everything removed from the end is whitespace. |
| Text.TrimCuts | pages/CreateTicket.tsx:90-94 | The string is whitespace, then the trimmed result, then whitespace, cut right after the leading whitespace. |
| Text.ReplaceFirst | pages/AllTickets.tsx:147 | The length is kept. Only the first occurrence of the character is replaced. A string without it is unchanged. |
| Text.ReplaceFirstAt | pages/AllTickets.tsx:147 | In `a + [c] + b` with no `c` in `a`, exactly that `c` is replaced. |
| Seqs.Filter | pages/AllTickets.tsx:90 | The result is an order-preserving subsequence. An element is in it iff it is in the input and passes. |
| Seqs.FilterMultiplicity | pages/AllTickets.tsx:90 | The result holds every element that passes as often as the input does, and no element that fails. |
| Seqs.CountOfFilter | pages/dashboard.tsx:68-85 | Filtering first never raises how many elements meet another predicate. |
| Seqs.CountDisjoint | components/dashboard/statsoverview.tsx:14-17 | Two predicates no element meets together count at most the length, and exactly the length when they cover every element. |
| Seqs.FindFirst | pages/AllTickets.tsx:118 | The first element that passes, or none iff no element passes. |

## Left out

- Rendering is not modelled: JSX, CSS class strings other than the colour maps, icons, avatar initials and loading skeletons.
- `components/dashboard/TicketList.tsx` is pure presentation, and its lookups repeat those of the admin list.
- The hosted services (`Ticket`, `User`, `Category`, `Invitation`, `SendEmail`, `UploadFile`, `User.me`) are an abstract store and outbox, each call with a success/failure outcome parameter.
  - A failed `create` is modelled as a service failure or an id clash.
  - List ordering such as `-last_reply` is whatever the listing passed in holds.
  - An upload is modelled as its result: the uploaded attachments, or failure.
- Concurrency is not modelled: `Promise.all` loads, a reload racing a later write, and writes by several admins.
- The model does not capture the stale closure in `handleFileUpload`, where two overlapping uploads can drop one batch. Each upload is applied to the list as it stands.
- Reloads are counted (`reloads`), not executed. `navigate` is a flag. `window.location.origin` is a parameter.
- Dates are integer milliseconds: the invitation expiry is `now` plus seven days, not calendar arithmetic. `formatFileSize` is left out because it uses floating-point logarithms.
- Text.Lower: only ASCII letters are folded. Locale-aware and full Unicode case mapping are not modelled.
- Colour lookups do not model keys inherited from `Object.prototype`, such as `colors["constructor"]`.
- Layout.IsActive takes the page-to-URL function as a parameter, because `createPageUrl` is not part of this model. Layout.AtMostOneActive assumes that function is injective.
- Layout.EntriesAllowTheUsersRole holds only for roles `user` and `admin`. The menu never looks at the entries' `roles`, as Layout.OtherRolesAreNotListed shows.
- AllTickets.AssignmentEmailMentions, AllTickets.StatusEmailMentions, UserManagement.InvitationEmailMentions and CreateTicket.ConfirmationEmailMentions state which facts the emails contain, not their full wording. The email functions define the exact text but carry no contract of their own.
- Seqs.Filter: its contract states membership and order. Multiplicity is stated by the separate lemma Seqs.FilterMultiplicity, because every caller of `Filter` would otherwise reason about multisets.
- UserProfile.ProfilePatch: its own contract states the fields written. Their values are stated by UserProfile.SavedRecordHoldsProfile, which reads them back from the written record.
- UserProfile.ProfilePage.HandleSave requires a loaded user. The page renders `user.full_name` and `user.email` after loading, so it cannot show the Save button without one. The null-user case (`{...null, ...profileData}`) is therefore not modelled.
- The dialogs only shown by import are not part of this model: FilterPanel, UpdateStatusDialog, InviteUserDialog, CreateCategoryDialog, EditCategoryDialog and UserStatsCard. Their outputs are parameters of the handlers. In the dialogs, `succeeded` stands for whether the parent's `onAssign`/`onUpdate` resolved.
- Two rules are left out because the code does not enforce them: there is no admin check in the assignment handler, and no transition rule between statuses.
