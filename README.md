# TicketFlow data layer in Dafny

TicketFlow is a browser ticket tracker whose only persistence is the browser's
local storage. This project models the data layer its pages drive:

- the **store**: the four storage keys as typed fields of a `Store` class (`ticketapp_users` as a
  list of `User`, `ticketapp_session` as an optional token, `ticketapp_current_user` as an optional
  `User`, `tickets_<userId>` as a map from key to ticket list);
- the **ticket board** (`Tickets` module): form validation, create (prepend), edit (replace every
  ticket with the form's id), delete (filter out every ticket with the id), status labels, and a
  `TicketsPage` class holding the page's state (list, form, errors, edit flag, delete target, toast);
- the **dashboard** (`Dashboard` module): total, open and resolved counts and a `DashboardPage` class;
- **signup** and **login** (`Accounts`, `Signup`, `Login`): validation order, case-insensitive email
  lookup, account creation and session writes, with `SignupPage` and `LoginPage` classes;
- the **round trip** (`AuthRoundTrip`): an account just created can sign in with its email in any
  letter case.

Clock readings (`Date.now()`, `new Date().toISOString()`) are parameters. `toLowerCase` is
ASCII case folding. A password's `length` counts UTF-16 code units. `trim` removes the listed white-space characters from both ends.

State changes are class methods with `modifies` clauses. Each method's `ensures` ties the new
state to pure functions (`EditById`, `RemoveById`, `CountStatus`, `FormErrors`, `SignupError`,
`LoginCheck`, ...). The source's promises are proved as lemmas about those functions.

Delete (`src/pages/Tickets.jsx:143`) removes every ticket with the matching id. Ids are creation
times in milliseconds and can collide.

## Model

| member | source | states |
|---|---|---|
| Text.TrimStart | src/pages/Tickets.jsx:94 | the result is a suffix of the input, everything dropped is white space, and it does not start with white space |
| Text.TrimEnd | src/pages/Tickets.jsx:94 | the result is a prefix of the input, everything dropped is white space, and it does not end with white space |
| Text.Trim | src/pages/Tickets.jsx:94 | the trimmed title is no longer than the input and neither starts nor ends with white space |
| Text.TrimEmptyIff | src/pages/Tickets.jsx:94 | `trim()` yields the empty string exactly when the title is made of white space only |
| Text.Lower | src/pages/Signup.jsx:33 | lower-casing keeps the length, leaves no upper-case letter and keeps every other character |
| Text.Utf16Length | src/pages/Signup.jsx:23 | a string's `length` lies between its character count and twice that, and is zero only for the empty string |
| Text.LowerIdempotent | src/pages/Signup.jsx:44 | lower-casing an already lower-cased email changes nothing, so a stored email still matches the address it was typed as |
| Text.NatToString | src/pages/Signup.jsx:42 | the decimal rendering of a timestamp is non-empty and made of digits |
| Text.NatToStringInjective | src/pages/Signup.jsx:42 | different timestamps render as different strings |
| Domain.TicketsKey | src/pages/Tickets.jsx:40-43 | a user's ticket key is `tickets_` followed by exactly the user's id (the dashboard reads the same key at src/pages/Dashboard.jsx:29-31) |
| Domain.SessionToken | src/pages/Login.jsx:45 | the session token is `token_`, the user's id, `_`, then the time's digits (signup writes the same form at src/pages/Signup.jsx:56) |
| Domain.TicketsKeyInjective | src/pages/Tickets.jsx:40-43 | two users share a `tickets_<id>` key exactly when they have the same id |
| Domain.Store.constructor | src/pages/Signup.jsx:29-30 | an empty store: no users, no session, no current user, no ticket lists |
| Domain.Store.TicketsAt | src/pages/Dashboard.jsx:38 | a missing ticket key reads as the empty list, a present one as its list |
| Domain.Store.PutTickets | src/pages/Tickets.jsx:58 | the whole list under the key is replaced and every other key reads as before |
| Domain.Store.StartSession | src/pages/Login.jsx:45-47 | the session token and the current user are written together |
| Domain.Store.Logout | src/pages/Dashboard.jsx:45-49 | removes the session and current-user keys and nothing else (the ticket page's logout at src/pages/Tickets.jsx:177-181 is the same) |
| Tickets.FormErrors | src/pages/Tickets.jsx:91-103 | a title error exactly for a blank title, saying "Title is required"; a status error exactly for a status outside the three known ones, saying it is required or invalid |
| Tickets.FormErrorsShape | src/pages/Tickets.jsx:98-102 | an empty status gets "Status is required", a non-empty unknown one "Invalid status selected", never both; a form is accepted exactly when it gets no error |
| Tickets.TicketsPage.ValidateForm | src/pages/Tickets.jsx:91-106 | the errors built one check at a time using `trim` equal the reference errors (title error exactly for a blank title), and the result is true exactly when there are none |
| Tickets.Created | src/pages/Tickets.jsx:122-127 | a created ticket carries id = now, the given creation time and the current user's id, and keeps every field typed in the form |
| Tickets.EditById | src/pages/Tickets.jsx:119 | same length; every ticket with the form's id becomes the form, every other ticket stays in its position unchanged |
| Tickets.EditKeepsIds | src/pages/Tickets.jsx:119 | edit leaves the id at every position unchanged |
| Tickets.EditAbsentIsNoop | src/pages/Tickets.jsx:119 | editing with an id no ticket carries leaves the list unchanged |
| Tickets.EditIdempotent | src/pages/Tickets.jsx:119 | applying the same edit twice equals applying it once |
| Tickets.EditKeepsIdentity | src/pages/Tickets.jsx:67-70 | a form copied from a ticket (its id, creation time and owner untouched) keeps those three fields on every ticket identical to the source |
| Tickets.RemoveById | src/pages/Tickets.jsx:143 | no kept ticket carries the deleted id and the list never grows |
| Tickets.RemoveByIdMultiset | src/pages/Tickets.jsx:143 | every copy of a ticket with the id is removed and every copy of any other ticket is kept |
| Tickets.RemoveByIdAppend | src/pages/Tickets.jsx:143 | delete distributes over concatenation, so the kept tickets keep their relative order |
| Tickets.RemoveAbsentIsNoop | src/pages/Tickets.jsx:143 | deleting an id no ticket carries is a no-op |
| Tickets.RemoveIdempotent | src/pages/Tickets.jsx:142-145 | a retried delete changes nothing further |
| Tickets.StatusLabel | src/pages/Tickets.jsx:151-158 | a status is shown differently from its raw value exactly when it is one of the three known ones; `open` shows as "Open", `in_progress` as "In Progress", `closed` as "Closed" |
| Tickets.FormatDate | src/pages/Tickets.jsx:160-161 | an absent or empty creation time shows as "Just now" |
| Tickets.TicketsPage.constructor | src/pages/Tickets.jsx:6-22 | the page starts with no tickets, no user, the blank form, no errors, no modal and a hidden toast |
| Tickets.TicketsPage.Mount | src/pages/Tickets.jsx:25-53 | with a current user the page takes it and loads its list (missing key: empty); without one nothing is loaded |
| Tickets.TicketsPage.SaveTickets | src/pages/Tickets.jsx:55-59 | writes nothing without a current user, otherwise writes only the key `tickets_` + its id |
| Tickets.TicketsPage.ResetForm | src/pages/Tickets.jsx:79-89 | the form becomes the blank form and the errors are cleared |
| Tickets.TicketsPage.OpenCreateModal | src/pages/Tickets.jsx:61-65 | create mode with a blank form and no errors |
| Tickets.TicketsPage.OpenEditModal | src/pages/Tickets.jsx:67-72 | edit mode with the form a full copy of the ticket |
| Tickets.TicketsPage.CloseModal | src/pages/Tickets.jsx:74-77 | the modal closes and the form and errors are reset |
| Tickets.TicketsPage.SetTitle | src/pages/Tickets.jsx:277 | only the title of the form changes |
| Tickets.TicketsPage.SetDescription | src/pages/Tickets.jsx:289 | only the description of the form changes |
| Tickets.TicketsPage.SetStatus | src/pages/Tickets.jsx:301 | only the status of the form changes |
| Tickets.TicketsPage.SetPriority | src/pages/Tickets.jsx:317 | only the priority of the form changes |
| Tickets.TicketsPage.ShowToast | src/pages/Tickets.jsx:170-171 | the toast shows the message with its kind |
| Tickets.TicketsPage.SaveTicket | src/pages/Tickets.jsx:108-135 | an invalid form leaves list, store and form unchanged and shows the errors; a valid edit replaces every ticket with the form's id and keeps the identity of the ticket it was opened from; a valid create prepends the stamped form; the new list is stored under the user's key and the form closes |
| Tickets.TicketsPage.Commit | src/pages/Tickets.jsx:132-134 | the page list becomes the new list, the store gets it under the user's key, the form closes |
| Tickets.TicketsPage.ConfirmDelete | src/pages/Tickets.jsx:137-140 | the ticket becomes the delete target and the confirmation shows |
| Tickets.TicketsPage.CancelDelete | src/pages/Tickets.jsx:354 | the confirmation closes and no ticket changes |
| Tickets.TicketsPage.DeleteTicket | src/pages/Tickets.jsx:142-149 | the list loses every ticket with the target's id and is stored under the user's key; the confirmation closes |
| Dashboard.CountStatus | src/pages/Dashboard.jsx:41 | the count is at most the total, zero exactly when no ticket has the status, and the total exactly when every ticket has it |
| Dashboard.StatusPartition | src/pages/Dashboard.jsx:40-42 | open + closed + other statuses = total |
| Dashboard.OpenPlusResolvedAtMostTotal | src/pages/Dashboard.jsx:40-42 | open + resolved <= total, and the gap is the number of tickets in any other status |
| Dashboard.KnownStatusesPartition | src/pages/Dashboard.jsx:40-42 | when every status is a known one, total = open + in progress + closed |
| Dashboard.CountAppend | src/pages/Dashboard.jsx:41 | counts add up over concatenated lists |
| Dashboard.CreateCounts | src/pages/Tickets.jsx:128 | a create adds one to the total and one to the count of the new ticket's status |
| Dashboard.DeleteCounts | src/pages/Tickets.jsx:143 | a delete never raises a status count |
| Dashboard.DashboardPage.constructor | src/pages/Dashboard.jsx:5-10 | counters start at zero and the greeting at "User" |
| Dashboard.DashboardPage.GetCurrentUser | src/pages/Dashboard.jsx:18-27 | takes the current user from the store, greeting with its name or "User" when empty; without one nothing changes |
| Dashboard.DashboardPage.LoadStats | src/pages/Dashboard.jsx:33-43 | without a current user the counters are untouched; otherwise total, open and resolved are the length and the `open` and `closed` counts of its list (missing key: all zero), and open + resolved <= total |
| Dashboard.DashboardPage.Mount | src/pages/Dashboard.jsx:13-43 | with a current user the page takes it, greets it by name ("User" when the name is empty) and its counters describe its list; without one the user, greeting and counters are unchanged |
| Accounts.Message | src/pages/Signup.jsx:19-36 | every refusal has a non-empty message, so the error banner (src/pages/Signup.jsx:74, src/pages/Login.jsx:60) always shows it |
| Accounts.EmailExists | src/pages/Signup.jsx:33 | true exactly when some account's email equals the given one after lower-casing |
| Accounts.FindByEmail | src/pages/Login.jsx:31 | finds the first account whose email matches case-insensitively, or reports that none does |
| Accounts.FindIffExists | src/pages/Login.jsx:31 | login's lookup finds an account exactly when signup's duplicate check reports the email taken |
| Accounts.AppendKeepsUnique | src/pages/Signup.jsx:33-50 | appending an account whose lower-cased email is not taken keeps emails unique modulo case |
| Accounts.FindAppended | src/pages/Login.jsx:31 | with unique emails, any spelling of the appended account's email finds that account |
| Signup.SignupError | src/pages/Signup.jsx:18-38 | an empty field is refused first, then a password shorter than 6 UTF-16 code units, then a taken email; otherwise accepted |
| Signup.AstralPasswordLength | src/pages/Signup.jsx:23 | three characters above U+FFFF make a password of length 6; two fall short |
| Signup.NewUser | src/pages/Signup.jsx:41-47 | the new account's id is `user_` and the time's digits, its email is stored lower-cased and still matches the typed one case-insensitively, and name, password and creation time are as given |
| Signup.DuplicateAlwaysRefused | src/pages/Signup.jsx:33-38 | a taken email is refused as a duplicate whatever the (long enough) password |
| Signup.SignupKeepsEmailsUnique | src/pages/Signup.jsx:41-50 | a successful signup keeps emails unique modulo case |
| Signup.NewUserIdsDistinct | src/pages/Signup.jsx:42 | accounts created at different milliseconds get different ids |
| Signup.SignupPage.constructor | src/pages/Signup.jsx:8-9 | no error and no success banner |
| Signup.SignupPage.HandleSignup | src/pages/Signup.jsx:12-60 | a refusal shows its message and changes no store key; a success appends the new account (id `user_` + time, lower-cased email) at the end, sets it as current user with token `token_` + id + `_` + time, and keeps emails unique |
| Login.LoginCheck | src/pages/Login.jsx:15-42 | empty fields, then an empty user list, then unknown email or wrong password (one message for both) are refused; success exactly when the first account with the email has the password, and then it is that account |
| Login.LoginPage.constructor | src/pages/Login.jsx:7 | no error banner |
| Login.LoginPage.HandleLogin | src/pages/Login.jsx:10-51 | the outcome is the sign-in check; a refusal shows its message and leaves session and current user unchanged; a success sets the account found as current user with token `token_` + id + `_` + now |
| AuthRoundTrip.SignupThenLogin | src/pages/Login.jsx:31-47 | after a successful signup with unique emails, signing in with the same password and the email in any letter case yields the new account |
| AuthRoundTrip.SignupLogoutLogin | src/pages/Signup.jsx:41-58 | signup, logout and login through the pages leave the new account signed in, with emails still unique |

## Left out

- Rendering, CSS classes, the menu toggles, navigation, and `src/pages/Landing.jsx` and `src/components/Toast.jsx`. They hold no data logic.
- The timers: the toast's dismissal after 3 seconds (`src/pages/Tickets.jsx:172-174`) and the redirect after signup (`src/pages/Signup.jsx:62-64`).
- JSON serialisation and the real local-storage API. Stored values are typed fields. A corrupted value cannot be represented. An absent `ticketapp_users` key and an empty list are the same value, because every reader treats them alike.
- Concurrent tabs writing the same key. The model is single-threaded.
- The wall clock. `Date.now()` and the ISO timestamp are parameters. Signup reads the clock twice (id and token), so it takes two times.
- `formatDate`'s locale rendering is a foreign call. It is a function parameter of `Tickets.FormatDate`.
- Text.Lower: only ASCII letters are folded. JavaScript's `toLowerCase` also folds non-ASCII letters.
- Text.IsSpace: covers the ASCII white space, no-break space, byte-order mark, and the line and paragraph separators. It omits the other Unicode space separators that `trim` also removes.
- Tickets.StatusLabel: models the label table as exactly three entries. A JavaScript property lookup would also find inherited members such as `constructor`.
- Tickets.TicketsPage.SaveTicket: requires a current user when a valid form is submitted in create mode. The source throws a TypeError on `currentUser.id` there.
- Tickets.TicketsPage.DeleteTicket: requires an open confirmation, which guarantees a delete target. The source reads `ticketToDelete.id` and would throw without one.
- The modal visibility flags matter only as the condition for submitting a form. Closing the modal by clicking its overlay is `CloseModal` or `CancelDelete`.
- The validation errors are a record with one optional message per field. The source uses an object whose keys are the field names.
- Accounts.FindByEmail: returns the position of the account. `users.find` returns the account itself, which is `users[position]`.
- Login.LoginPage.HandleLogin: also returns its outcome, which the source shows only through the banner and the store.
- Edit preserves each ticket's id, creation time and owner only for tickets identical in those fields to the edited one. Tickets that merely share an id become copies of the form (`Tickets.EditKeepsIdentity`).
