# Moness staff portal — a Dafny model of the front end

The Moness staff portal is a single-page React application for a restaurant's staff. It handles:

- employee sign-up, log-in and password reset;
- a manager's view of employee access levels (edit a role, delete an employee);
- a user's own details and password;
- table reservations: bookings, blocked time slots, and searches by date, name, e-mail or id;
- the "Flemmyng" menu editor.

Every page is a thin view over a remote HTTP API. It loads data if it needs it, validates the form locally and sends one request. It then either navigates on, or writes an alert into the shared alert register and navigates to the generic `/alert` page.

This project models that front end in Dafny, one module per source file:

- **Shared state.**
  - `AlertInfoContext` and `ShowHeader` model the two context providers. Each is a class whose setter updates the register in place. A context read outside its provider gets a setter that does nothing.
  - `Browser.Window` records every path passed to `navigate` and every assignment to `document.cookie`, in call order.
- **Plumbing.**
  - `Fetch.Reply` is one network round trip. It is either a thrown error (`Rejected`) or an answer carrying `response.ok` and the `status`, `message` and payload fields of its JSON.
  - `Guard.Effect` is what one handler does to the shared state: cookie writes, a settings update, an alert, and navigations. `Guard.Apply`/`ApplyAlert` carry an effect out on the registers and the window.
- **Pages.** Each page is a class holding the page's `useState` fields. Each of its handlers is a method:
  - the network reply is a parameter;
  - the request body the handler would send is a real out-parameter (`None` when no request is sent);
  - the postcondition ties the new state to a pure outcome function of the page.
- **Outcome functions and lemmas.** The outcome functions, and the lemmas about them, state what the page promises: which inputs block a submit, which answer leads to which alert, and the round trips of the time and token encodings.
- **JavaScript semantics.** `Js` models the string operations the pages rely on: `trim`, `split`, `join`, `replace` of a single character, `slice`, ASCII `toLowerCase`, and `||` on strings. `Cookies` models reading `auth_token` from `document.cookie` and how the browser stores an assignment.

Behaviour of the code that the model keeps as written:

- **Meaning of success.** There is no single success test: the pages use four different ones, and each page's model uses that page's test:
  - `response.ok` alone (log-in, sign-up, the password pages, blocked-slot creation, the date search);
  - `status === "success"` alone (the name, e-mail and id searches, the blocked-slot and menu pages);
  - `response.ok && status !== "fail"` (user and employee pages);
  - a fixed `message` text first (booking creation).
- **Roles.** The role is whatever string the server sent; the model keeps it as a string, not an enumeration. The header test is an exact comparison, so `"manager"` does not show the header (`App.OnlyStaffRolesSeeHeader`).
- **The logout cookie.**
  - The header's logout writes `auth_token=''`, with no expiry. The page reads that back as the token `''`. That is a non-empty, truthy string, so the missing-token guard no longer fires (`Header.LogoutLeavesTruthyToken`).
  - The logged-in page's logout does the same with `auth_token=""` (`LoggedIn.LogoutLeavesTruthyToken`).
- **Employee deletion.** Confirming an employee's deletion shows "Employee Deleted" whatever the server answers. The model reproduces this and proves it (`ConfirmDeleteEmployee.DeleteOutcomeIgnoresAnswer`).
- **Blocked-slot load failures.** When loading a blocked slot fails, the delete page's alerts link to `/blocked-times-overview`. That path is not in the route table (`DeleteBlockedTimeSlot.LoadFailuresLinkNowhere`).
- **A taken e-mail at sign-up.** On a taken e-mail, sign-up navigates to `/alert` twice: once inside the 409 branch and once after the `catch` block. The navigation list records both calls.

## Model

| member | source | states |
|---|---|---|
| AlertInfoContext.Stored | src/context/AlertInfoContext.tsx:48-62 | the register keeps heading, message, label and link as given; a falsy error code (absent or empty) is stored as null, any other is kept |
| AlertInfoContext.StoredIsNormal | src/context/AlertInfoContext.tsx:55-61 | a stored code is never the empty string, and storing a stored value again changes nothing |
| AlertInfoContext.AlertInfoProvider.constructor | src/context/AlertInfoContext.tsx:25-31 | a fresh register holds the default alert, whose code is null |
| AlertInfoContext.AlertInfoProvider.SetAlertInfoHandler | src/context/AlertInfoContext.tsx:34-62 | inside a provider the register becomes the stored form of the arguments; the context default setter leaves it unchanged |
| AlertInfoContext.FreshRegisterHoldsDefault | src/context/AlertInfoContext.tsx:25-31 | a new provider holds the default alert with a null code |
| AlertInfoContext.OnlyLastAlertIsKept | src/context/AlertInfoContext.tsx:46-62 | two alerts set in a row leave only the second (last write wins, no queue) |
| AlertInfoContext.DefaultSetterIsNoOp | src/context/AlertInfoContext.tsx:34-37 | outside a provider, setting an alert leaves the default in place |
| ShowHeader.ShowHeaderSettingsProvider.constructor | src/context/ShowHeader.tsx:16-19 | fresh settings hide the header with role "Pending" |
| ShowHeader.ShowHeaderSettingsProvider.SetSettingsHandler | src/context/ShowHeader.tsx:22-26 | inside a provider the settings become exactly the two arguments; the default setter ignores them |
| ShowHeader.FreshSettingsAreDefault | src/context/ShowHeader.tsx:16-19 | a new provider starts with the header hidden and role "Pending" |
| ShowHeader.LastSettingsWin | src/context/ShowHeader.tsx:41-46 | two settings calls in a row leave the second |
| ShowHeader.DefaultSetterIgnoresSettings | src/context/ShowHeader.tsx:22-26 | outside a provider the settings stay the default whatever is passed |
| App.OnlyStaffRolesSeeHeader | src/App.tsx:49-51 | the header renders only for role "Manager" or "Allowed" with the flag set; other roles, including lower-case "manager", and a cleared flag never see it |
| App.DefaultSettingsHideHeader | src/App.tsx:49-51 | the settings a logout restores hide the header |
| App.PathOf | src/App.tsx:53-154 | the path built from route segments starts with "/" |
| App.ParamNames | src/App.tsx:53-154 | a name is a parameter of a pattern exactly when a `:name` segment of it carries that name |
| App.ResolvePathOf | src/App.tsx:53-154 | resolving a path built from slash-free segments finds exactly the pages whose pattern matches those segments |
| App.SingleSegmentPath | src/App.tsx:53-154 | a one-segment path resolves to the pages matching that one segment |
| App.OnlyAlertMatches | src/App.tsx:67 | the segment list ["alert"] matches the alert page and no other |
| App.AlertPathResolves | src/App.tsx:67 | "/alert", the target of every alert hand-off, resolves to the alert page alone |
| App.NoPageFor | src/App.tsx:53-154 | no route matches the single segment "blocked-times-overview" |
| App.BlockedTimesOverviewIsUndeclared | src/App.tsx:53-154 | the path "/blocked-times-overview" resolves to no page |
| App.MenuRouteParameters | src/App.tsx:142-154 | the edit and delete menu routes take a category and an id; the create route takes only a category |
| Fetch.ErrorMessage | src/pages/home-and-auth/log-in/LogIn.tsx:76-78 | a thrown error yields its own message; an answer yields the server's message when non-empty, else the handler's fallback text |
| Guard.AlertEffect | src/pages/user-details/view-user-details/ViewUserDetails.tsx:68-75 | setting an alert then navigating yields that alert and the single navigation "/alert", touching nothing else |
| Guard.NavigateEffect | src/pages/user-details/edit-user-password/EditUserPassword.tsx:74 | a bare navigation yields that one path and no alert, cookie or settings change |
| Guard.CaughtAlert | src/pages/user-details/view-user-details/ViewUserDetails.tsx:62-75 | the catch block's alert: fixed heading, label, link and code; the server's non-empty message, else the thrown fallback, else the shown fallback |
| Guard.TokenGuard | src/pages/user-details/view-user-details/ViewUserDetails.tsx:35-45 | a protected page stops exactly when the token is falsy, and then shows the 401 "Unauthorized" alert and navigates to "/alert" |
| Guard.AlertAfter | src/context/AlertInfoContext.tsx:48-62 | the register after an effect: unchanged without an alert or outside a provider, otherwise the stored alert |
| Guard.SettingsAfter | src/context/ShowHeader.tsx:41-46 | the settings after an effect: unchanged without a settings call or outside a provider, otherwise the new settings |
| Guard.ApplyAlert | src/pages/user-details/view-user-details/ViewUserDetails.tsx:68-75 | carrying out an effect appends its navigations to the history and updates the alert register as the provider would |
| Guard.Apply | src/pages/home-and-auth/log-in/LogIn.tsx:80-97 | as ApplyAlert, and also appends the effect's cookie writes and applies its settings call |
| Js.TrimStartDropsSpace | src/pages/home-and-auth/log-in/LogIn.tsx:47-48 | trimStart removes exactly a prefix of white space and leaves a result that does not start with white space |
| Js.TrimEndDropsSpace | src/pages/home-and-auth/log-in/LogIn.tsx:47-48 | trimEnd removes exactly a suffix of white space and leaves a result that does not end with white space |
| Js.TrimEmptyIffBlank | src/pages/home-and-auth/log-in/LogIn.tsx:47-48 | `trim()` is empty exactly when every character is white space |
| Js.IndexOf | src/pages/user-details/view-user-details/ViewUserDetails.tsx:27-30 | the index found is an occurrence of the separator and no earlier index is one; None means no occurrence |
| Js.SplitHead | src/pages/user-details/view-user-details/ViewUserDetails.tsx:27-30 | without the separator `split` gives the whole string; with it, the first piece is the text before the first occurrence |
| Js.JoinSplit | src/pages/user-details/view-user-details/ViewUserDetails.tsx:27-30 | joining the pieces of a split with the same separator gives back the string |
| Js.SplitPiecesHoldNoSeparator | src/pages/user-details/view-user-details/ViewUserDetails.tsx:27-30 | no piece of a split contains the separator |
| Js.SplitJoin | src/pages/flemmyng-menu/short-menu-item/MenuItem.tsx:43 | splitting a join of separator-free pieces gives back the pieces |
| Js.RemoveFirstSpec | src/pages/table-reservation-overview/create-booking/CreateBooking.tsx:49 | `replace(":", "")` leaves a colon-free string alone and otherwise removes exactly the first colon |
| Js.LowerAscii | src/pages/manager/employee-access-pages/view-employee-access-levels/ViewEmployeeAccessLevels.tsx:92 | `toLowerCase` keeps the length and lowers each character on its own |
| Cookies.FindTokenEntry | src/pages/user-details/view-user-details/ViewUserDetails.tsx:27-29 | finds an entry starting with "auth_token=" exactly when one exists, and returns the first such entry |
| Cookies.EntrySplitsInTwo | src/pages/user-details/view-user-details/ViewUserDetails.tsx:30 | an "auth_token=" entry always has a piece after the first "=" |
| Cookies.AuthToken | src/pages/user-details/view-user-details/ViewUserDetails.tsx:27-30 | the token is undefined exactly when no cookie entry starts with "auth_token=" |
| Cookies.TokenIsBetweenFirstAndSecondEquals | src/pages/user-details/view-user-details/ViewUserDetails.tsx:30 | `split("=")[1]` of the entry is the text after the first "=" up to the next "=" |
| Cookies.TokenOfSingleEntry | src/pages/user-details/view-user-details/ViewUserDetails.tsx:27-30 | a cookie holding just "auth_token=v" yields v |
| Cookies.EmptyCookieHasNoToken | src/pages/user-details/view-user-details/ViewUserDetails.tsx:27-30 | an empty cookie yields no token |
| Cookies.EmptyValueYieldsFalsyToken | src/pages/user-details/view-user-details/ViewUserDetails.tsx:27-36 | "auth_token=" yields the empty token, which the guard treats as missing |
| Cookies.QuotedEmptyValueYieldsTruthyToken | src/pages/logged-in/LoggedIn.tsx:16 | the logout value `auth_token=""` yields the two-quote token, which passes the guard |
| Cookies.StoredPair | src/pages/home-and-auth/log-in/LogIn.tsx:80-82 | the browser keeps the name=value pair before the first ";", which has no ";" and starts the assignment |
| Cookies.StoredPairOfAssignment | src/pages/home-and-auth/log-in/LogIn.tsx:80-82 | an assignment with attributes stores exactly its name=value pair |
| Cookies.StoredPairOfBareAssignment | src/components/header/Header.tsx:28 | an assignment without attributes is stored whole |
| Cookies.SessionCookieRoundTrip | src/pages/home-and-auth/log-in/LogIn.tsx:80-82 | a token written at log-in is read back unchanged by the pages, if it holds no ";" or "=" |
| Cookies.CookieAfter | src/pages/home-and-auth/log-in/LogIn.tsx:80-88 | the cookie after an assignment is the earlier one or the stored pair: the pair when it holds '=', and the earlier cookie when it holds none |
| Cookies.EmptyAssignmentStoresNothing | src/pages/home-and-auth/log-in/LogIn.tsx:88 | assigning `""` leaves the earlier cookie, and the token read from it, unchanged |
| Cookies.SessionCookieReplacesJar | src/pages/home-and-auth/log-in/LogIn.tsx:80-82 | after the session cookie is written, whatever the earlier cookie was, the pages read the new token |
| Names.NameParts | src/pages/user-details/view-user-details/ViewUserDetails.tsx:81-85 | the name words are first, a truthy middle name, then last |
| Names.FullNameJoinsParts | src/pages/user-details/view-user-details/ViewUserDetails.tsx:81-85 | the displayed full name is the name words joined by single spaces |
| Names.FalsyMiddleIsOmitted | src/pages/user-details/view-user-details/ViewUserDetails.tsx:84 | an absent or empty middle name leaves "first last" |
| Names.FullNameWordsRoundTrip | src/pages/user-details/view-user-details/ViewUserDetails.tsx:81-85 | splitting the full name at spaces gives back the name words when the names hold no space |
| Header.DesktopButtons | src/components/header/Header.tsx:43-56 | the access-levels button is shown exactly for role "Manager"; user details and log out are always shown |
| Header.DropdownButtons | src/components/header/Header.tsx:62-76 | the dropdown is empty when closed and repeats the desktop buttons when open |
| Header.LogoutLeavesTruthyToken | src/components/header/Header.tsx:28 | after the header's logout the pages read the token `''`, which is truthy |
| Header.HeaderBar.constructor | src/components/header/Header.tsx:15 | the menu starts closed |
| Header.HeaderBar.ToggleMenu | src/components/header/Header.tsx:34-36 | toggling flips the menu and changes nothing else |
| Header.HeaderBar.GoToEmployeeAccessLevels | src/components/header/Header.tsx:17-20 | navigates to the access-levels list and closes the menu |
| Header.HeaderBar.GoToViewUserDetails | src/components/header/Header.tsx:22-25 | navigates to the user-details page and closes the menu |
| Header.HeaderBar.LogOut | src/components/header/Header.tsx:27-32 | writes the logout cookie, resets the settings to the default, navigates to "/" and closes the menu |
| Header.ToggleTwiceThenNavigate | src/components/header/Header.tsx:17-36 | opening and closing the menu leaves it closed, and a navigation closes it too |
| LoggedIn.ScreenFor | src/pages/logged-in/LoggedIn.tsx:29-85 | the welcome screen exactly for "Manager" or "Allowed", the pending notice for "Pending", the banned notice for "Banned", nothing for any other role |
| LoggedIn.ButtonsOf | src/pages/logged-in/LoggedIn.tsx:42-82 | the welcome screen offers table reservation and menu; the notices offer only log out; the blank screen offers nothing |
| LoggedIn.OnlyStaffCanNavigate | src/pages/logged-in/LoggedIn.tsx:29-85 | table reservation is offered exactly to staff roles, and log out exactly to pending or banned users |
| LoggedIn.LogoutLeavesTruthyToken | src/pages/logged-in/LoggedIn.tsx:16 | after this logout the pages read the token `""`, which is truthy |
| LoggedIn.LoggedInPage.Logout | src/pages/logged-in/LoggedIn.tsx:14-19 | writes the logout cookie, resets the settings to the default and navigates to "/" |
| LoggedIn.LoggedInPage.GoToTableReservation | src/pages/logged-in/LoggedIn.tsx:21-23 | navigates to the table-reservation overview |
| LoggedIn.LoggedInPage.GoToFlemmyngMenu | src/pages/logged-in/LoggedIn.tsx:25-27 | navigates to the menu overview |
| LogIn.Validate | src/pages/home-and-auth/log-in/LogIn.tsx:47-56 | missing exactly when a trimmed field is empty, invalid e-mail exactly without "@", short password exactly under 6 characters |
| LogIn.AcceptedCredentials | src/pages/home-and-auth/log-in/LogIn.tsx:47-60 | a log-in is sent exactly when both fields have a non-space character, the e-mail has "@" and the password has at least 6 characters |
| LogIn.BlankPasswordIsMissingNotShort | src/pages/home-and-auth/log-in/LogIn.tsx:47-50 | six spaces count as a missing password, not as a short one |
| LogIn.FailureAlert | src/pages/home-and-auth/log-in/LogIn.tsx:76-96 | the 401 "Login failed!" alert linking to "/log-in", carrying the server message or the fallbacks |
| LogIn.AnsweredFailureMessageIsNeverEmpty | src/pages/home-and-auth/log-in/LogIn.tsx:76-92 | after a failed answer the message is never empty, and the "Invalid credentials" text appears only when the server sent it |
| LogIn.SubmitEffect | src/pages/home-and-auth/log-in/LogIn.tsx:62-97 | an ok answer stores the session cookie, shows the header with the returned role and goes to "/logged-in"; any failure writes "" to `document.cookie`, which the browser ignores, and shows the failure alert |
| LogIn.FailureKeepsEarlierSession | src/pages/home-and-auth/log-in/LogIn.tsx:78-88 | after a failed log-in the pages still read the earlier session's token; after an ok answer they read the new one |
| LogIn.SubmitOutcome | src/pages/home-and-auth/log-in/LogIn.tsx:58-60 | a blocked form has no effect; otherwise the effect of the reply |
| LogIn.LogInPage.constructor | src/pages/home-and-auth/log-in/LogIn.tsx:18-26 | empty fields, no errors, not loading |
| LogIn.LogInPage.HandleSubmit | src/pages/home-and-auth/log-in/LogIn.tsx:44-101 | records the validation flags, sends the credentials only when nothing blocks, and applies the outcome to cookie, settings, alert and history |
| SignUp.Values | src/pages/home-and-auth/sign-up/SignUp.tsx:74-76 | the form has six values, all checked for blankness |
| SignUp.AnyBlankIff | src/pages/home-and-auth/sign-up/SignUp.tsx:74-76 | `some(v => v.trim().length === 0)` holds exactly when some value trims to empty |
| SignUp.Validate | src/pages/home-and-auth/sign-up/SignUp.tsx:74-90 | each of the five flags holds exactly when its own check fails |
| SignUp.MissingIffSomeFieldBlank | src/pages/home-and-auth/sign-up/SignUp.tsx:74-76 | missing fields exactly when one of the six fields is blank after trimming |
| SignUp.AcceptedFormIsConfirmed | src/pages/home-and-auth/sign-up/SignUp.tsx:93-101 | a submitted form has matching confirmations, an "@" in the e-mail, a password of at least 6 and non-blank names |
| SignUp.BodyOf | src/pages/home-and-auth/sign-up/SignUp.tsx:109-114 | the request carries the first and last name, e-mail and password from the form |
| SignUp.ReplyEffect | src/pages/home-and-auth/sign-up/SignUp.tsx:121-164 | success stores the session cookie, shows the header and the "created" alert; the taken-e-mail message gives the 409 alert with two navigations; any other failure gives the 500 alert |
| SignUp.EveryOutcomeEndsAtAlert | src/pages/home-and-auth/sign-up/SignUp.tsx:121-164 | every reply sets an alert and ends on "/alert"; a failure writes "" to `document.cookie`, which the browser ignores, links to "/sign-up", and is coded 409 exactly for the taken-e-mail message, else 500 |
| SignUp.FailureKeepsEarlierSession | src/pages/home-and-auth/sign-up/SignUp.tsx:124-140 | after a failed sign-up the pages still read the earlier session's token; after an ok answer they read the new one |
| SignUp.TakenNeedsExactMessage | src/pages/home-and-auth/sign-up/SignUp.tsx:142-145 | a failure without a server message is never reported as a taken e-mail |
| SignUp.CreatedAlertStoresNullCode | src/pages/home-and-auth/sign-up/SignUp.tsx:131-137 | the empty code of the "created" alert is stored as null |
| SignUp.SubmitOutcome | src/pages/home-and-auth/sign-up/SignUp.tsx:93-101 | a blocked form has no effect; otherwise the effect of the reply |
| SignUp.SignUpPage.constructor | src/pages/home-and-auth/sign-up/SignUp.tsx:33-51 | empty form, no errors, not loading |
| SignUp.SignUpPage.HandleSubmit | src/pages/home-and-auth/sign-up/SignUp.tsx:70-168 | records the flags, sends the body only when nothing blocks, and applies the outcome |
| SignUp.SignUpPage.GoToHome | src/pages/home-and-auth/sign-up/SignUp.tsx:53-55 | the "Back to Home" button navigates to "/" |
| ForgotPasswordSendEmail.Validate | src/pages/home-and-auth/forgot-password--send-email/ForgotPasswordSendEmail.tsx:33-34 | missing exactly for a blank e-mail, invalid exactly without "@" |
| ForgotPasswordSendEmail.BlankEmailRaisesBothFlags | src/pages/home-and-auth/forgot-password--send-email/ForgotPasswordSendEmail.tsx:33-34 | an all-space e-mail raises both flags |
| ForgotPasswordSendEmail.AcceptedEmail | src/pages/home-and-auth/forgot-password--send-email/ForgotPasswordSendEmail.tsx:33-39 | the reset mail is requested exactly for an e-mail with "@" and a non-space character |
| ForgotPasswordSendEmail.SendEmailPage.constructor | src/pages/home-and-auth/forgot-password--send-email/ForgotPasswordSendEmail.tsx:12-19 | empty e-mail, message and error, no flags |
| ForgotPasswordSendEmail.SendEmailPage.HandleSubmit | src/pages/home-and-auth/forgot-password--send-email/ForgotPasswordSendEmail.tsx:25-64 | sends the e-mail only when valid; an ok answer shows the sent message, a failure shows the error text, never both |
| ForgotPasswordSendEmail.AnsweredFailureShowsAnError | src/pages/home-and-auth/forgot-password--send-email/ForgotPasswordSendEmail.tsx:52-61 | a failed answer always shows a non-empty error, the fallback text when the server sent none |
| ForgotPasswordChangePassword.Validate | src/pages/home-and-auth/forgot-password--change-password/ForgotPasswordChangePassword.tsx:61-69 | missing exactly when a field is blank, invalid exactly under 6 characters, mismatch exactly when the two differ |
| ForgotPasswordChangePassword.AcceptedPasswords | src/pages/home-and-auth/forgot-password--change-password/ForgotPasswordChangePassword.tsx:61-71 | a reset is sent exactly for two equal passwords of at least 6 characters with a non-space character |
| ForgotPasswordChangePassword.ReplyEffect | src/pages/home-and-auth/forgot-password--change-password/ForgotPasswordChangePassword.tsx:92-105 | an ok answer shows the "Password changed!" alert; a failure leaves the registers alone |
| ForgotPasswordChangePassword.ReplyError | src/pages/home-and-auth/forgot-password--change-password/ForgotPasswordChangePassword.tsx:92-105 | no error after an ok answer; a non-empty error after a failed answer; the thrown reason after a rejected call |
| ForgotPasswordChangePassword.SubmitOutcome | src/pages/home-and-auth/forgot-password--change-password/ForgotPasswordChangePassword.tsx:55-71 | no effect without a reset token or with a blocked form; otherwise the effect of the reply |
| ForgotPasswordChangePassword.AlertOrErrorNeverBoth | src/pages/home-and-auth/forgot-password--change-password/ForgotPasswordChangePassword.tsx:92-105 | an alert comes with no inline error, and an inline error with no navigation |
| ForgotPasswordChangePassword.ChangePasswordPage.constructor | src/pages/home-and-auth/forgot-password--change-password/ForgotPasswordChangePassword.tsx:12-31 | empty fields, message and error, no flags, not submitting |
| ForgotPasswordChangePassword.ChangePasswordPage.HandleSubmit | src/pages/home-and-auth/forgot-password--change-password/ForgotPasswordChangePassword.tsx:50-110 | without a token only shows the invalid-link error; otherwise records the flags, sends the reset only when nothing blocks, and shows the alert or the error |
| EditUserPassword.FailedAlert | src/pages/user-details/edit-user-password/EditUserPassword.tsx:75-83 | the 500 "Password Update Failed" alert linking to "/logged-in", with a non-empty message |
| EditUserPassword.ReplyEffect | src/pages/user-details/edit-user-password/EditUserPassword.tsx:68-83 | an answer that is ok and not "fail" returns to "/logged-in"; anything else shows the failure alert |
| EditUserPassword.SubmitOutcome | src/pages/user-details/edit-user-password/EditUserPassword.tsx:28-83 | no token gives the 401 alert; differing passwords give no effect; otherwise the effect of the reply |
| EditUserPassword.TokenCheckedBeforeMismatch | src/pages/user-details/edit-user-password/EditUserPassword.tsx:31-45 | a missing or empty token is reported even when the passwords differ |
| EditUserPassword.SentUpdateAlwaysNavigates | src/pages/user-details/edit-user-password/EditUserPassword.tsx:53-83 | a sent update navigates exactly once, to "/logged-in" exactly when the answer is ok and not "fail" |
| EditUserPassword.EditUserPasswordPage.constructor | src/pages/user-details/edit-user-password/EditUserPassword.tsx:14-26 | the token is read from the cookie; empty fields, no error, not loading |
| EditUserPassword.EditUserPasswordPage.HandleSubmit | src/pages/user-details/edit-user-password/EditUserPassword.tsx:28-85 | sets the mismatch error only with a token, sends the update only with a token and equal passwords, and applies the outcome |
| EditUserPassword.EditUserPasswordPage.Cancel | src/pages/user-details/edit-user-password/EditUserPassword.tsx:134-137 | the Cancel button navigates to "/logged-in" |
| ViewUserDetails.FetchFailedAlert | src/pages/user-details/view-user-details/ViewUserDetails.tsx:62-75 | the 500 "Error Fetching Details" alert linking to "/" |
| ViewUserDetails.FetchOutcome | src/pages/user-details/view-user-details/ViewUserDetails.tsx:34-78 | no token gives the 401 alert; a failed answer gives the fetch alert; a good answer has no effect |
| ViewUserDetails.EditPathsAreDistinct | src/pages/user-details/view-user-details/ViewUserDetails.tsx:87-97 | the edit-details and edit-password paths never coincide and each determines its id |
| ViewUserDetails.ViewUserDetailsPage.constructor | src/pages/user-details/view-user-details/ViewUserDetails.tsx:23-30 | the token is read from the cookie; no details yet, loading |
| ViewUserDetails.ViewUserDetailsPage.FetchUserDetails | src/pages/user-details/view-user-details/ViewUserDetails.tsx:34-79 | fetches exactly when a token exists; a good answer stores its payload, and one without a payload leaves no card shown and raises no alert; loading ends; the outcome is applied |
| ViewUserDetails.ViewUserDetailsPage.FullName | src/pages/user-details/view-user-details/ViewUserDetails.tsx:81-85 | empty before loading, otherwise the name words joined by spaces |
| ViewUserDetails.ViewUserDetailsPage.GoToEditUserDetails | src/pages/user-details/view-user-details/ViewUserDetails.tsx:87-91 | navigates to the edit-details path of the loaded user, and nowhere before loading |
| ViewUserDetails.ViewUserDetailsPage.GoToEditUserPassword | src/pages/user-details/view-user-details/ViewUserDetails.tsx:93-97 | navigates to the edit-password path of the loaded user, and nowhere before loading |
| EditUserDetails.Prefill | src/pages/user-details/edit-user-details/EditUserDetails.tsx:150-180 | the inputs start with the loaded names and e-mail; an absent middle name starts empty |
| EditUserDetails.UntouchedSaveSendsRecordBack | src/pages/user-details/edit-user-details/EditUserDetails.tsx:92-97 | for a user without a middle name, the untouched inputs are the loaded names and e-mail with an empty middle name |
| EditUserDetails.FetchFailedAlert | src/pages/user-details/edit-user-details/EditUserDetails.tsx:73-81 | the 500 "Error Fetching Details" alert linking to "/logged-in" |
| EditUserDetails.UpdateFailedAlert | src/pages/user-details/edit-user-details/EditUserDetails.tsx:121-129 | the 500 "Update Failed" alert linking to "/logged-in" |
| EditUserDetails.FetchOutcome | src/pages/user-details/edit-user-details/EditUserDetails.tsx:40-84 | no token gives the 401 alert; a failed answer gives the fetch alert; a good answer has no effect |
| EditUserDetails.SubmitOutcome | src/pages/user-details/edit-user-details/EditUserDetails.tsx:87-133 | nothing unless the update can be sent; then "/logged-in" for a good answer, the update alert otherwise |
| EditUserDetails.SentUpdateEndsAtLandingPage | src/pages/user-details/edit-user-details/EditUserDetails.tsx:114-129 | a sent update navigates once, and either lands on "/logged-in" or shows an alert linking there |
| EditUserDetails.EditUserDetailsPage.constructor | src/pages/user-details/edit-user-details/EditUserDetails.tsx:22-34 | the token is read from the cookie; no user yet, loading |
| EditUserDetails.EditUserDetailsPage.FetchUserDetails | src/pages/user-details/edit-user-details/EditUserDetails.tsx:40-84 | fetches exactly when a token exists; a good answer stores its payload, and one without a payload leaves the form hidden and raises no alert; loading ends; the outcome is applied |
| EditUserDetails.EditUserDetailsPage.HandleSubmit | src/pages/user-details/edit-user-details/EditUserDetails.tsx:87-133 | sends the inputs for the route id only with a token, a loaded user and an id, and applies the outcome |
| ViewEmployeeAccessLevels.FilterEmployees | src/pages/manager/employee-access-pages/view-employee-access-levels/ViewEmployeeAccessLevels.tsx:88-94 | "All" keeps the list; another filter keeps only employees whose role matches it ignoring case |
| ViewEmployeeAccessLevels.FilterKeepsExactlyMatching | src/pages/manager/employee-access-pages/view-employee-access-levels/ViewEmployeeAccessLevels.tsx:88-94 | an employee is shown exactly when listed and matching the filter |
| ViewEmployeeAccessLevels.FilterOfConcat | src/pages/manager/employee-access-pages/view-employee-access-levels/ViewEmployeeAccessLevels.tsx:91-93 | filtering keeps the order of the list: filtering two lists one after the other is filtering their concatenation |
| ViewEmployeeAccessLevels.FilterIsIdempotent | src/pages/manager/employee-access-pages/view-employee-access-levels/ViewEmployeeAccessLevels.tsx:88-94 | filtering a filtered list again changes nothing |
| ViewEmployeeAccessLevels.FetchFailedAlert | src/pages/manager/employee-access-pages/view-employee-access-levels/ViewEmployeeAccessLevels.tsx:67-82 | the 500 "Error Fetching Employees" alert linking to "/"; a good answer without the list reports an unexpected format |
| ViewEmployeeAccessLevels.FetchOutcome | src/pages/manager/employee-access-pages/view-employee-access-levels/ViewEmployeeAccessLevels.tsx:35-86 | no token gives the 401 alert; an answer without an employee list gives the fetch alert; a loaded list has no effect |
| ViewEmployeeAccessLevels.MissingArrayIsAFailure | src/pages/manager/employee-access-pages/view-employee-access-levels/ViewEmployeeAccessLevels.tsx:67-72 | a good answer with no employee array still shows the "Unexpected response format." alert |
| ViewEmployeeAccessLevels.ViewEmployeeAccessLevelsPage.constructor | src/pages/manager/employee-access-pages/view-employee-access-levels/ViewEmployeeAccessLevels.tsx:23-33 | the token is read from the cookie; no employees, loading, filter "All" |
| ViewEmployeeAccessLevels.ViewEmployeeAccessLevelsPage.FetchEmployees | src/pages/manager/employee-access-pages/view-employee-access-levels/ViewEmployeeAccessLevels.tsx:35-86 | fetches exactly when a token exists; a loaded list replaces the employees; loading ends; the outcome is applied |
| ViewEmployeeAccessLevels.ViewEmployeeAccessLevelsPage.SetFilter | src/pages/manager/employee-access-pages/view-employee-access-levels/ViewEmployeeAccessLevels.tsx:114-131 | a filter button sets that filter |
| ViewEmployeeAccessLevels.ViewEmployeeAccessLevelsPage.Shown | src/pages/manager/employee-access-pages/view-employee-access-levels/ViewEmployeeAccessLevels.tsx:135 | the cards shown are exactly the stored employees the current filter admits |
| ViewEmployeeAccessLevels.ViewEmployeeAccessLevelsPage.Edit | src/pages/manager/employee-access-pages/view-employee-access-levels/ViewEmployeeAccessLevels.tsx:148-155 | a card's edit button navigates to the edit path of that employee's id |
| ViewEmployeeAccessLevels.ViewEmployeeAccessLevelsPage.Delete | src/pages/manager/employee-access-pages/view-employee-access-levels/ViewEmployeeAccessLevels.tsx:156-163 | a card's delete button navigates to the confirm-delete path of that employee's id |
| ViewEmployeeAccessLevels.ViewEmployeeAccessLevelsPage.GoToLoggedIn | src/pages/manager/employee-access-pages/view-employee-access-levels/ViewEmployeeAccessLevels.tsx:96-98 | the Close button navigates to "/logged-in" |
| EditEmployeeAccessLevel.SelectableRolesAreTheFourRoles | src/pages/manager/employee-access-pages/edit-employee-access/EditEmployeeAccessLevel.tsx:174-177 | the role select offers exactly the four roles, each once |
| EditEmployeeAccessLevel.FetchFailedAlert | src/pages/manager/employee-access-pages/edit-employee-access/EditEmployeeAccessLevel.tsx:75-84 | the 500 "Error Fetching Employee" alert linking to "/logged-in" |
| EditEmployeeAccessLevel.FetchOutcome | src/pages/manager/employee-access-pages/edit-employee-access/EditEmployeeAccessLevel.tsx:34-88 | no token gives the 401 alert; an answer without a record gives the fetch alert; a loaded record has no effect |
| EditEmployeeAccessLevel.MissingRecordIsAFailure | src/pages/manager/employee-access-pages/edit-employee-access/EditEmployeeAccessLevel.tsx:68-73 | a good answer without a payload still shows the "Unexpected response format." alert |
| EditEmployeeAccessLevel.UpdateFailedAlert | src/pages/manager/employee-access-pages/edit-employee-access/EditEmployeeAccessLevel.tsx:123-131 | the 500 "Update Failed" alert linking to "/logged-in" |
| EditEmployeeAccessLevel.SubmitOutcome | src/pages/manager/employee-access-pages/edit-employee-access/EditEmployeeAccessLevel.tsx:90-135 | nothing unless the update can be sent; then back to the access list for a good answer, the update alert otherwise |
| EditEmployeeAccessLevel.SuccessSetsNoAlert | src/pages/manager/employee-access-pages/edit-employee-access/EditEmployeeAccessLevel.tsx:118-122 | a good answer navigates straight to the access list without touching the alert |
| EditEmployeeAccessLevel.SubmitActsExactlyWhenReady | src/pages/manager/employee-access-pages/edit-employee-access/EditEmployeeAccessLevel.tsx:90-96 | a submit has any effect exactly when the token, the loaded record and the selected role are all truthy; it then navigates, with an alert exactly for a bad answer |
| EditEmployeeAccessLevel.SelectedOptionPassesRoleCheck | src/pages/manager/employee-access-pages/edit-employee-access/EditEmployeeAccessLevel.tsx:93-96 | with one of the four options selected, a submit is sent exactly when there are a token and a loaded record |
| EditEmployeeAccessLevel.EditEmployeeAccessLevelPage.constructor | src/pages/manager/employee-access-pages/edit-employee-access/EditEmployeeAccessLevel.tsx:24-33 | the token is read from the cookie; no employee yet, loading |
| EditEmployeeAccessLevel.EditEmployeeAccessLevelPage.FullName | src/pages/manager/employee-access-pages/edit-employee-access/EditEmployeeAccessLevel.tsx:150-152 | empty before loading, otherwise the name words joined by spaces |
| EditEmployeeAccessLevel.EditEmployeeAccessLevelPage.FetchEmployeeDetails | src/pages/manager/employee-access-pages/edit-employee-access/EditEmployeeAccessLevel.tsx:34-88 | fetches exactly when a token exists; a loaded record is stored; loading ends; the outcome is applied |
| EditEmployeeAccessLevel.EditEmployeeAccessLevelPage.HandleSubmit | src/pages/manager/employee-access-pages/edit-employee-access/EditEmployeeAccessLevel.tsx:90-135 | sends the employee's id with the selected role only with a token, a loaded employee and a chosen role, and applies the outcome |
| EditEmployeeAccessLevel.EditEmployeeAccessLevelPage.Cancel | src/pages/manager/employee-access-pages/edit-employee-access/EditEmployeeAccessLevel.tsx:186-193 | navigates back to the access list |
| ConfirmDeleteEmployee.FetchFailedAlert | src/pages/manager/employee-access-pages/confirm-delete-employee/ConfirmDeleteEmployee.tsx:64-72 | the 500 "Error Fetching Employee" alert linking to "/logged-in" |
| ConfirmDeleteEmployee.FetchOutcome | src/pages/manager/employee-access-pages/confirm-delete-employee/ConfirmDeleteEmployee.tsx:33-76 | no token gives the 401 alert; a failed answer gives the fetch alert; a good answer has no effect |
| ConfirmDeleteEmployee.DeleteOutcome | src/pages/manager/employee-access-pages/confirm-delete-employee/ConfirmDeleteEmployee.tsx:78-118 | nothing without a token and an id; otherwise the "Employee Deleted" alert |
| ConfirmDeleteEmployee.DeleteOutcomeIgnoresAnswer | src/pages/manager/employee-access-pages/confirm-delete-employee/ConfirmDeleteEmployee.tsx:96-114 | the outcome of a deletion is the same whatever the server answers, failure included |
| ConfirmDeleteEmployee.ConfirmDeleteEmployeePage.constructor | src/pages/manager/employee-access-pages/confirm-delete-employee/ConfirmDeleteEmployee.tsx:24-31 | the token is read from the cookie; no employee yet, loading |
| ConfirmDeleteEmployee.ConfirmDeleteEmployeePage.FullName | src/pages/manager/employee-access-pages/confirm-delete-employee/ConfirmDeleteEmployee.tsx:133-135 | empty before loading, otherwise the name words joined by spaces |
| ConfirmDeleteEmployee.ConfirmDeleteEmployeePage.FetchEmployee | src/pages/manager/employee-access-pages/confirm-delete-employee/ConfirmDeleteEmployee.tsx:33-76 | fetches exactly when a token exists; a good answer stores its payload, and one without a payload keeps the loader up and raises no alert; loading ends; the outcome is applied |
| ConfirmDeleteEmployee.ConfirmDeleteEmployeePage.HandleDelete | src/pages/manager/employee-access-pages/confirm-delete-employee/ConfirmDeleteEmployee.tsx:78-118 | sends the deletion exactly with a token and an id, and applies the outcome |
| ConfirmDeleteEmployee.ConfirmDeleteEmployeePage.Cancel | src/pages/manager/employee-access-pages/confirm-delete-employee/ConfirmDeleteEmployee.tsx:157-163 | navigates back to the access list |
| CreateMenuItem.CategoryVisibility | src/pages/flemmyng-menu/create-menu-item/CreateMenuItem.tsx:55-81 | the category table: while-you-wait allergens only; starters and mains all three; sides options and allergens; desserts description and options |
| CreateMenuItem.KnownCategoriesOnly | src/pages/flemmyng-menu/create-menu-item/CreateMenuItem.tsx:55-81 | only the five named categories show any optional field, and options are shown exactly for starters, mains, sides and desserts |
| CreateMenuItem.RemoveAll | src/pages/flemmyng-menu/create-menu-item/CreateMenuItem.tsx:95-96 | `filter(item => item !== value)` never grows the list |
| CreateMenuItem.RemoveAllKeepsOthers | src/pages/flemmyng-menu/create-menu-item/CreateMenuItem.tsx:95-96 | the filter removes every copy of the value and keeps all other entries; a list without the value is unchanged |
| CreateMenuItem.RemoveAllKeepsNoDuplicates | src/pages/flemmyng-menu/create-menu-item/CreateMenuItem.tsx:95-96 | filtering keeps a duplicate-free list duplicate-free |
| CreateMenuItem.Toggle | src/pages/flemmyng-menu/create-menu-item/CreateMenuItem.tsx:90-100 | a ticked value is filtered out; an unticked value is appended |
| CreateMenuItem.ToggleFlipsMembership | src/pages/flemmyng-menu/create-menu-item/CreateMenuItem.tsx:90-100 | toggling flips the value's membership and leaves every other value's membership alone |
| CreateMenuItem.ToggleKeepsNoDuplicates | src/pages/flemmyng-menu/create-menu-item/CreateMenuItem.tsx:90-100 | toggling keeps a duplicate-free list duplicate-free |
| CreateMenuItem.ToggleTwiceRestores | src/pages/flemmyng-menu/create-menu-item/CreateMenuItem.tsx:90-100 | ticking then unticking a value restores the list |
| CreateMenuItem.RemoveAllOfAppended | src/pages/flemmyng-menu/create-menu-item/CreateMenuItem.tsx:95-96 | filtering out a value just appended to a list without it gives the list back |
| CreateMenuItem.ToggleIn | src/pages/flemmyng-menu/create-menu-item/CreateMenuItem.tsx:90-100 | a checkbox toggles only the options list or only the allergens list, as named |
| CreateMenuItem.ChangeField | src/pages/flemmyng-menu/create-menu-item/CreateMenuItem.tsx:83-88 | a text change sets exactly the named field and keeps the others and both lists |
| CreateMenuItem.BuildPayload | src/pages/flemmyng-menu/create-menu-item/CreateMenuItem.tsx:110-129 | name and category always; description, allergens and options exactly when non-empty, options never for while-you-wait |
| CreateMenuItem.SubmitOutcome | src/pages/flemmyng-menu/create-menu-item/CreateMenuItem.tsx:102-157 | nothing when blocked; the "created" alert for a "success" status, the failure alert otherwise |
| CreateMenuItem.SentCreateReturnsToMenu | src/pages/flemmyng-menu/create-menu-item/CreateMenuItem.tsx:139-156 | every sent item ends on "/alert" with an alert linking back to the menu overview |
| CreateMenuItem.CreateMenuItemPage.constructor | src/pages/flemmyng-menu/create-menu-item/CreateMenuItem.tsx:37-53 | empty form, no error, no optional field shown |
| CreateMenuItem.CreateMenuItemPage.ConfigureVisibility | src/pages/flemmyng-menu/create-menu-item/CreateMenuItem.tsx:55-81 | raises exactly the flags of the category's table row and never lowers one |
| CreateMenuItem.CreateMenuItemPage.HandleChange | src/pages/flemmyng-menu/create-menu-item/CreateMenuItem.tsx:83-88 | the form becomes the text change of the old form |
| CreateMenuItem.CreateMenuItemPage.HandleCheckboxChange | src/pages/flemmyng-menu/create-menu-item/CreateMenuItem.tsx:90-100 | the form becomes the checkbox toggle of the old form |
| CreateMenuItem.CreateMenuItemPage.HandleSubmit | src/pages/flemmyng-menu/create-menu-item/CreateMenuItem.tsx:102-157 | shows the required-fields error and sends nothing without a name, price or category; otherwise sends the payload and applies the outcome |
| CreateMenuItem.CreateMenuItemPage.Cancel | src/pages/flemmyng-menu/create-menu-item/CreateMenuItem.tsx:159-161 | navigates to the menu overview |
| EditMenuItem.TextOrEmpty | src/pages/flemmyng-menu/edit-menu-item/EditMenuItem.tsx:66-72 | an absent text field becomes "" and a present one is kept |
| EditMenuItem.ListOrEmpty | src/pages/flemmyng-menu/edit-menu-item/EditMenuItem.tsx:70-71 | an absent list becomes empty and a present one is kept |
| EditMenuItem.Prefill | src/pages/flemmyng-menu/edit-menu-item/EditMenuItem.tsx:63-72 | the form starts with each loaded field, or empty where the record has none |
| EditMenuItem.LoadOutcome | src/pages/flemmyng-menu/edit-menu-item/EditMenuItem.tsx:63-106 | a loaded record has no effect; anything else shows the "Load Failed" alert |
| EditMenuItem.MissingPayloadIsAFailure | src/pages/flemmyng-menu/edit-menu-item/EditMenuItem.tsx:63-64 | a "success" answer without a payload still shows the "Load Failed" alert |
| EditMenuItem.BuildUpdate | src/pages/flemmyng-menu/edit-menu-item/EditMenuItem.tsx:141-158 | name and allergens always; description exactly when non-empty; options exactly when non-empty and not while-you-wait |
| EditMenuItem.UpdateDiffersFromCreateOnlyInAllergens | src/pages/flemmyng-menu/edit-menu-item/EditMenuItem.tsx:141-158 | an update carries the same name, description and options as a create of the same form; it always sends allergens, where a create leaves an empty list out |
| EditMenuItem.UntouchedSaveSendsRecordBack | src/pages/flemmyng-menu/edit-menu-item/EditMenuItem.tsx:63-72 | saving a fully loaded record untouched sends its own name, description, options and allergens back |
| EditMenuItem.UpdateOutcome | src/pages/flemmyng-menu/edit-menu-item/EditMenuItem.tsx:133-190 | nothing when blocked; the "updated" alert for a "success" status, the failure alert otherwise |
| EditMenuItem.EditMenuItemPage.constructor | src/pages/flemmyng-menu/edit-menu-item/EditMenuItem.tsx:37-53 | empty form, no error, loading, no optional field shown |
| EditMenuItem.EditMenuItemPage.FetchAndConfigure | src/pages/flemmyng-menu/edit-menu-item/EditMenuItem.tsx:55-112 | loads only with a category and an id; a loaded record pre-fills the form and raises the category's flags; a failure shows the load alert; loading ends |
| EditMenuItem.EditMenuItemPage.HandleChange | src/pages/flemmyng-menu/edit-menu-item/EditMenuItem.tsx:114-119 | the form becomes the text change of the old form |
| EditMenuItem.EditMenuItemPage.HandleCheckboxChange | src/pages/flemmyng-menu/edit-menu-item/EditMenuItem.tsx:121-131 | the form becomes the checkbox toggle of the old form |
| EditMenuItem.EditMenuItemPage.HandleSubmit | src/pages/flemmyng-menu/edit-menu-item/EditMenuItem.tsx:133-190 | shows the required-fields error and sends nothing without name, price, category or id; otherwise sends the update and applies the outcome |
| EditMenuItem.EditMenuItemPage.Cancel | src/pages/flemmyng-menu/edit-menu-item/EditMenuItem.tsx:192-194 | navigates to the menu overview |
| MenuItem.AllergenLine | src/pages/flemmyng-menu/short-menu-item/MenuItem.tsx:43-50 | no line without allergens; otherwise a line opening with "(" and closing with ")" |
| MenuItem.EmptyListShowsParentheses | src/pages/flemmyng-menu/short-menu-item/MenuItem.tsx:43-50 | an empty allergen list still shows "()", an absent one shows nothing |
| MenuItem.AllergenLineRoundTrip | src/pages/flemmyng-menu/short-menu-item/MenuItem.tsx:43 | splitting the text inside the parentheses at ", " gives back the allergen codes when none holds a comma |
| MenuItem.EmptyListLooksLikeOneEmptyCode | src/pages/flemmyng-menu/short-menu-item/MenuItem.tsx:43 | an empty list and a list of one empty code display the same |
| Bookings.ClockTime | src/pages/table-reservation-overview/view-bookings-by-date/ViewBookingsByDate.tsx:169-171 | the displayed time is at most five characters |
| Bookings.EditableTime | src/pages/table-reservation-overview/edit-blocked-time-slot/EditBlockedTimeSlot.tsx:132-138 | a four-character time gets a colon after its second character; any other length is shown as stored |
| Bookings.FourCharacterTimesDisplayAlike | src/pages/table-reservation-overview/edit-blocked-time-slot/EditBlockedTimeSlot.tsx:132-138 | for four-character times the list display and the edit field agree |
| Bookings.ClockTimeIgnoresTail | src/pages/table-reservation-overview/view-bookings-by-date/ViewBookingsByDate.tsx:169-171 | the display reads only the first four characters |
| Bookings.StripColonWithoutColon | src/pages/table-reservation-overview/create-booking/CreateBooking.tsx:49 | a time without a colon is sent as typed |
| Bookings.StripColonOfTypedTime | src/pages/table-reservation-overview/create-booking/CreateBooking.tsx:49 | an "HH:MM" time is sent as its four digits |
| Bookings.EditableTimeRoundTrip | src/pages/table-reservation-overview/edit-blocked-time-slot/EditBlockedTimeSlot.tsx:75 | a stored four-character time shown for editing and saved untouched is sent back unchanged |
| Bookings.TypedTimeIsDisplayedBack | src/pages/table-reservation-overview/create-booking/CreateBooking.tsx:49 | an "HH:MM" time sent to the server is displayed back as typed |
| Bookings.EditTarget | src/pages/table-reservation-overview/view-bookings-by-date/ViewBookingsByDate.tsx:82-92 | editing a blocked slot goes to the blocked-slot edit path, any other booking to the booking edit path, with its id |
| Bookings.DeleteTarget | src/pages/table-reservation-overview/view-bookings-by-date/ViewBookingsByDate.tsx:94-104 | deleting a blocked slot goes to the blocked-slot delete path, any other booking to the booking delete path, with its id |
| Bookings.TargetsTellBlockedSlotsApart | src/pages/table-reservation-overview/view-bookings-by-date/ViewBookingsByDate.tsx:29-104 | the target path starts with the blocked-slot prefix exactly for blocked slots, and always ends with the id |
| CreateBooking.ChangeField | src/pages/table-reservation-overview/create-booking/CreateBooking.tsx:25-30 | a change sets the named field and leaves every other field alone |
| CreateBooking.CompleteIffRequiredFilled | src/pages/table-reservation-overview/create-booking/CreateBooking.tsx:35-47 | a booking can be sent exactly when every required field is non-empty |
| CreateBooking.BuildPayload | src/pages/table-reservation-overview/create-booking/CreateBooking.tsx:49-66 | the fields as typed, the time without its colon, terms accepted, and occasion and requests only when non-empty |
| CreateBooking.SentTimeDisplaysAsTyped | src/pages/table-reservation-overview/create-booking/CreateBooking.tsx:49 | the four-digit time sent for an "HH:MM" entry is displayed back as that entry |
| CreateBooking.ReplyAlert | src/pages/table-reservation-overview/create-booking/CreateBooking.tsx:76-108 | the blocked-slot message takes precedence; then "created" for a "success" status; failure otherwise, and for a thrown error |
| CreateBooking.BlockedMessageOverridesStatus | src/pages/table-reservation-overview/create-booking/CreateBooking.tsx:76-86 | the blocked-slot message gives the blocked alert whatever the ok flag and status |
| CreateBooking.EveryOutcomeLinksToOverview | src/pages/table-reservation-overview/create-booking/CreateBooking.tsx:76-108 | every alert of this page links to the overview and carries no code |
| CreateBooking.SubmitOutcome | src/pages/table-reservation-overview/create-booking/CreateBooking.tsx:35-108 | nothing for an incomplete form; otherwise the alert for the reply and "/alert" |
| CreateBooking.CreateBookingPage.constructor | src/pages/table-reservation-overview/create-booking/CreateBooking.tsx:12-23 | empty form and no error |
| CreateBooking.CreateBookingPage.HandleChange | src/pages/table-reservation-overview/create-booking/CreateBooking.tsx:25-30 | the form becomes the change of the old form |
| CreateBooking.CreateBookingPage.HandleSubmit | src/pages/table-reservation-overview/create-booking/CreateBooking.tsx:32-109 | shows the required-fields error and sends nothing for an incomplete form; otherwise sends the payload and applies the outcome |
| CreateBooking.CreateBookingPage.Cancel | src/pages/table-reservation-overview/create-booking/CreateBooking.tsx:111-113 | navigates to the overview |
| CreateBlockedTimeSlot.ChangeField | src/pages/table-reservation-overview/create-blocked-time-slot/CreateBlockedTimeSlot.tsx:17-20 | a change sets the date or the time and keeps the other |
| CreateBlockedTimeSlot.Body | src/pages/table-reservation-overview/create-blocked-time-slot/CreateBlockedTimeSlot.tsx:33-45 | the date as typed; a colon-free time as typed; otherwise the time with its first colon taken out and nothing else changed, so exactly one character shorter |
| CreateBlockedTimeSlot.SubmitAlert | src/pages/table-reservation-overview/create-blocked-time-slot/CreateBlockedTimeSlot.tsx:22-69 | the missing-fields alert for an empty date or time; otherwise the blocked alert exactly for an ok answer, the failure alert otherwise |
| CreateBlockedTimeSlot.OnlyTheOkFlagMatters | src/pages/table-reservation-overview/create-blocked-time-slot/CreateBlockedTimeSlot.tsx:52-60 | the alert depends on the ok flag only, not on the answer's status or message |
| CreateBlockedTimeSlot.EverySubmitEndsAtAlert | src/pages/table-reservation-overview/create-blocked-time-slot/CreateBlockedTimeSlot.tsx:22-69 | every submit ends on "/alert" with an alert linking to the overview |
| CreateBlockedTimeSlot.CreateBlockedTimeSlotPage.constructor | src/pages/table-reservation-overview/create-blocked-time-slot/CreateBlockedTimeSlot.tsx:12-15 | empty date and time |
| CreateBlockedTimeSlot.CreateBlockedTimeSlotPage.HandleChange | src/pages/table-reservation-overview/create-blocked-time-slot/CreateBlockedTimeSlot.tsx:17-20 | the form becomes the change of the old form |
| CreateBlockedTimeSlot.CreateBlockedTimeSlotPage.HandleSubmit | src/pages/table-reservation-overview/create-blocked-time-slot/CreateBlockedTimeSlot.tsx:22-69 | sends the body only for a complete form, and always applies the submit alert |
| CreateBlockedTimeSlot.CreateBlockedTimeSlotPage.Cancel | src/pages/table-reservation-overview/create-blocked-time-slot/CreateBlockedTimeSlot.tsx:71-73 | navigates to the overview |
| EditBlockedTimeSlot.ChangeSlot | src/pages/table-reservation-overview/edit-blocked-time-slot/EditBlockedTimeSlot.tsx:57-60 | before loading a change does nothing; after, it sets the date or the time and keeps the id |
| EditBlockedTimeSlot.ShownDate | src/pages/table-reservation-overview/edit-blocked-time-slot/EditBlockedTimeSlot.tsx:125 | the date field shows at most the first ten characters of the stored date |
| EditBlockedTimeSlot.Body | src/pages/table-reservation-overview/edit-blocked-time-slot/EditBlockedTimeSlot.tsx:70-77 | the id and date as held; a colon-free time as held; otherwise the time with its first colon taken out and nothing else changed |
| EditBlockedTimeSlot.ShownTimeSavesBack | src/pages/table-reservation-overview/edit-blocked-time-slot/EditBlockedTimeSlot.tsx:70-77 | entering the displayed time for a four-digit slot and saving sends the slot back unchanged |
| EditBlockedTimeSlot.LoadOutcome | src/pages/table-reservation-overview/edit-blocked-time-slot/EditBlockedTimeSlot.tsx:23-55 | a "success" answer has no effect; another answer gives the 404 alert; a thrown error gives the loading alert |
| EditBlockedTimeSlot.UpdateOutcome | src/pages/table-reservation-overview/edit-blocked-time-slot/EditBlockedTimeSlot.tsx:62-109 | "success" gives the updated alert; another answer the 502 alert; a thrown error the unexpected-failure alert |
| EditBlockedTimeSlot.EverySaveEndsAtAlert | src/pages/table-reservation-overview/edit-blocked-time-slot/EditBlockedTimeSlot.tsx:62-109 | every save ends on "/alert", and the alert carries a code exactly for an answered failure |
| EditBlockedTimeSlot.EditBlockedTimeSlotPage.constructor | src/pages/table-reservation-overview/edit-blocked-time-slot/EditBlockedTimeSlot.tsx:18-20 | no slot loaded |
| EditBlockedTimeSlot.EditBlockedTimeSlotPage.FetchBlockedSlot | src/pages/table-reservation-overview/edit-blocked-time-slot/EditBlockedTimeSlot.tsx:22-55 | a "success" answer stores its payload; the load outcome is applied |
| EditBlockedTimeSlot.EditBlockedTimeSlotPage.HandleChange | src/pages/table-reservation-overview/edit-blocked-time-slot/EditBlockedTimeSlot.tsx:57-60 | the slot becomes the change of the old slot |
| EditBlockedTimeSlot.EditBlockedTimeSlotPage.HandleSubmit | src/pages/table-reservation-overview/edit-blocked-time-slot/EditBlockedTimeSlot.tsx:62-109 | sends the body of the held slot and applies the update outcome |
| EditBlockedTimeSlot.EditBlockedTimeSlotPage.HandleCancel | src/pages/table-reservation-overview/edit-blocked-time-slot/EditBlockedTimeSlot.tsx:111-113 | navigates to the overview |
| DeleteBlockedTimeSlot.ReasonLine | src/pages/table-reservation-overview/delete-blocked-time-slot/DeleteBlockedTimeSlot.tsx:115-119 | the reason line is shown exactly for a truthy reason, and shows that reason |
| DeleteBlockedTimeSlot.LoadOutcome | src/pages/table-reservation-overview/delete-blocked-time-slot/DeleteBlockedTimeSlot.tsx:24-53 | a "success" answer has no effect; another answer gives the not-found alert; a thrown error gives the loading alert |
| DeleteBlockedTimeSlot.LoadFailuresLinkNowhere | src/pages/table-reservation-overview/delete-blocked-time-slot/DeleteBlockedTimeSlot.tsx:32-51 | both load-failure alerts link to a path that no route declares |
| DeleteBlockedTimeSlot.DeleteOutcome | src/pages/table-reservation-overview/delete-blocked-time-slot/DeleteBlockedTimeSlot.tsx:58-94 | "success" gives the deleted alert; another answer the 502 alert; a thrown error the deletion-error alert |
| DeleteBlockedTimeSlot.DeleteAlertsLinkToOverview | src/pages/table-reservation-overview/delete-blocked-time-slot/DeleteBlockedTimeSlot.tsx:58-94 | every deletion ends on "/alert" with an alert linking to the overview |
| DeleteBlockedTimeSlot.DeleteBlockedTimeSlotPage.constructor | src/pages/table-reservation-overview/delete-blocked-time-slot/DeleteBlockedTimeSlot.tsx:19-21 | no slot loaded |
| DeleteBlockedTimeSlot.DeleteBlockedTimeSlotPage.FetchSlot | src/pages/table-reservation-overview/delete-blocked-time-slot/DeleteBlockedTimeSlot.tsx:23-56 | a "success" answer stores its payload; the load outcome is applied |
| DeleteBlockedTimeSlot.DeleteBlockedTimeSlotPage.HandleDelete | src/pages/table-reservation-overview/delete-blocked-time-slot/DeleteBlockedTimeSlot.tsx:58-94 | applies the deletion outcome |
| DeleteBlockedTimeSlot.DeleteBlockedTimeSlotPage.HandleCancel | src/pages/table-reservation-overview/delete-blocked-time-slot/DeleteBlockedTimeSlot.tsx:96-98 | navigates to the overview |
| ViewBookingsByDate.IdLine | src/pages/table-reservation-overview/view-bookings-by-date/ViewBookingsByDate.tsx:150-160 | the id line is hidden exactly for blocked slots and otherwise shows the id |
| ViewBookingsByDate.SearchOutcome | src/pages/table-reservation-overview/view-bookings-by-date/ViewBookingsByDate.tsx:55-79 | an ok answer has no effect; any failure gives the fetch alert |
| ViewBookingsByDate.StatusIsIgnored | src/pages/table-reservation-overview/view-bookings-by-date/ViewBookingsByDate.tsx:64-70 | an ok answer is accepted whatever its status and message |
| ViewBookingsByDate.ViewBookingsByDatePage.constructor | src/pages/table-reservation-overview/view-bookings-by-date/ViewBookingsByDate.tsx:24-27 | no date, no bookings, no error |
| ViewBookingsByDate.ViewBookingsByDatePage.SetSelectedDate | src/pages/table-reservation-overview/view-bookings-by-date/ViewBookingsByDate.tsx:120-125 | the date input sets the selected date |
| ViewBookingsByDate.ViewBookingsByDatePage.FetchBookings | src/pages/table-reservation-overview/view-bookings-by-date/ViewBookingsByDate.tsx:47-80 | searches exactly when a date is selected; clears the list first and keeps an ok answer's bookings; the list is missing exactly when an ok answer had none; otherwise shows the no-date error |
| ViewBookingsByDate.ViewBookingsByDatePage.Edit | src/pages/table-reservation-overview/view-bookings-by-date/ViewBookingsByDate.tsx:82-92 | navigates to the edit target of the booking |
| ViewBookingsByDate.ViewBookingsByDatePage.Delete | src/pages/table-reservation-overview/view-bookings-by-date/ViewBookingsByDate.tsx:94-104 | navigates to the delete target of the booking |
| ViewBookingsByDate.ViewBookingsByDatePage.Cancel | src/pages/table-reservation-overview/view-bookings-by-date/ViewBookingsByDate.tsx:106-108 | navigates to the overview |
| SearchBookingsByName.Query | src/pages/table-reservation-overview/search-bookings-by-name/SearchBookingsByName.tsx:47-56 | the query carries a name exactly when it is non-empty, as typed |
| SearchBookingsByName.SentQueryIsNeverEmpty | src/pages/table-reservation-overview/search-bookings-by-name/SearchBookingsByName.tsx:42-56 | a query that is sent always names someone |
| SearchBookingsByName.SearchOutcome | src/pages/table-reservation-overview/search-bookings-by-name/SearchBookingsByName.tsx:60-82 | "success" has no effect; another answer gives the 404 alert; a thrown error gives the fetch alert |
| SearchBookingsByName.SearchBookingsByNamePage.constructor | src/pages/table-reservation-overview/search-bookings-by-name/SearchBookingsByName.tsx:24-28 | empty names, no bookings, no error |
| SearchBookingsByName.SearchBookingsByNamePage.SetFirstName | src/pages/table-reservation-overview/search-bookings-by-name/SearchBookingsByName.tsx:98-104 | the input sets the first name |
| SearchBookingsByName.SearchBookingsByNamePage.SetLastName | src/pages/table-reservation-overview/search-bookings-by-name/SearchBookingsByName.tsx:105-111 | the input sets the last name |
| SearchBookingsByName.SearchBookingsByNamePage.FetchBookings | src/pages/table-reservation-overview/search-bookings-by-name/SearchBookingsByName.tsx:38-83 | searches exactly when some name is given; clears the list and keeps a "success" answer's bookings; the list is missing exactly when such an answer had none; otherwise shows the no-name error |
| SearchBookingsByName.SearchBookingsByNamePage.Edit | src/pages/table-reservation-overview/search-bookings-by-name/SearchBookingsByName.tsx:30-32 | navigates to the booking edit path of the id |
| SearchBookingsByName.SearchBookingsByNamePage.Delete | src/pages/table-reservation-overview/search-bookings-by-name/SearchBookingsByName.tsx:34-36 | navigates to the booking delete path of the id |
| SearchBookingsByName.SearchBookingsByNamePage.Cancel | src/pages/table-reservation-overview/search-bookings-by-name/SearchBookingsByName.tsx:85-87 | navigates to the overview |
| SearchBookingsByEmail.SearchOutcome | src/pages/table-reservation-overview/search-bookings-by-email/SearchBookingsByEmail.tsx:54-76 | "success" has no effect; another answer gives the 404 alert; a thrown error gives the fetch alert |
| SearchBookingsByEmail.OnlyServerFailuresCarryACode | src/pages/table-reservation-overview/search-bookings-by-email/SearchBookingsByEmail.tsx:54-76 | a failed search carries a code exactly when the server answered, and links to the overview |
| SearchBookingsByEmail.SearchBookingsByEmailPage.constructor | src/pages/table-reservation-overview/search-bookings-by-email/SearchBookingsByEmail.tsx:23-26 | empty e-mail, no bookings, no error |
| SearchBookingsByEmail.SearchBookingsByEmailPage.SetEmail | src/pages/table-reservation-overview/search-bookings-by-email/SearchBookingsByEmail.tsx:92-98 | the input sets the e-mail |
| SearchBookingsByEmail.SearchBookingsByEmailPage.FetchBookings | src/pages/table-reservation-overview/search-bookings-by-email/SearchBookingsByEmail.tsx:36-77 | searches exactly for a non-empty e-mail; clears the list and keeps a "success" answer's bookings; the list is missing exactly when such an answer had none; otherwise shows the no-e-mail error |
| SearchBookingsByEmail.SearchBookingsByEmailPage.Edit | src/pages/table-reservation-overview/search-bookings-by-email/SearchBookingsByEmail.tsx:28-30 | navigates to the booking edit path of the id |
| SearchBookingsByEmail.SearchBookingsByEmailPage.Delete | src/pages/table-reservation-overview/search-bookings-by-email/SearchBookingsByEmail.tsx:32-34 | navigates to the booking delete path of the id |
| SearchBookingsByEmail.SearchBookingsByEmailPage.Cancel | src/pages/table-reservation-overview/search-bookings-by-email/SearchBookingsByEmail.tsx:79-81 | navigates to the overview |
| SearchBookingsById.RequestPath | src/pages/table-reservation-overview/search-bookings-by-id/SearchBookingsById.tsx:46-48 | the request path is "/table/" followed by the id |
| SearchBookingsById.RequestPathIsInjective | src/pages/table-reservation-overview/search-bookings-by-id/SearchBookingsById.tsx:46-48 | different ids never share a request path |
| SearchBookingsById.SearchOutcome | src/pages/table-reservation-overview/search-bookings-by-id/SearchBookingsById.tsx:49-71 | "success" has no effect; another answer gives the 404 alert; a thrown error gives the fetch alert |
| SearchBookingsById.SearchBookingsByIdPage.constructor | src/pages/table-reservation-overview/search-bookings-by-id/SearchBookingsById.tsx:23-27 | empty id, no booking, no error |
| SearchBookingsById.SearchBookingsByIdPage.SetBookingId | src/pages/table-reservation-overview/search-bookings-by-id/SearchBookingsById.tsx:88-94 | the input sets the booking id |
| SearchBookingsById.SearchBookingsByIdPage.FetchBooking | src/pages/table-reservation-overview/search-bookings-by-id/SearchBookingsById.tsx:37-72 | fetches exactly for a non-empty id; keeps a "success" answer's booking, clearing it otherwise; shows the no-id error when empty |
| SearchBookingsById.SearchBookingsByIdPage.Edit | src/pages/table-reservation-overview/search-bookings-by-id/SearchBookingsById.tsx:29-31 | navigates to the booking edit path of the id |
| SearchBookingsById.SearchBookingsByIdPage.Delete | src/pages/table-reservation-overview/search-bookings-by-id/SearchBookingsById.tsx:33-35 | navigates to the booking delete path of the id |
| SearchBookingsById.SearchBookingsByIdPage.Cancel | src/pages/table-reservation-overview/search-bookings-by-id/SearchBookingsById.tsx:74-76 | navigates to the overview |

## Left out

- The HTTP requests themselves, JSON parsing and the server. A reply is a parameter of each handler. The request a handler would send is returned instead of sent. Headers, methods and base URL are not modelled, except the booking-by-id request path.
- Rendering, CSS, the loader, `console.log`, and form events (`preventDefault`). The `Alert`, `Home`, `Unauthorized`, overview and `ButtonStandard` components are not part of this model. Neither is the development menu fixture.
- `setTimeout`. The password-reset page's delayed redirect to `/log-in` is not modelled: it waits for a success message that no handler ever sets.
- Prices and numbers. `parseFloat(...).toFixed(2)`, `Number(numberOfGuests)`, `price.toString()` and the "£" display are left out. Prices and the guest count are kept as the text typed.
- Dates. `toISOString`, `toLocaleDateString`, and the exception an invalid date raises outside the `try` are left out. Dates are kept as text.
- Unicode. `toLowerCase` is modelled on ASCII letters only; the filter buttons compare against lower-case ASCII role names. `trim` removes the ECMAScript white space and line terminator characters listed in `Js.IsSpace`.
- The cookie jar. Only the `auth_token` cookie is modelled (`Cookies.CookieAfter`): an assignment whose stored pair holds an '=' replaces it, and one whose pair holds no '=', such as `""`, leaves the earlier cookie in place. The pages never assign a non-empty pair without '=', so the later drafts' nameless cookies do not arise. Expiry (`max-age`), `path`, `Secure`, `SameSite` and other cookies are not modelled.
- `EditBooking`, `DeleteBooking`, `PruneAllBookings`, `DeleteMenuItem`, `FlemmyngMenu` and `TableReservationOverview` are not part of this model.
- App.Resolve: compares path segments case-sensitively and treats a trailing slash as one more, empty, segment; React Router matches case-insensitively and ignores a trailing slash, so for such paths `Resolve` finds no page where the router would.
- React Router's ranking of routes is not modelled. `App.Resolve` returns every page whose pattern matches, and the route table has no overlapping patterns. Resolution of the booking edit and delete paths is not proved.
- Input handlers of LogIn, SignUp, EditUserPassword, ForgotPasswordSendEmail and ForgotPasswordChangePassword. Their `onChange` setters (`setEmail`, `setPassword`, the sign-up `handleChange`, the password and e-mail setters) are plain field assignments. The handlers read the fields directly.
- Select elements. The DOM value of the role select is a parameter of `EditEmployeeAccessLevel.EditEmployeeAccessLevelPage.HandleSubmit`; the user details inputs are a parameter of `EditUserDetails.EditUserDetailsPage.HandleSubmit`.
- A list of employees or bookings that is present but not an array, and a record `payload` that is present but not an object, are not modelled. An absent one is: the employee list raises the format alert (`ViewEmployeeAccessLevels.MissingArrayIsAFailure`); an absent record leaves the record unset, so the page keeps its loader or hides its card and form; an absent booking list is held as `None`, on which the results list fails at `bookings.length`.
- A request URL built from an undefined route parameter is not modelled. The pages that check the parameter model the check.
- EditBlockedTimeSlot.EditBlockedTimeSlotPage.HandleSubmit: requires a loaded slot, because the form with the save button is rendered only once the slot is loaded.
- ViewEmployeeAccessLevels.ViewEmployeeAccessLevelsPage.Edit: takes the position of a shown card rather than a click, so it requires that position to exist; the same holds for `Delete`.
