# Hunt360 email-OTP authentication, modelled in Dafny

This project models the authentication core of Hunt360, a recruitment-platform web app:

- **The API server** (`server/index.js`). Its state is an in-memory `users` list, seeded with one administrator, and an `otpStore` map keyed by email. Six route handlers change that state:
  - signup-init stages a registration behind a six-digit code;
  - signup-verify promotes it into a user;
  - login checks the password and sends a code;
  - login-verify spends that code and issues a session;
  - forgot-password stores a reset code;
  - reset-password spends the reset code and replaces the password hash.
- **The login/signup view** (`client/src/pages/Auth.jsx`). It is a two-step form (details, then code) in one of two modes, with a local password check.
- **The set-new-password view** (`client/src/pages/ResetPassword.jsx`). It shows a live five-item checklist and guards submission on it.
- **The placeholder page heading** (`client/src/pages/GenericPage.jsx`). It derives a title from the URL path.

The client and the server are modelled separately. No proof runs across them.

## Layout

| file | module | what |
|---|---|---|
| `wrappers.dfy` | `Wrappers` | `Option`, standing for JavaScript's `undefined` |
| `js_string.dfy` | `JsString` | `split` on one character and `join`, proved inverse to each other, and `length` in UTF-16 units |
| `password_policy.dfy` | `PasswordPolicy` | the strength regex, shared by server and signup form, and its plain-words characterisation |
| `password_hash.dfy` | `PasswordHash` | bcrypt's key: the UTF-8 bytes of the password and a NUL, of which 72 are read |
| `otp_code.dfy` | `OtpCode` | the decimal rendering of the random draw: six digits, read back as the draw |
| `auth_server.dfy` | `AuthServer` | records, lookups and the class `Server`, with one method per route and the invariant `Valid()` |
| `auth_scenarios.dfy` | `AuthScenarios` | request sequences against a fresh server, proved from the route contracts |
| `api_outcome.dfy` | `ApiOutcome` | the abstract result of an `axios.post`, and the server-message-or-fallback error text |
| `auth_page.dfy` | `AuthPage` | the class `AuthView`: mode, step, form, error, busy flag, and the requests it posts |
| `reset_password_page.dfy` | `ResetPasswordPage` | the checklist, and the class `ResetView` |
| `generic_page.dfy` | `GenericPage` | the title pipeline: split, filter, capitalise, join, replace |

## How the model is built

- **Server state.** It lives in a class with a `seq<User>` field and a `map<string, OtpRecord>` field.
  - Each handler is a method that runs to completion. Its `ensures` states the response and the whole new state for every branch.
  - `Valid()` is kept by every handler. It says five things:
    - ids are positions plus one;
    - emails are unique;
    - stored codes are six digits;
    - a staged signup sits under its own email, and that email is not registered;
    - a reset code sits under a registered email.
- **What the code does is what is modelled**, even where one might expect otherwise:
  - `expires` is written and never read, so verification does not depend on time.
  - There is no attempt counter, no lockout and no reset-token store.
  - signup-verify and login-verify ignore the record's `type`. A login code sent to signup-verify appends a user record holding only its `id` (`AuthScenarios.LoginCodeAcceptedBySignup`).
  - login-verify deletes the code before it reads `user.fullName`. A signup code sent to login-verify is therefore spent, and the handler then throws (`AuthScenarios.SignupCodeLostToLoginVerify`).
- **A user record** is `User(id, profile: Option<Profile>)`. The profile is absent exactly when the record was promoted from a code that carried no `tempData`.
- **A throwing handler** answers `Response(500, InternalError)`. That is the framework's default reply to a synchronous throw.
- **Inputs from outside.** The random draw of `generateOTP` is a parameter `code` with 100000 ≤ code ≤ 999999. The clock is a parameter `now`.
- **Client views.** They are classes whose methods update the same state variables the components hold.
  - The answer to each request is an `Outcome` parameter.
  - Requests are appended to a `sent` field instead of being sent.
  - `localStorage`, `navigate` and the delayed redirect are recorded as fields.

## Where the code and its descriptions differ

The model follows the code in each case.

- **Reset view without a route token.** The handler throws `new Error("Invalid reset session.")`, and its own `catch` shows `err.response?.data?.message || 'Failed to reset password.'`. A plain `Error` has no `response`, so the banner reads "Failed to reset password.", not "Invalid reset session." (`ResetPasswordPage.ResetView.HandleSubmit`, `ResetPasswordPage.MissingTokenPostsNothing`).
- **Placeholder page title.** The comment at client/src/pages/GenericPage.jsx:7 promises "Job Search" for `/dashboard/jobs/search`. The code yields "   Jobs   Search". The leading empty segment adds a separator, and each " - " separator becomes three spaces (`GenericPage.JobsSearchExample`).
- **reset-password's "User not found" branch** (server/index.js:187) can never be taken. A reset code is only stored under a registered email, and users are never removed or re-keyed. `ResetPassword` proves `resp.status != 404`.
- **A reset code opens a session.** The comment at server/index.js:170 says the `type: 'reset'` mark keeps a reset code for password reset alone. Only reset-password reads the mark. login-verify (server/index.js:150-158) accepts the reset code and issues a session without any password being checked, and signup-verify (server/index.js:111-118) accepts it too (`AuthScenarios.ResetCodeOpensSession`).
- **Codes do not expire.** The mail says "This code expires in 5 minutes." (server/index.js:60), and every record gets an `expires` time, but no handler compares it with the clock. A code stays valid until it is used or replaced.
- **No attempt limit and no reset links.** No handler counts failed logins or wrong codes. The reset view's "Link flow" (client/src/pages/ResetPassword.jsx:47) posts a `token` that the server never issues or reads.
- **Request shapes do not match.** The views post `{email, password}` to login, which reads `identifier`. They post `username` to signup-init, which reads `fullName`. The reset view posts `{token, newPassword}` to reset-password, which reads `email` and `otp`. The client requests are modelled as the views send them (`AuthPage.ApiRequest`, `ResetPasswordPage.ResetRequest`).

## Model

| member | source | states |
|---|---|---|
| `PasswordPolicy.RegexTestIsStrong` | server/index.js:81 | the regex (lookaheads that stop at line terminators, then eight or more class characters to the end) accepts a string exactly when it has ≥ 8 characters, all from `[A-Za-z0-9@$!%*?&]`, with a lower-case letter, an upper-case letter, a digit and one of `@$!%*?&` |
| `PasswordPolicy.LookaheadOnBody` | server/index.js:190 | on a string made of class characters only, each `(?=.*[x])` holds exactly when the string contains an `x` |
| `PasswordPolicy.AcceptsExample` | server/index.js:81 | "Abcdef1!" is accepted |
| `PasswordPolicy.RefusesExamples` | server/index.js:190 | "abcdefgh", "Ab1!" and "Abcdef1#" are refused |
| `OtpCode.GenerateOtp` | server/index.js:42 | a generated code is six decimal digits, has no leading zero and reads back as the draw |
| `OtpCode.ParseDecimalString` | server/index.js:42 | reading `n.toString()` back gives `n` |
| `OtpCode.DecimalLength` | server/index.js:42 | a number between 10^(k-1) and 10^k renders as exactly k digits, the first not '0' |
| `OtpCode.GenerateOtpInjective` | server/index.js:42 | different draws give different codes |
| `PasswordHash.CompareHash` | server/index.js:136 | for passwords of one-byte characters without NUL, a password matches another's hash exactly when the two are equal or, both being 72 characters or longer, share their first 72 |
| `PasswordHash.CompareReadsKeyPrefix` | server/index.js:136 | for any two passwords whose UTF-8 encodings are 72 bytes or longer and agree on the first 72, each matches the other's hash |
| `PasswordHash.Utf8Char` | server/index.js:95 | a character encodes as 1 to 4 bytes, as one byte exactly when it is below U+0080, and only NUL encodes to a zero byte |
| `AuthServer.AdminPasswordIsStrong` | server/index.js:17-29 | the seeded administrator's stored hash matches "Password@123", which itself passes the strength regex |
| `AuthServer.FindIndex` | server/index.js:186 | `findIndex` returns the first index whose element satisfies the test, or none when no element does |
| `AuthServer.FindByEmail` | server/index.js:77 | the email lookup finds a user holding that email, and finds none exactly when the email is not registered |
| `AuthServer.FindByIdentifier` | server/index.js:130-134 | login's lookup returns the first user whose email, username or full name equals the identifier, or none when no user matches |
| `AuthServer.FirstWord` | server/index.js:93 | the staged username is the prefix of the full name up to, and not including, its first space (all of it when there is none) |
| `AuthServer.Server.constructor` | server/index.js:17-31 | a fresh server holds the administrator alone and no codes, and satisfies the invariant |
| `AuthServer.Server.SignupInit` | server/index.js:73-104 | users never change. A registered email gets 400 with no change, and this check comes before the strength check. A weak password gets 400 with no change. Otherwise the entry for the email is overwritten with the code, the staged profile and `now + 300000`, and the reply is 200 |
| `AuthServer.Server.SignupVerify` | server/index.js:107-123 | a missing record or a wrong code gets 400 with no change. A matching code, of any type, appends exactly one user, whose id is the number of users plus one, and the staged fields (none if the record staged none), deletes the entry, and returns a session for the email |
| `AuthServer.Server.Login` | server/index.js:126-145 | users never change. An unknown identifier or a wrong password gets 400 with no change. Otherwise the entry under the found user's email is overwritten with an untyped code, and the reply names that email |
| `AuthServer.Server.LoginVerify` | server/index.js:148-160 | a missing record or a wrong code gets 400 with no change. A matching code, of any type, is deleted. The reply is then a session for the registered user, or 500 when no user holds the email |
| `AuthServer.Server.ForgotPassword` | server/index.js:163-175 | an unregistered email gets 404 with no change. Otherwise the entry is overwritten with a code typed 'reset', and the reply is 200 |
| `AuthServer.Server.ResetPassword` | server/index.js:178-200 | a missing record, a wrong code or a type other than 'reset' gets 400 with no change. A weak password gets 400 without spending the code. Otherwise only that user's password hash is replaced and the entry is deleted. The reply is never 404 |
| `AuthScenarios.SignupCodeIsSingleUse` | server/index.js:77-119 | for any new email and strong password: init succeeds, a wrong code is refused, the right code registers exactly one user, replaying the code is refused, and signing up the email again is refused |
| `AuthScenarios.LoginCodeIsSingleUse` | server/index.js:130-159 | a guess of one-byte characters other than "Password@123" is refused; the administrator's login by username sends a code to the administrator's email; the code opens one session and is refused on replay |
| `AuthScenarios.ResetReplacesPassword` | server/index.js:165-197 | a weak new password is refused without spending the code; a strong one is accepted once and refused on replay; then the new password logs in and the old one does not |
| `AuthScenarios.LoginCodeAcceptedBySignup` | server/index.js:111-118 | reset-password refuses a login code, but signup-verify accepts it and appends a user record holding only id 2 |
| `AuthScenarios.ResetCodeOpensSession` | server/index.js:148-175 | the code forgot-password stores opens a session for the administrator at login-verify, with no password given, and is then spent for reset-password |
| `AuthScenarios.LongPasswordMatchesOnPrefix` | server/index.js:88-144 | after signing up with a strong password of 72 characters or more, any one-byte password sharing its first 72 characters logs in |
| `AuthScenarios.SignupCodeLostToLoginVerify` | server/index.js:150-158 | login-verify spends a signup code and then fails with 500; the staged registration can no longer be completed, and no user is added |
| `JsString.JoinSplit` | client/src/pages/GenericPage.jsx:8 | joining the parts of `s.split(sep)` with `sep` gives `s` back |
| `JsString.SplitJoin` | client/src/pages/GenericPage.jsx:8 | splitting a join of separator-free parts gives the parts back |
| `JsString.Utf16Length` | client/src/pages/ResetPassword.jsx:24 | `length` counts at least one and at most two units per character, and equals the number of characters exactly when none is above U+FFFF |
| `ApiOutcome.ErrorText` | client/src/pages/Auth.jsx:78 | the server's message is shown when it is present and non-empty, otherwise the fallback; with a non-empty fallback the text is never empty |
| `AuthPage.ValidatePassword` | client/src/pages/Auth.jsx:23-26 | the view's check accepts exactly the passwords the server's regex accepts |
| `AuthPage.AuthView.constructor` | client/src/pages/Auth.jsx:7-20 | the view starts in login mode at step 1, with an empty form, no error and not busy |
| `AuthPage.AuthView.EditField` | client/src/pages/Auth.jsx:120-182 | typing into an input changes that one form field and nothing else |
| `AuthPage.AuthView.HandleSubmit` | client/src/pages/Auth.jsx:28-82 | mode and form never change, and the busy flag ends cleared. A weak signup password at step 1 sets the requirements message, posts nothing and stays at step 1. Otherwise the request for the mode and step is posted. On failure it shows the server message or the fallback and keeps the step. On success step 1 moves to 2, and step 2 stores token and user and navigates to /dashboard |
| `AuthPage.AuthView.ToggleMode` | client/src/pages/Auth.jsx:84-89 | the mode flips, the step returns to 1, the error clears, all four fields empty, and nothing else changes |
| `AuthPage.LoginThenVerify` | client/src/pages/Auth.jsx:34-51 | a login run posts `{email, password}`, then `{email, otp}`, and ends at the dashboard with the session stored |
| `AuthPage.WeakSignupPostsNothing` | client/src/pages/Auth.jsx:54-59 | in signup mode a password the local check refuses posts nothing, stays at step 1, shows the requirements message and is not busy |
| `ResetPasswordPage.ServerSymbolIsListed` | client/src/pages/ResetPassword.jsx:28 | every symbol of the server's class is in the checklist's special class |
| `ResetPasswordPage.ServerStrongMeetsChecklist` | client/src/pages/ResetPassword.jsx:23-28 | every password the server's regex accepts meets all five checklist items |
| `ResetPasswordPage.ChecklistAdmitsServerRejected` | client/src/pages/ResetPassword.jsx:28 | "Abcdef1#" meets all five items and the server refuses it, so the converse fails |
| `ResetPasswordPage.SurrogatePairsCountTwice` | client/src/pages/ResetPassword.jsx:24 | "Aa1!" followed by two U+1F600 characters has six characters, yet meets the length item and the whole checklist |
| `ResetPasswordPage.ResetView.constructor` | client/src/pages/ResetPassword.jsx:7-19 | the view starts with an empty password, every item unmet, no message, no error and not busy |
| `ResetPasswordPage.ResetView.HandlePasswordChange` | client/src/pages/ResetPassword.jsx:21-30 | the password and the checklist are recomputed from the new value alone, so the checklist always describes the typed password |
| `ResetPasswordPage.ResetView.HandleSubmit` | client/src/pages/ResetPassword.jsx:32-63 | an unmet item sets the requirements error and posts nothing. No token sets the fallback error and posts nothing. Otherwise `{token, newPassword}` is posted: success sets the message (hiding the form) and schedules the redirect, and failure shows the server message or the fallback. Busy always ends cleared |
| `ResetPasswordPage.MissingTokenPostsNothing` | client/src/pages/ResetPassword.jsx:48-59 | without a token, even a password meeting the checklist posts nothing and shows "Failed to reset password." |
| `GenericPage.DropDashboard` | client/src/pages/GenericPage.jsx:8 | no kept segment is "dashboard", and each kept segment comes from the path |
| `GenericPage.DropDashboardAppend` | client/src/pages/GenericPage.jsx:8 | filtering keeps order: filtering `a + b` is filtering `a`, then `b` |
| `GenericPage.DropDashboardKeeps` | client/src/pages/GenericPage.jsx:8 | every segment other than "dashboard" is kept |
| `GenericPage.Capitalize` | client/src/pages/GenericPage.jsx:9 | the first character is upper-cased and the rest are unchanged; the length is kept, so an empty segment stays empty |
| `GenericPage.ReplaceDashes` | client/src/pages/GenericPage.jsx:9 | every '-' becomes a space and every other character is kept |
| `GenericPage.Title` | client/src/pages/GenericPage.jsx:8-9 | the title contains no '-' |
| `GenericPage.ReplaceDashesJoin` | client/src/pages/GenericPage.jsx:9 | replacing dashes after joining with " - " equals joining the replaced segments with three spaces |
| `GenericPage.TitleJoinsWithThreeSpaces` | client/src/pages/GenericPage.jsx:8-9 | the title is the kept, capitalised, dash-free segments joined by three spaces |
| `GenericPage.JobsSearchExample` | client/src/pages/GenericPage.jsx:7-9 | "/dashboard/jobs/search" gives "   Jobs   Search" |
| `GenericPage.DisplayedTitle` | client/src/pages/GenericPage.jsx:16 | the shown heading is never empty: the title, or 'Page' when the title is empty |
| `GenericPage.DashboardShowsPage` | client/src/pages/GenericPage.jsx:16 | "/dashboard" yields an empty title, and 'Page' is shown |

## Left out

- bcrypt (server/index.js:4, :25, :95, :136, :196) is a foreign library. What decides a match is modelled: the UTF-8 bytes of the password and a NUL, of which the key schedule reads 72, cyclically. A digest stands for the password it was made from. Salt, cost factor, timing and collisions of the hash function itself are not modelled.
- PasswordHash.CompareHash: matching is characterised only for passwords of one-byte characters without NUL. Every strong password is such a password, and so is the administrator's. For other text only the 72-byte rule (`PasswordHash.CompareReadsKeyPrefix`) is proved; that distinct shorter strings have distinct UTF-8 encodings is not.
- `jwt.sign` (server/index.js:121, :158) is modelled only as the signed claims (`Claims`). The signature, the secret and the 7-day expiry belong to a foreign library.
- The random draw in `generateOTP` (server/index.js:42) is floating-point arithmetic. The draw is a parameter in [100000, 999999]; only `toString` is modelled.
- E-mail delivery (`sendEmail`, nodemailer), console logging, dotenv, CORS and JSON middleware, and `app.listen` are I/O and are not modelled. Sending never affects a handler's state or reply.
- Concurrency: each handler runs atomically, with no interleaving at its `await`s. On the client, the busy flag's `true` value during the request is not observable in the model, because the request is atomic.
- Malformed request bodies are not modelled. Every request field is a string. Three consequences:
  - the TypeError on a missing `fullName` (server/index.js:93) is not represented;
  - a missing phone part is not represented; JavaScript would render it as "undefined" inside `fullPhone`;
  - a non-string `otp`, which never equals a stored code under `!==`, is not represented.
- AuthServer.Server.LoginVerify: the 500 reply assumes the framework's default handling of a synchronous throw. The error page's content is not modelled.
- GenericPage.Capitalize: only ASCII letters are upper-cased. JavaScript's `toUpperCase` also maps letters of other scripts (and "ß" to "SS"), which the model does not capture.
- The view's `showPassword` toggle, all JSX markup and styling, and the CAPTCHA checkbox are presentation. The captcha token is only a fixed string, and the server never reads it.
- React's batching of state updates is not modelled. Each handler's updates are applied in order, and the last write wins, as the rendered result shows.
- `axios`, `localStorage`, `navigate` and the 3-second `setTimeout` redirect are browser I/O. They appear as the `Outcome` parameter and as recorded fields.
- The presentation-only files are not part of this model: DashboardLayout.jsx, Dashboard.jsx, DashboardOverview.jsx, AboutUs.jsx, ContactUs.jsx, LandingPage.jsx, App.jsx, the Sidebar components and tailwind.config.js.
