# Pegasus: sign-in, two-factor management, token options and task list, in Dafny

Pegasus is a task-tracking web application: an MVC front end (`Pegasus`) talks to a REST back end (`PegasusApi`), and both share `Pegasus.Library`. This project models the parts of it that hold their own decision logic, and proves what each one promises:

- **JWT token options** (`JwtTokenOptions`, token_options.dfy). These are the mandatory-field guards of both `TokenOptions` constructors, the five-minute default lifetime, and the string overload, which overrides the lifetime only when its text parses as an `int`. A constructor that throws yields `Err(exception)`.
- **The API's account controller** (`ApiAccountController`). It covers the anti-enumeration replies of `ForgotPassword` and `ResetPassword`, and how the store's verdicts on recovery codes and authenticator tokens are copied into the reply models.
- **The web sign-in flow** (`WebAccountController`): `Login` → `LoginWith2Fa` (GET, then POST) → signed in. This includes `RedirectToLocal` and the guard on the reset-password link. The normalisation of a typed authenticator code has its own module, `TwoFactorCode`.
- **Account management** (`ManageController`). It covers the status-message builder of `Index`, the browser-forget action, enabling an authenticator, the guards on disabling 2FA and on generating recovery codes, and `ShowRecoveryCodes`.
- **Task ordering** (`ModifiedDescSorter`): a stable sort, newest `Modified` first.
- **The task-list controller** (`TaskListController`). It covers the `page` query parameter, the one-project/all-projects branch of `Index`, the timestamps of `Create`, and the comment and redirect rules of `Edit`.

Shared values:
- `Wrappers` holds `Option` and `Result`.
- `Mvc` holds the action results and route values. `Thrown(kind, message)` stands for an action that throws.
- `DotNetText` holds `string.IsNullOrWhiteSpace`, and `int.TryParse` for the invariant culture: optional surrounding white space, an optional sign, decimal digits, and the Int32 range. It also has the formatting of an `int`.
- `TaskModels` holds the task, comment and project records.

Controllers are modelled as methods that change nothing:
- A collaborator's answers (`UserManager`, the API endpoints, the sign-in manager, the token accessor, the URL helper) are inputs: datatypes whose fields are functions.
- Every call made on a collaborator is appended, in order, to the returned `effects`, so "called iff", "never called" and "before" can be stated.
- A bound model that the action updates in place is returned as its updated value.
- The clock, the signed-in user's name or id, the line terminator, the query string, the ajax header and the form's validity are parameters.

Failures are modelled as the code raises them:
- A blank signing key is not rejected (see Findings).
- A missing two-factor user throws `InvalidOperationException`. So does the `Disable2Fa` GET, and the `GenerateRecoveryCodes` GET and POST, when 2FA is off.
- The `Disable2Fa` POST does not check whether 2FA is on. It throws only when the API reports that switching it off failed.

## Model

| member | source | states |
|---|---|---|
| JwtTokenOptions.Create | Pegasus.Library/JwtAuthentication/Models/TokenOptions.cs:34-48 | A blank audience is rejected first (it is the error reported when the issuer is blank too). A blank issuer is rejected next. The guard whose message names SigningKey never fires. After those guards, a null key fails with `ArgumentNullException` and an empty key with `ArgumentException`. The options are built exactly when audience and issuer are not blank and the key is non-null and non-empty; they then hold the arguments, with the key as ASCII bytes. |
| JwtTokenOptions.CreateWithDefaultExpiry | Pegasus.Library/JwtAuthentication/Models/TokenOptions.cs:13-34 | Leaving the lifetime out gives 5 minutes, with the issuer, audience and key given (the key as ASCII bytes). It fails on exactly the inputs the full constructor fails on, whatever lifetime it is given. |
| JwtTokenOptions.CreateIgnoresExpiryInChecks | Pegasus.Library/JwtAuthentication/Models/TokenOptions.cs:34-48 | The lifetime plays no part in the guards. A failure with one lifetime is the same failure with any other, and a success differs only in the lifetime. |
| JwtTokenOptions.FormattedExpiryParses | Pegasus.Library/JwtAuthentication/Models/TokenOptions.cs:54-56 | An Int32 written in decimal is never blank text and parses back to itself, so the overload takes its value. |
| JwtTokenOptions.CreateWithExpiryText | Pegasus.Library/JwtAuthentication/Models/TokenOptions.cs:51-57 | Chains to the same guards and fails with the same exception. A non-blank text that parses sets the lifetime to the parsed value; any other text leaves it at 5. Issuer, audience and key are those given. |
| JwtTokenOptions.ExpiryTextTakesEveryInt | Pegasus.Library/JwtAuthentication/Models/TokenOptions.cs:54-56 | For all arguments, failures included, every Int32 written in decimal gives the same result as passing that Int32 directly. |
| JwtTokenOptions.NoLowerBoundOnExpiry | Pegasus.Library/JwtAuthentication/Models/TokenOptions.cs:48-56 | A zero or negative lifetime, passed as an int or as text, is accepted and kept. |
| JwtTokenOptions.CreateKeepsAsciiKey | Pegasus.Library/JwtAuthentication/Models/TokenOptions.cs:47 | Options built from an ASCII key hold one byte per character, and those bytes decode back to the key given. |
| JwtTokenOptions.BlankSigningKeyAccepted | Pegasus.Library/JwtAuthentication/Models/TokenOptions.cs:42-43 | A signing key of one space passes every guard as written. |
| JwtTokenOptions.CreateIntended | Pegasus.Library/JwtAuthentication/Models/TokenOptions.cs:42-43 | With the third guard testing the key, a blank key is reported as "SigningKey is mandatory…" and never yields options. Wherever the key is not blank, the result is the same as the constructor as written. |
| DotNetText.TryParseFormat | Pegasus.Library/JwtAuthentication/Models/TokenOptions.cs:54 | `int.TryParse` reads back every Int32 that is written in decimal. |
| DotNetText.FormattedNotBlank | Pegasus.Library/JwtAuthentication/Models/TokenOptions.cs:54 | An Int32 written in decimal starts with a sign or a digit, so it is never null or white space. |
| DotNetText.BlankNeverParses | Pegasus.Library/JwtAuthentication/Models/TokenOptions.cs:54 | Null, empty or white-space-only text never parses, so the overload's own blank test adds nothing to `TryParse`. |
| DotNetText.TryParseIgnoresSurroundingWhite | Pegasus.Library/JwtAuthentication/Models/TokenOptions.cs:54 | Any run of leading white space and any run of trailing white space (as `NumberStyles.Integer` allows) leaves the parse result unchanged. |
| DotNetText.CommaNeverParses | Pegasus/Controllers/TaskListController.cs:176-177 | Text with a comma never parses as an integer. |
| TwoFactorCode.StripRemovesSeparators | Pegasus/Controllers/AccountController.cs:122 | No space and no hyphen is left in the normalised code. |
| TwoFactorCode.StripKeepsOtherCharacters | Pegasus/Controllers/AccountController.cs:122 | Every other character occurs in the normalised code exactly as often as in the typed code. |
| TwoFactorCode.StripConcat | Pegasus/Controllers/AccountController.cs:122 | Normalisation works piece by piece, so the kept characters stay in their order. |
| TwoFactorCode.StripKeepsPlainCode | Pegasus/Controllers/ManageController.cs:105 | A code without spaces or hyphens is sent exactly as typed. |
| TwoFactorCode.StripIdempotent | Pegasus/Controllers/ManageController.cs:105 | Normalising twice is the same as normalising once. |
| ModifiedDescSorter.InsertAddsTask | Pegasus/Entities/Sorters/ProjectTask/ModifiedDescSorter.cs:11 | Inserting one task adds exactly that task: one element more, and the multiset grows by that task. |
| ModifiedDescSorter.InsertKeepsOrder | Pegasus/Entities/Sorters/ProjectTask/ModifiedDescSorter.cs:11 | Inserting into a newest-first run keeps it newest-first, and the new head is the inserted task or the old head. |
| ModifiedDescSorter.SortedAfterNewest | Pegasus/Entities/Sorters/ProjectTask/ModifiedDescSorter.cs:11 | A task no older than the head of a newest-first run can be put in front of it. |
| ModifiedDescSorter.Sort | Pegasus/Entities/Sorters/ProjectTask/ModifiedDescSorter.cs:9-12 | The result is a permutation of the input (same length, same multiset), and `Modified` never increases along it. |
| ModifiedDescSorter.SortKeepsTiesInInputOrder | Pegasus/Entities/Sorters/ProjectTask/ModifiedDescSorter.cs:11 | Stability: for every timestamp, the tasks carrying it are in the same relative order as in the input. |
| ModifiedDescSorter.SortOfSorted | Pegasus/Entities/Sorters/ProjectTask/ModifiedDescSorter.cs:11 | An input already newest-first is returned unchanged. |
| ModifiedDescSorter.SortIdempotent | Pegasus/Entities/Sorters/ProjectTask/ModifiedDescSorter.cs:11 | Sorting a sorted result changes nothing. |
| ModifiedDescSorter.SortEmpty | Pegasus/Entities/Sorters/ProjectTask/ModifiedDescSorter.cs:11 | No tasks in, no tasks out. |
| ApiAccountController.ForgotPassword | PegasusApi/Controllers/AccountController.cs:32-60 | A null e-mail makes the lookup throw `ArgumentNullException` and nothing is called. An unknown or unconfirmed account gets the request back unchanged, and no token and no e-mail. For a confirmed one the token is generated. A base URL that does not make an absolute URI then ends in `UriFormatException` with nothing sent. Otherwise the request comes back unchanged and exactly one e-mail is sent: to the address given, subject "Reset Password", linking `userId` and the encoded token. Each path's calls are stated in full: lookup, confirmation check, token, e-mail, as far as the path goes. |
| ApiAccountController.RedeemRecoveryCode | PegasusApi/Controllers/AccountController.cs:65-77 | The user is looked up first. An unknown user, including for a null id, gets `Succeeded = false` and redemption is never attempted. Otherwise `Succeeded` is the store's verdict on the code. |
| ApiAccountController.RememberClient | PegasusApi/Controllers/AccountController.cs:82-88 | The reply carries the user's security stamp and the store's stamp support. An unknown user, including for a null id, ends in a null dereference and nothing else is called. |
| ApiAccountController.ResetPassword | PegasusApi/Controllers/AccountController.cs:93-109 | An unknown e-mail, or an account whose id is not the one given, gets `Succeeded = true` and no reset attempt. Otherwise a successful reset gives `Succeeded = true`, and a failed one gives the store's errors with `Succeeded` false. |
| ApiAccountController.VerifyTwoFactorToken | PegasusApi/Controllers/AccountController.cs:114-120 | An unknown user, including for a null id, makes the token check throw `ArgumentNullException`. Otherwise `Verified` is the store's verdict on `Code` under the "Authenticator" provider, and every other field comes back as sent. |
| WebAccountController.RedirectToLocal | Pegasus/Controllers/AccountController.cs:237-247 | A local URL is redirected to as given; any other goes to Home/Index. |
| WebAccountController.Login | Pegasus/Controllers/AccountController.cs:53-82 | An invalid form calls nothing. A completed sign-in goes to `returnUrl`, or to "~/" when there is none. A sign-in that needs a second factor goes to `LoginWith2Fa` with `returnUrl`. Every other outcome shows "Invalid login attempt.". |
| WebAccountController.LoginWith2FaForm | Pegasus/Controllers/AccountController.cs:86-101 | Throws exactly when no user awaits a second factor; otherwise shows the form with `returnUrl`. |
| WebAccountController.LoginWith2Fa | Pegasus/Controllers/AccountController.cs:106-150 | Throws when no user awaits a second factor. The code is verified without spaces and hyphens. When it is verified: remember-client happens iff `RememberMachine`, sign-out comes before sign-in, and the token goes into the headers. A rejected code shows "Invalid authenticator code." and calls nothing else. |
| WebAccountController.ResetPasswordForm | Pegasus/Controllers/AccountController.cs:186-202 | No code is a bad request (iff). A code that is not valid base64url ends in the decoder's `FormatException`. Otherwise the form carries the user id and the decoded code. |
| ManageController.NotUpdatedMessage | Pegasus/Controllers/ManageController.cs:45-50 | The loop builds "Details were not updated." followed by every error, each with a line terminator after it. |
| ManageController.ErrorLinesConcat | Pegasus/Controllers/ManageController.cs:46-49 | The lines for two runs of errors are the lines of the first followed by those of the second. |
| ManageController.ErrorLineAt | Pegasus/Controllers/ManageController.cs:46-49 | Each error, with its line terminator, comes right after the lines of the errors before it, so the errors appear in order. |
| ManageController.Index | Pegasus/Controllers/ManageController.cs:40-56 | The details are saved once. The status is the message above when the save reports errors, and "User details were updated." when it reports none. |
| ManageController.TwoFactorAuthentication | Pegasus/Controllers/ManageController.cs:67-76 | Asks the API to forget the browser, then shows the model with the status message and `IsMachineRemembered` false. |
| ManageController.RedirectAfterEnable | Pegasus/Controllers/ManageController.cs:137-143 | Goes to `ShowRecoveryCodes` iff the codes needed a reset, otherwise to `TwoFactorAuthentication`. |
| ManageController.EnableAuthenticator | Pegasus/Controllers/ManageController.cs:94-144 | An invalid form only reloads the key and URI. The stripped code is verified for the signed-in user. A rejected code adds "Verification code is invalid." and reloads the key. 2FA is switched on, with `Enabled = true` for the signed-in user, only after a valid code. The call order is then: enable, check recovery codes, redirect. |
| ManageController.ShowRecoveryCodes | Pegasus/Controllers/ManageController.cs:245-253 | Null or empty codes redirect to `TwoFactorAuthentication` (iff); otherwise the codes are shown. |
| ManageController.RecoveryCodesLostAfterEnable | Pegasus/Controllers/ManageController.cs:137-143 | As written, codes that needed a reset never reach `ShowRecoveryCodes`: it sends the user on to `TwoFactorAuthentication`. |
| ManageController.RedirectAfterEnableIntended | Pegasus/Controllers/ManageController.cs:137-143 | With the codes passed along, codes that needed a reset are shown; the redirect is unchanged when no reset was needed. |
| ManageController.Disable2FaForm | Pegasus/Controllers/ManageController.cs:174-183 | Throws "Cannot disable 2FA … as it's not currently enabled." exactly when 2FA is off. |
| ManageController.Disable2Fa | Pegasus/Controllers/ManageController.cs:187-206 | Switches 2FA off for the signed-in user. It throws exactly when the API reports failure; otherwise it goes to `TwoFactorAuthentication` with the "2fa has been disabled" status. |
| ManageController.GenerateRecoveryCodesForm | Pegasus/Controllers/ManageController.cs:210-219 | Throws "… because they do not have 2FA enabled." exactly when 2FA is off. |
| ManageController.GenerateRecoveryCodes | Pegasus/Controllers/ManageController.cs:223-241 | New codes are generated iff 2FA is on, and only after that check. The redirect carries them, with "You have generated new recovery codes.", and non-empty codes are then shown. |
| TaskListController.QueryValue | Pegasus/Controllers/TaskListController.cs:176-177 | No value is null, one value is itself, and several give a text that contains a comma. |
| TaskListController.QueryValueJoins | Pegasus/Controllers/TaskListController.cs:176-177 | Several values give the first value, a comma, and then the rest converted the same way: the values joined with commas. |
| TaskListController.GetPage | Pegasus/Controllers/TaskListController.cs:173-178 | The page is the parsed value when the query value parses, and 1 otherwise. |
| TaskListController.GetPageOfFormatted | Pegasus/Controllers/TaskListController.cs:177 | Every Int32 page number written in decimal is read back as itself. |
| TaskListController.GetPageDefaults | Pegasus/Controllers/TaskListController.cs:175-177 | A missing, blank or repeated `page` value gives page 1. |
| TaskListController.Index | Pegasus/Controllers/TaskListController.cs:40-65 | Fetches that project's tasks iff `projectId > 0`, and all tasks otherwise. A project that is not found becomes `{Id = 0, Name = "All"}`. An ajax request gets the partial view and any other gets the full one. |
| TaskListController.Create | Pegasus/Controllers/TaskListController.cs:91-107 | `Created == Modified == now` before validation. The task is added, with the user's id, iff the form is valid, and is then followed by a redirect to `Index`. |
| TaskListController.EditRedirect | Pegasus/Controllers/TaskListController.cs:146-151 | Goes to `Index` iff the task is closed and its status changed, otherwise back to `Edit`. |
| TaskListController.NewCommentEvents | Pegasus/Controllers/TaskListController.cs:141-144 | A comment is added iff its text is not null or white space; it carries the task id and the user id. |
| TaskListController.Edit | Pegasus/Controllers/TaskListController.cs:132-165 | For a valid form, the call order is: save the task with the user id, save the edited comments, add the new comment, and redirect by the rule above. An invalid form calls nothing and rebuilds the form from everything it was given. |

## Left out
- ASP.NET Core Identity is not part of this model: TOTP checking, recovery-code storage and single use, reset tokens, security stamps and `SignInManager`. Their answers are inputs, and nothing is assumed about them.
- Foreign encoders are uninterpreted function inputs. `Base64UrlDecode` may fail, with a `FormatException`, and `new Uri` may reject the link, with a `UriFormatException`; nothing else is assumed about them. The encoders are: `WebEncoders.Base64UrlEncode` / `Base64UrlDecode`, `HtmlEncoder`, `QueryHelpers.AddQueryString`, `new Uri`, `Url.Content`, `Url.IsLocalUrl` and `Url.ResetPasswordBaseUrl`.
- JWT signing, and `SymmetricSecurityKey` beyond its rejection of an empty key. The key is kept as its ASCII bytes, and a non-ASCII character becomes '?'.
- Async/await, logging, cookies and `ViewData` are not modelled. `ModelState` is an input flag plus the errors an action adds.
- `DotNetText.TryParseInt32`: the current culture is taken to be the invariant one, and trailing NUL characters are not accepted, though .NET accepts them.
- `JwtTokenOptions.Create`: a null signing key ends in `Encoding.ASCII.GetBytes`'s `ArgumentNullException`, and an empty key in `SymmetricSecurityKey`'s `ArgumentException`. Both are library behaviour, reduced here to one error each.
- Actions outside the core are not modelled: `Login` GET, `Logout`, `AccessDenied`, web `ForgotPassword` GET/POST and `ResetPassword` POST, `Index` GET and `TwoFactorAuthentication` GET of the manage controller, `EnableAuthenticator` GET, `ResetAuthenticator`, `Create`/`Edit` GET and `Error`.
- `TaskViewModel.Create` and what it fetches: the model records only the arguments it is given.
- `IndexViewModel`'s filtering of tasks (`Filtered`, not part of this model) and its task filters are left out. `projectTasks` is kept as fetched, and `ModifiedDescSorter` models the default ordering.
- The items that contain no core logic are left out: site.js (UI), `ManageEndpoint` (HTTP forwarding), `ProjectController` (pass-throughs), `IPegasusData` (an interface) and the plain record shapes.
- The route values of a redirect are kept so that contracts can state them, reduced to a few shapes. `Disable2Fa`'s `TwoFactorAuthenticationModel` becomes its status message, although the `TwoFactorAuthentication` GET takes no parameters and so never reads it. `Edit`'s bare `int` becomes `BoxedIntValue`, although an `int` passed as route values supplies no `id` key.
- ManageController.GenerateRecoveryCodes: the model takes the redirect to carry the codes array to `ShowRecoveryCodes`. It does not model how MVC writes a `string[]` route value into a query string.
- Most nullable strings are modelled as `Option`. These stay plain strings, so the model never sees them null: `LoginViewModel.Email` and `Password`, `LoginWith2FaViewModel.TwoFactorCode`, `EnableAuthenticatorModel.Code`, `ForgotPasswordModel.BaseUrl` and the strings of `TaskModel`. This leaves out what the code does when one of them is null: a null `LoginWith2FaViewModel.TwoFactorCode` or `EnableAuthenticatorModel.Code` ends in a null dereference at `.Replace`. Null strings in `LoginViewModel` are passed on to the sign-in call, and those in `TaskModel` are never dereferenced. A null `ForgotPasswordModel.BaseUrl` makes `QueryHelpers.AddQueryString` throw `ArgumentNullException`.
- In-place updates of a bound model are modelled as returning the updated value; aliasing is not modelled. The data store behind the endpoints is not modelled.

## Findings

| source | as written | input that shows it | evidently intended | confidence | as-written member | corrected member |
|---|---|---|---|---|---|---|
| Pegasus.Library/JwtAuthentication/Models/TokenOptions.cs:42-43 | The guard whose message says "SigningKey is mandatory" tests `issuer` again, so it never fires. | issuer "https://pegasus.example", audience "pegasus-api", signing key " " | A null or white-space signing key is rejected with the SigningKey message | high, not executed | JwtTokenOptions.BlankSigningKeyAccepted | JwtTokenOptions.CreateIntended |
| Pegasus/Controllers/ManageController.cs:137-143 | The recovery codes are stored on the posted model, which is then dropped. The redirect to `ShowRecoveryCodes` carries no route values, so the codes never arrive and that action moves straight on to `TwoFactorAuthentication`. | a valid authenticator code whose recovery-code status has `NeededReset = true` and codes ["a1b2", "c3d4"] | The codes that needed a reset are passed to `ShowRecoveryCodes` and shown | high, not executed | ManageController.RecoveryCodesLostAfterEnable | ManageController.RedirectAfterEnableIntended |
