# Task manager with e-mail verified accounts — a Dafny model

This project models the core of a small MERN task manager in Dafny.

- The backend keeps a users collection and a tasks collection in MongoDB.
- Accounts follow a credential lifecycle:
  - sign up, which stores a bcrypt hash and a six-digit e-mail code valid for 24 hours;
  - verify the e-mail with that code;
  - log in, which issues a seven-day JWT in an HTTP-only `token` cookie;
  - log out;
  - ask for a password reset, which stores a 40-hex-digit token valid for one hour;
  - reset the password with that token.
- A session gate reads the cookie. Behind it, each user lists, creates, updates and deletes only their own tasks. Listing can filter by status and priority and sort by date or by priority.
- The React client keeps the session and the task list in two stores. It scores passwords on a 0–4 meter and collects the code in six one-character cells.

## How the model is organised

There is one module per source file, plus small modules for the libraries the code calls:

| source | module |
|---|---|
| backend/controllers/auth.controller.js | `AuthController`; properties that span several requests are in `AuthScenarios` |
| backend/controllers/task.controller.js | `TaskController` |
| backend/middleware/verifyToken.js | `VerifyToken` |
| backend/utils/generateTokenAndSetCookie.js | `SessionCookie` |
| backend/models/user.model.js | `UserModel` |
| backend/models/task.model.js | `TaskModel` |
| frontend/src/store/authStore.js | `AuthStore` |
| frontend/src/store/taskStore.js | `TaskStore` |
| frontend/src/components/PasswordStrengthMeter.jsx | `PasswordStrength` |
| frontend/src/pages/EmailVerificationPage.jsx | `EmailVerificationPage` |
| JavaScript built-ins (`trim`, `isNaN`, `toString`, hex encoding, string order) | `JsText` |
| Express's `req` and `res` | `Http` |
| bcryptjs, jsonwebtoken | `Bcrypt`, `Jwt` |
| shared values (`Option`, `Outcome`, JavaScript truthiness, `a \|\| b`) | `Base` |

Decisions the model makes:

- **Stateful parts are classes.** Each collection, store and page is a class whose methods rewrite its fields:
  - `UserCollection` and `TaskCollection` are the database collections.
  - `AuthStore` and `TaskStore` are the client stores. A ghost `published` field records every state handed to `set`.
  - `VerificationPage` is the page's state.
  - `Request` and `Response` are the Express objects.
- **A handler is one method.** It runs as one atomic step. Its `ensures` give the new collection, status, body and cookies for every branch the source takes.
- **Outside values are parameters.** Anything the code gets from outside has no fixed value here:
  - the clock is `now` in milliseconds;
  - `Math.random` is `draw`;
  - `crypto.randomBytes(20)` is `random`;
  - the bcrypt salt is `salt`;
  - whether the mail transport accepted a message is `mail`;
  - a database-assigned id is `freshId`;
  - the result of a client request is `outcome`.
- **Bcrypt and JWT are symbolic.** A digest records the password it was made from. A token records its claims, its `iat`/`exp` (seconds) and its key. `compare` and `verify` are therefore exact, which is the ideal-primitive assumption.
- **`findOne` is the first match in collection order.** A user's id is their position in the collection.
- **`updatedAt` moves only when a field changed.** Mongoose stamps it on `save()` only when some field was modified (`Saved`).

## Model

| member | source | states |
|---|---|---|
| Base.OrElse | frontend/src/store/authStore.js:35 | `message \|\| fallback`: the server's message when it is non-empty, otherwise the fallback |
| JsText.Trim | backend/models/task.model.js:14 | `trim` cuts only white space from both ends, and the result neither starts nor ends with it |
| JsText.TrimEmptyIffBlank | backend/models/task.model.js:11-15 | trimming leaves nothing exactly when the string is all white space, which is when a required title fails |
| JsText.TrimmedIffUnchanged | backend/models/task.model.js:14-18 | the trimmed strings are exactly those `trim` leaves alone |
| JsText.TrimIdempotent | backend/models/task.model.js:14-18 | trimming twice is trimming once |
| JsText.DecimalString | backend/controllers/auth.controller.js:21 | `toString` of a non-negative integer is all digits, with no leading zero |
| JsText.DecimalRoundTrip | backend/controllers/auth.controller.js:21 | reading the printed digits back gives the number |
| JsText.DecimalLength | backend/controllers/auth.controller.js:21 | a number from 10^k to 10^(k+1)-1 prints as k+1 digits |
| JsText.Hex | backend/controllers/auth.controller.js:134 | hex encoding gives two lower-case hex digits per byte |
| JsText.HexRoundTrip | backend/controllers/auth.controller.js:134 | decoding the hex gives the bytes back |
| JsText.HexInjective | backend/controllers/auth.controller.js:134 | different byte strings never give the same token |
| Bcrypt.Hash | backend/controllers/auth.controller.js:20 | the digest has cost 10 and the drawn salt |
| Bcrypt.Compare | backend/controllers/auth.controller.js:95 | `compare` holds exactly when hashing the candidate with the digest's own cost and salt gives the digest (with `CompareOwnHash`, `CompareOtherPassword`) |
| Bcrypt.CompareOwnHash | backend/controllers/auth.controller.js:95 | a password matches its own hash, whatever the salt |
| Bcrypt.CompareOtherPassword | backend/controllers/auth.controller.js:95 | a different password never matches |
| Jwt.Sign | backend/utils/generateTokenAndSetCookie.js:6-8 | the token carries the claims and the key; `exp` is seven days of seconds after the whole-second `iat` |
| Jwt.Verify | backend/middleware/verifyToken.js:10 | decodes exactly when the token is signed with this secret and unexpired, and then gives its claims |
| Jwt.TokenLifetime | backend/utils/generateTokenAndSetCookie.js:6-8 | acceptance holds while the clock in seconds is before `iat` + 7 days: always before 7 days less a second, never from 7 days on |
| Jwt.SignVerifyRoundTrip | backend/utils/generateTokenAndSetCookie.js:6-8 | inside its lifetime, verifying a signed token gives back the claims |
| Jwt.OtherKeyRejected | backend/middleware/verifyToken.js:10 | a token signed with another key throws an invalid signature |
| UserModel.NewUser | backend/models/user.model.js:3-31 | a new document has the given fields; `lastLogin`, `createdAt` and `updatedAt` are now; it is unverified and has no reset fields |
| UserModel.SchemaPaths | backend/models/user.model.js:25-28 | the schema declares `resetPasswordExpires`, not `resetPasswordExpiresAt` |
| UserModel.ResetExpiryPathMismatch | backend/controllers/auth.controller.js:137 | the reset expiry is the only path the controller uses that the schema lacks, and vice versa |
| UserModel.Sanitize | backend/controllers/auth.controller.js:41-44 | putting the password back into the public user gives the document (with `SanitizeDropsOnlyPassword`) |
| UserModel.SanitizeDropsOnlyPassword | backend/controllers/auth.controller.js:41-44 | the public user is the document minus exactly its password |
| TaskModel.ParseStatus | backend/models/task.model.js:21-25 | the enum check accepts exactly the three declared strings |
| TaskModel.ParsePriority | backend/models/task.model.js:26-30 | the enum check accepts exactly the three declared strings |
| TaskModel.EnumNamesRoundTrip | backend/models/task.model.js:21-30 | each enum value is accepted from the string it stores |
| TaskModel.BuildTask | backend/controllers/task.controller.js:54-63 | `new Task({...}).save()` succeeds exactly when the trimmed title is non-empty and the enums are known; the new task then has trimmed fields, defaults filled in and both timestamps now |
| TaskModel.TrimmedDescription | backend/models/task.model.js:16-20 | the description is trimmed when given, `''` by default |
| Http.Request.TokenCookie | backend/middleware/verifyToken.js:5 | `req.cookies.token` is present exactly when the cookie is |
| Http.Response.Send | backend/controllers/auth.controller.js:123 | `res.status(c).json(b)` sets status and body and leaves the cookies |
| Http.Response.Cookie | backend/utils/generateTokenAndSetCookie.js:10-15 | sets that one cookie and nothing else |
| Http.Response.ClearCookie | backend/controllers/auth.controller.js:122 | clears that one cookie and nothing else |
| SessionCookie.SessionClaims | backend/utils/generateTokenAndSetCookie.js:6 | the claims are exactly `{ userId }` |
| SessionCookie.SessionCookieOptions | backend/utils/generateTokenAndSetCookie.js:10-15 | HTTP-only and `Strict`, secure exactly in production; `maxAge` equals the token lifetime |
| SessionCookie.GenerateTokenAndSetCookie | backend/utils/generateTokenAndSetCookie.js:5-18 | sets the `token` cookie to the signed `{ userId }` and returns it; status and body untouched |
| SessionCookie.IssuedSessionAuthenticates | backend/utils/generateTokenAndSetCookie.js:5-18 | an issued cookie authenticates as its user for its `maxAge` less the `iat` rounding |
| VerifyToken.CookieTruthy | backend/middleware/verifyToken.js:6 | a missing and an empty cookie are falsy; a signed token and any other non-empty text are truthy |
| VerifyToken.Judge | backend/middleware/verifyToken.js:10-19 | a throw and a falsy payload both deny with "Token is not valid"; a payload admits its `userId` |
| VerifyToken.Decide | backend/middleware/verifyToken.js:4-19 | a falsy cookie is "No token provided"; otherwise the verify outcome decides; admission iff truthy and decoded |
| VerifyToken.AdmitsExactlySignedUnexpired | backend/middleware/verifyToken.js:4-19 | a request gets through exactly with an unexpired token signed by this server, as the user it names |
| VerifyToken.VerifyTokenMiddleware | backend/middleware/verifyToken.js:4-20 | admission binds `req.userId` and calls `next` once; denial is a 401 with the message and leaves the request alone |
| AuthController.VerificationCode | backend/controllers/auth.controller.js:21 | the code is six digits, the first not zero, with the value 100000 + draw mod 900000 |
| AuthController.ResetToken | backend/controllers/auth.controller.js:134 | the token is 40 lower-case hex digits that decode back to the 20 random bytes |
| AuthController.ResetUrl | backend/controllers/auth.controller.js:142 | the link is the client URL, `/reset-password/` and the token |
| AuthController.UserCollection.constructor | backend/models/user.model.js:33 | an empty collection satisfies the collection invariant |
| AuthController.UserCollection.Insert | backend/controllers/auth.controller.js:31 | appends the new document and keeps emails unique and documents well formed |
| AuthController.UserCollection.Save | backend/controllers/auth.controller.js:66 | writes the document back at its id, stamped as `Saved` says; keeps the invariant |
| AuthController.Saved | backend/models/user.model.js:30 | the stored document is the edited one with `updatedAt` moved to now exactly when a field changed |
| AuthController.First | backend/controllers/auth.controller.js:15 | `findOne` gives the first matching document, and none exactly when nothing matches |
| AuthController.FindByEmail | backend/controllers/auth.controller.js:15 | the found user has that email; none iff no user has it (an absent email matches no one) |
| AuthController.FindByCode | backend/controllers/auth.controller.js:55-58 | the first user holding the code with an expiry after now; none iff there is no such user |
| AuthController.FindByResetToken | backend/controllers/auth.controller.js:158-161 | the first user holding the token with an expiry after now; none iff there is no such user |
| AuthController.FindByEmailUnique | backend/models/user.model.js:7 | with unique emails, the lookup finds exactly the user with that email |
| AuthController.ConsumedOrExpiredNeverMatches | backend/controllers/auth.controller.js:57 | an unset or expired code or token never matches |
| AuthController.StrictSaved | backend/models/user.model.js:3-31 | under the default strict mode, saving drops the undeclared `resetPasswordExpiresAt` and keeps every other field |
| AuthController.ResetFilterAsWritten | backend/controllers/auth.controller.js:158-161 | with `strictQuery` on, the filter keeps only the token; with it off, it also needs a stored expiry after now |
| AuthController.ResetExpiryNeverSaved | backend/controllers/auth.controller.js:134-139 | as written, the saved request never matches without `strictQuery`, and always matches with it, whatever the time |
| AuthController.ResetWindowAsIntended | backend/controllers/auth.controller.js:135-137 | when the expiry is saved, the token matches exactly before one hour has passed |
| AuthController.Signup | backend/controllers/auth.controller.js:7-50 | a missing field gives 400 "All fields are required" and an existing email 400 "User already exists", changing nothing; otherwise it stores an unverified user with the hash and a 24-hour code, sets the session cookie and sends the code; 201 with the user minus password, or 400 with the mail error |
| AuthController.VerifyEmail | backend/controllers/auth.controller.js:52-86 | no live code gives 400; otherwise the first holder becomes verified with the code cleared; 200 with that user, or 500 "server error" when the welcome mail fails |
| AuthController.Login | backend/controllers/auth.controller.js:88-119 | an unknown email and a wrong password give the same 400; a missing password gives 400 "Server error"; success sets the cookie, stamps `lastLogin` and answers 200 with the user |
| AuthController.Logout | backend/controllers/auth.controller.js:121-124 | clears the `token` cookie and answers 200 |
| AuthController.ForgotPassword | backend/controllers/auth.controller.js:126-150 | an unknown email gives 400 "User not found"; otherwise it stores the hex token with a one-hour expiry and mails the link; 200, or 400 with the mail error |
| AuthController.ResetPassword | backend/controllers/auth.controller.js:152-181 | no live token gives 400; a missing password gives 500 with bcrypt's error; otherwise the hash of the new password replaces the old and the token is cleared; 200, or 500 with the mail error |
| AuthScenarios.CodeConsumed | backend/controllers/auth.controller.js:63-65 | consuming a code verifies the user and unsets code and expiry, keeping identity, password and reset fields |
| AuthScenarios.CodeSingleUse | backend/controllers/auth.controller.js:55-66 | a code held by one user, once consumed, matches no one at any later time |
| AuthScenarios.ResetFindsRequester | backend/controllers/auth.controller.js:134-139 | within the hour, the reset lookup finds exactly the user who asked |
| AuthScenarios.ReplayFindsNobody | backend/controllers/auth.controller.js:170-172 | once cleared, the reset token matches nobody |
| AuthScenarios.SignupThenLogin | backend/controllers/auth.controller.js:7-119 | signing up and then logging in with the same credentials gives 201 then 200, as the new user |
| AuthScenarios.VerifyTwice | backend/controllers/auth.controller.js:52-86 | a second verification with the same code is refused with 400 |
| AuthScenarios.ForgotThenReset | backend/controllers/auth.controller.js:126-181 | a reset requested and used within the hour both give 200; the requester's hash becomes the new password's and the token is cleared; no other user changes |
| AuthScenarios.LoginThenReplay | backend/controllers/auth.controller.js:88-181 | after a reset, logging in with the new password gives 200 and replaying the cleared token gives 400 |
| AuthScenarios.ForgotResetLogin | backend/controllers/auth.controller.js:88-181 | asking for a reset, resetting within the hour and logging in with the new password all give 200; replaying the link gives 400 |
| TaskController.BuildQuery | backend/controllers/task.controller.js:10-14 | the filter always has the caller's id; status and priority join exactly when truthy |
| TaskController.Select | backend/controllers/task.controller.js:35 | `find` keeps every matching task as often as it is stored, and nothing else |
| TaskController.SortOptions | backend/controllers/task.controller.js:17-33 | four known keys; newest first for any other value; both priority sorts break ties newest first |
| TaskController.StoredStringRank | backend/controllers/task.controller.js:26 | ranks the stored strings "High" < "Low" < "Medium" |
| TaskController.Rank | frontend/src/pages/HomePage.jsx:133 | ranks priorities by meaning, Low < Medium < High |
| TaskController.StoredStringRankIsStringOrder | backend/controllers/task.controller.js:26 | the string rank is exactly code-unit order on the stored names |
| TaskController.InOrderTotal | backend/controllers/task.controller.js:35 | the lexicographic sort order relates any two tasks |
| TaskController.InOrderTransitive | backend/controllers/task.controller.js:35 | the sort order is transitive |
| TaskController.InsertSorted | backend/controllers/task.controller.js:35 | inserting adds exactly one copy of the task |
| TaskController.InsertSortedKeepsOrder | backend/controllers/task.controller.js:35 | inserting into a sorted list keeps it sorted |
| TaskController.SortTasks | backend/controllers/task.controller.js:35 | `.sort` gives a sorted permutation of its input |
| TaskController.TaskListWith | backend/controllers/task.controller.js:5-37 | the answer is exactly the caller's matching tasks, sorted by the chosen options |
| TaskController.TaskListAsWritten | backend/controllers/task.controller.js:25-30 | the list as written is sorted with priorities compared as strings, and is only the caller's tasks |
| TaskController.TaskList | backend/controllers/task.controller.js:5-37 | the list the sort labels promise, sorted with priorities compared by meaning |
| TaskController.PriorityDescAsWrittenPutsMediumFirst | backend/controllers/task.controller.js:25-27 | as written, "priority_desc" lists a Medium task before a High one |
| TaskController.TaskListOrder | backend/controllers/task.controller.js:17-33 | each priority sort is monotone in priority and breaks ties newest first; the date sorts are monotone in `createdAt` |
| TaskController.FindTask | backend/controllers/task.controller.js:81 | `findById` gives the task with that id; none iff no task has it |
| TaskController.RemoveAtRemovesExactlyThatTask | backend/controllers/task.controller.js:128 | deleting one document with unique ids removes exactly the tasks with its id |
| TaskController.RemoveAtKeepsInvariant | backend/controllers/task.controller.js:128 | deleting keeps ids unique and every task conforming |
| TaskController.TaskCollection.constructor | backend/models/task.model.js:35 | an empty collection satisfies the invariant |
| TaskController.TaskCollection.Insert | backend/controllers/task.controller.js:62 | appends a conforming task with a fresh id |
| TaskController.TaskCollection.Save | backend/controllers/task.controller.js:98 | writes the task back at its position, stamped as `Saved` says |
| TaskController.TaskCollection.Remove | backend/controllers/task.controller.js:128 | removes the task at its position, keeping the rest in order |
| TaskController.Saved | backend/models/task.model.js:32 | `updatedAt` moves to now exactly when a field changed |
| TaskController.AsciiLowerCase | backend/controllers/task.controller.js:76 | lower-cases exactly the ASCII capitals |
| TaskController.IsValidObjectId | backend/controllers/task.controller.js:76 | valid exactly for 24 hex digits of either case; every canonical id is valid |
| TaskController.CanonicalId | backend/controllers/task.controller.js:81 | a valid id is cast to its lower-case 24-hex-digit form |
| TaskController.Locate | backend/controllers/task.controller.js:76-90 | an invalid id is 400, then an absent task 404, then someone else's task 403, otherwise the caller's task |
| TaskController.Updated | backend/controllers/task.controller.js:93-99 | only truthy fields overwrite, trimmed; the save fails exactly on a blank title or an unknown enum; identity and timestamps are kept |
| TaskController.FalsyUpdateChangesNothing | backend/controllers/task.controller.js:93-99 | an update with only falsy fields leaves the task, and its `updatedAt`, as they were |
| TaskController.GetTasks | backend/controllers/task.controller.js:5-42 | answers 200 with the caller's filtered tasks, sorted as the code sorts them (`TaskListAsWritten`: priorities compared as stored strings) |
| TaskController.CreateTask | backend/controllers/task.controller.js:45-68 | a falsy title gives 400; a failing validation 500; otherwise it stores the new task for the caller and answers 201 with it |
| TaskController.UpdateTask | backend/controllers/task.controller.js:71-105 | 400, 404 or 403 change nothing; a failing validation gives 500; otherwise it saves the merge and answers 200 with it |
| TaskController.DeleteTask | backend/controllers/task.controller.js:108-135 | 400, 404 or 403 change nothing; otherwise exactly the task with that id goes and the answer is 200 |
| TaskStore.ReplacedById | frontend/src/store/taskStore.js:49-51 | same length; tasks with the id become the answer, the rest stay in place |
| TaskStore.RemovedById | frontend/src/store/taskStore.js:63 | keeps exactly the tasks whose id differs |
| TaskStore.RemovedByIdKeepsOrder | frontend/src/store/taskStore.js:63 | the filter of a concatenation is the concatenation of the filters, so order is kept |
| TaskStore.AbsentIdChangesNothing | frontend/src/store/taskStore.js:49-63 | with an id no task has, replacing or removing leaves the list as it is |
| TaskStore.ReplaceAndRemoveSettle | frontend/src/store/taskStore.js:49-63 | replacing with a task that keeps the id is idempotent, and so is removing |
| TaskStore.TaskStore.constructor | frontend/src/store/taskStore.js:14-16 | no tasks, not loading, no error |
| TaskStore.TaskStore.FetchTasks | frontend/src/store/taskStore.js:19-29 | publishes loading first; success takes the server's list; failure keeps the list and reports the message or "Failed to fetch tasks." |
| TaskStore.TaskStore.AddTask | frontend/src/store/taskStore.js:32-42 | success puts the created task first; failure changes nothing |
| TaskStore.TaskStore.UpdateTask | frontend/src/store/taskStore.js:44-56 | success replaces by id; failure changes nothing |
| TaskStore.TaskStore.DeleteTask | frontend/src/store/taskStore.js:58-68 | success removes by id; failure changes nothing |
| AuthStore.AuthStore.constructor | frontend/src/store/authStore.js:14-18 | no user, not authenticated, not loading, no error |
| AuthStore.AuthStore.Authenticate | frontend/src/store/authStore.js:23-40 | publishes loading with no error; success takes the user and authenticates; failure keeps the user and reports the message or the fallback |
| AuthStore.AuthStore.Login | frontend/src/store/authStore.js:23-40 | as `Authenticate`, with the fallback "Login failed. Please check your credentials." |
| AuthStore.AuthStore.Signup | frontend/src/store/authStore.js:43-57 | as `Authenticate`, with the fallback "Signup failed." |
| AuthStore.AuthStore.VerifyEmail | frontend/src/store/authStore.js:93-109 | as `Authenticate`, with the fallback "Verification failed."; answers true exactly on success |
| AuthStore.AuthStore.Logout | frontend/src/store/authStore.js:60-80 | ends the session on the device whatever the server answers; only the error differs |
| AuthStore.AuthStore.CheckAuth | frontend/src/store/authStore.js:83-90 | success authenticates with the server's user, failure clears the session; loading and error untouched |
| PasswordStrength.GetStrength | frontend/src/components/PasswordStrengthMeter.jsx:40-49 | the strength is the count of checks met, and at most 4 |
| PasswordStrength.ScoreBounds | frontend/src/components/PasswordStrengthMeter.jsx:45-48 | the cap never applies; the fourth point needs a digit and a special character |
| PasswordStrength.DigitAloneAddsNothing | frontend/src/components/PasswordStrengthMeter.jsx:42-45 | appending a digit to any password of eight or more characters without a special character leaves its score unchanged |
| PasswordStrength.SpecialAloneAddsNothing | frontend/src/components/PasswordStrengthMeter.jsx:42-45 | appending a special character to any password of eight or more characters without a digit leaves its score unchanged |
| PasswordStrength.ScoreMonotone | frontend/src/components/PasswordStrengthMeter.jsx:40-49 | appending characters never lowers the score |
| PasswordStrength.Criteria | frontend/src/components/PasswordStrengthMeter.jsx:10-16 | five checks, the digit and the special character separate |
| PasswordStrength.FullScoreIffAllCriteria | frontend/src/components/PasswordStrengthMeter.jsx:10-49 | the meter is full exactly when the whole checklist is ticked |
| PasswordStrength.Color | frontend/src/components/PasswordStrengthMeter.jsx:54-59 | red up to 1, yellow at 2, blue at 3, green from 4 |
| PasswordStrength.StrengthText | frontend/src/components/PasswordStrengthMeter.jsx:62-69 | the label is one of the five texts, and empty exactly for a score outside 0-4 or a zero score on the empty password (with `StrengthTextOfScore`) |
| PasswordStrength.StrengthTextOfScore | frontend/src/components/PasswordStrengthMeter.jsx:62-69 | on the meter's score, the label is empty exactly for the empty password, otherwise Weak, Fair, Good or Strong |
| PasswordStrength.BarWidthPercent | frontend/src/components/PasswordStrengthMeter.jsx:77 | the width is strength/4 of 100 percent, at most 100 |
| EmailVerificationPage.JoinLength | frontend/src/pages/EmailVerificationPage.jsx:51-54 | with one-character cells, the code has length 6 exactly when no cell is empty |
| EmailVerificationPage.JoinOfSingletons | frontend/src/pages/EmailVerificationPage.jsx:42-43 | splitting a string into cells and joining them gives it back |
| EmailVerificationPage.AcceptedValues | frontend/src/pages/EmailVerificationPage.jsx:20 | a cell takes the empty string, one digit or one white-space character, nothing else |
| EmailVerificationPage.VerificationPage.constructor | frontend/src/pages/EmailVerificationPage.jsx:9-17 | six empty cells, the first focused |
| EmailVerificationPage.VerificationPage.HandleChange | frontend/src/pages/EmailVerificationPage.jsx:19-30 | a rejected value changes nothing; an accepted one fills the cell and a non-empty one moves focus forward, except from the last cell |
| EmailVerificationPage.VerificationPage.HandleKeyDown | frontend/src/pages/EmailVerificationPage.jsx:32-36 | backspace on an empty cell after the first moves focus back; cells never change |
| EmailVerificationPage.VerificationPage.HandlePaste | frontend/src/pages/EmailVerificationPage.jsx:38-46 | six leading digits fill the cells in order and focus the last; anything else is ignored |
| EmailVerificationPage.VerificationPage.HandleSubmit | frontend/src/pages/EmailVerificationPage.jsx:49-62 | sends the joined code exactly when all six cells are filled and nothing is loading; navigates home only on success |

## Left out

- Database and network failures are out of scope. This covers the 500 branches of `getTasks`, `createTask` and `updateTask` that only a failing database reaches, and the 500 "Failed to retrieve updated user" branch of `verifyEmail`, which cannot fire after a successful save in one atomic step.
- Concurrency between requests is not modelled: each handler is one atomic step.
- Mail delivery is reduced to `MailOutcome`. The mail templates, the transport and console logging are not modelled.
- Toasts, rendering, routing other than the page's `navigate('/')`, and the animation components are not modelled.
- bcrypt's 72-byte input limit and its real hashing are not modelled: hashes are symbolic.
- `findOne` with an absent `email` is treated as the `null` filter, which matches no stored user.
- Body fields are modelled as strings or absent. A JSON number, array or object in a field is not modelled.
- Lengths and `trim` work on characters, not UTF-16 code units.
- `TaskController.IsValidObjectId` models only the 24-hex-digit form of `ObjectId.isValid`. The 12-character form is left out.
- User ids are modelled as natural numbers.
- `userId.toString() !== req.userId` is modelled as comparing ids.
- `fetchTasks(filters)` sends `filters` as query parameters; the model takes the server's answer as `outcome`.
- The reset expiry path: the controller writes and queries `resetPasswordExpiresAt`, but the schema declares `resetPasswordExpires` (`UserModel.ResetExpiryPathMismatch`). The schema sets no `strict` option, so the assignment is never saved (`AuthController.StrictSaved`). The effect on the query depends on the Mongoose version, which the source does not fix. With `strictQuery` off, the default in versions 5, 7 and 8, the lookup never matches and every reset is refused. With version 6's default, the expiry is dropped from the filter and the token never expires (`AuthController.ResetExpiryNeverSaved`). This is the second Findings row.
- AuthController.ForgotPassword: stores the expiry under the controller's name, which is the intended behaviour of the second Findings row. As written, the expiry is not saved.
- AuthController.ResetPassword: checks the one-hour expiry as intended (`ResetWindowAsIntended`). As written, no Mongoose version enforces it: either every reset is refused or the token never expires.
- AuthScenarios.ForgotThenReset, AuthScenarios.ForgotResetLogin: the 200 for a reset within the hour holds for the intended expiry check. As written, it holds only with `strictQuery` on (Mongoose 6), where a late reset also succeeds.
- `checkAuth` calls `/auth/check-auth`, which backend/routes/auth.route.js does not define. The model takes whatever the request returns as `outcome`.
- `verifyEmail` is not tied to the caller's session: any one user holding the code is verified.
- `TaskController.SortTasks`: tasks equal on every sort key keep their stored order. The database does not promise any particular order for such ties.
- `TaskController.CreateTask` needs a fresh, unused id from the database as a parameter; id generation is not modelled.
- `AuthScenarios.ForgotResetLogin` requires that no user already holds the new reset token. The real token is 160 random bits, so the model takes this as a precondition rather than proving it.

## Findings

| source | as written | input that shows it | evidently intended | confidence | as-written member | corrected member |
|---|---|---|---|---|---|---|
| backend/controllers/task.controller.js:25-30 | priority is sorted on the stored string, so the order is "High" < "Low" < "Medium" | a High task and a Medium task of one user, listed with `sortBy=priority_desc` (what frontend/src/pages/HomePage.jsx:133 labels "Priority (High to Low)"), come back Medium first | High, then Medium, then Low, and the reverse for `priority_asc` | not executed | TaskController.TaskListAsWritten (counterexample: TaskController.PriorityDescAsWrittenPutsMediumFirst) | TaskController.TaskList (TaskController.TaskListOrder) |
| backend/controllers/auth.controller.js:137 | the reset expiry is assigned to `resetPasswordExpiresAt`, a path backend/models/user.model.js:26 does not declare (it declares `resetPasswordExpires`), so strict mode never saves it; the lookup at auth.controller.js:158-161 then never matches without `strictQuery`, and ignores the expiry with it | a user asks for a reset at t0 and uses the link at t0 + 1 s: refused with 400 under Mongoose 5, 7 or 8; under Mongoose 6 a link used at t0 + 2 h is still accepted | the token is accepted exactly during the hour after the request | not executed | AuthController.ResetFilterAsWritten with AuthController.StrictSaved (counterexample: AuthController.ResetExpiryNeverSaved) | AuthController.FindByResetToken (AuthController.ResetWindowAsIntended, AuthScenarios.ResetFindsRequester); used by AuthController.ResetPassword |
