# Todo-Mern backend core in Dafny

This project models the decision logic of the Todo-Mern backend (an Express
and MongoDB to-do service with a user side and an admin side), and the
task-list reducer of its React client. It covers:

- the request validator and the user and task schemas it checks;
- the `AppError` class, the `notFound` middleware and the global `errorHandler`;
- the four authentication gates (`protect`, `adminOnly`, `requireAuth`,
  `requireAdminAuth`) and the route tables that chain them;
- the user task handlers, with ownership checks;
- the admin handlers, with no ownership checks;
- the admin model: default-superadmin seeding, the superadmin password reset
  and the password comparison;
- the client `taskReducer`.

The three MongoDB collections are maps from document id to record, held by
the class `Store.Database`. Handlers that change them are methods with
`modifies db`. The four user task handlers, `CreateUser`, `DeleteUser`,
`CreateTask`, `ChangeAdminPassword` and `createDefaultAdmin` are proved equal
to pure outcome functions, and the properties are stated on those functions.
`UpdateUser`, the admin `UpdateTask`, `DeleteTask`, `ToggleTaskStatus` and both
`resetSuperAdminPassword`s state their answer and the new store directly in
their `ensures`. `Store.Database.Valid()` joins the two invariants of the
store: every task has a stored owner, and admin emails are unique. Every
handler ensures `old(db.Valid()) ==> db.Valid()`. It is not a precondition,
because the handlers also run on a store that breaks it (a task handler
whose caller has no user record answers 500, and the model keeps that path).

The gates work on a `Requests.Request` object whose fields (`user`, `admin`,
`isAdmin`, `token`) they assign. Each gate is a method proved equal to a
step function on the request's state. `Routing.RunGuards` runs a route's
guards left to right.

bcrypt is modelled as an injective `Hash` with `Matches(c, Hash(p)) <==> c == p`.
jsonwebtoken is modelled as two function parameters, `sign` and `verify`.
The assumptions about them are gathered in `IssuerSound`: a signed token is
non-empty and contains no space, and it verifies to its own id and admin flag. The four regular expressions
of the schemas are written out as character predicates in module `Patterns`.

Modules, one per source file:

- `JsValues`, `Credentials`, `Store`, `Requests`, `Routing` and `Patterns`
  are shared helpers.
- `Validator`, `UserSchema`, `TaskSchema`, `ErrorHandler`, `AuthMiddleware`,
  `RequireAuth`, `RequireAdminAuth`, `AdminRoute`, `TaskRoute`,
  `TaskController`, `AdminController`, `AdminModel` and `TaskReducer` follow
  the source files of the same names.

## Model

| member | source | states |
|---|---|---|
| JsValues.SecondPiece | Todo-Mern/backend/middleware/authMiddleware.js:16 | `split(' ')[1]` is `undefined` exactly when the string has no space, and a defined second piece never contains a space |
| JsValues.SecondPieceOfJoined | Todo-Mern/backend/middleware/authMiddleware.js:16 | a header `scheme + " " + token` with no space in either part splits back into exactly `token` |
| Credentials.MatchesIff | Todo-Mern/backend/models/adminModel.js:76-78 | `bcrypt.compare` accepts a candidate against `hash(p)` exactly when the candidate is `p` |
| Credentials.CreatedTokenVerifies | Todo-Mern/backend/controllers/adminController.js:10-14 | a created token verifies to its id, and to an admin flag that is true unless `false` was passed |
| Store.TasksOf | Todo-Mern/backend/controllers/taskController.js:326 | `find({ userId })` holds exactly the tasks of that user, unchanged |
| Store.TasksNotOf | Todo-Mern/backend/controllers/adminController.js:205 | after `deleteMany({ userId })` exactly the other users' tasks remain, unchanged |
| Store.TasksSplit | Todo-Mern/backend/controllers/adminController.js:205 | a user's tasks and the rest partition the store |
| Store.Database.constructor | Todo-Mern/backend/models/adminModel.js:9-13 | an empty store satisfies both invariants, owned tasks and unique admin emails |
| Requests.Request.constructor | Todo-Mern/backend/middleware/requireAuth.js:6 | a fresh request carries only its header |
| Patterns.EmailHasOneAt | Todo-Mern/backend/schemas/userSchema.js:16 | an address the email pattern accepts holds exactly one '@' |
| Patterns.EmailFromParts | Todo-Mern/backend/schemas/userSchema.js:16 | any local part, domain and 2-6 letter top-level domain from the allowed characters form an accepted address |
| Validator.RuleErrors | Todo-Mern/backend/middleware/validator.js:63-91 | every error drawn by one property's rules names that property |
| Validator.TypeTagsExclusive | Todo-Mern/backend/middleware/validator.js:105-120 | no value passes two known type tags, and `null`, `undefined` and `NaN` pass none: 'number' rejects NaN, 'object' rejects null and arrays |
| Validator.UnknownTagAcceptsAll | Todo-Mern/backend/middleware/validator.js:117-118 | a type tag the switch does not know accepts every value |
| Validator.EveryValueHasOneTag | Todo-Mern/backend/middleware/validator.js:105-120 | every value other than `null`, `undefined` and `NaN` passes some known tag, hence exactly one |
| Validator.PushRuleErrors | Todo-Mern/backend/middleware/validator.js:63-91 | throws exactly when a 'string' rule with a truthy bound reads the length of `null`; otherwise appends exactly that value's rule errors, in the order type, length, range, pattern |
| Validator.PushLengthErrors | Todo-Mern/backend/middleware/validator.js:69-76 | throws the `null.length` TypeError exactly for a `null` under a 'string' rule with a truthy bound; otherwise appends exactly the length errors, which only such a rule can produce |
| Validator.PushRangeErrors | Todo-Mern/backend/middleware/validator.js:79-86 | appends exactly the range errors, which only a 'number' rule with a defined bound can produce |
| Validator.CollectMissing | Todo-Mern/backend/middleware/validator.js:51-57 | the loop over `required` yields the required-field errors in list order |
| Validator.CollectPropertyErrors | Todo-Mern/backend/middleware/validator.js:60-94 | the loop throws iff some declared property reads the length of `null`; otherwise it appends the properties' errors in declaration order |
| Validator.PushValueErrors | Todo-Mern/backend/middleware/validator.js:61-62 | an undefined value adds nothing; a defined one throws on a `null` length read and otherwise adds its rule errors |
| Validator.ValidateData | Todo-Mern/backend/middleware/validator.js:47-97 | throws the `null.length` TypeError iff a property reads it; otherwise returns `{value: data}` with the data unchanged exactly when no error arose, else exactly the required errors, then the property errors |
| Validator.FormatErrors | Todo-Mern/backend/middleware/validator.js:127-135 | the loop builds the field-to-message fold of the error list |
| Validator.FormattedKeys | Todo-Mern/backend/middleware/validator.js:127-135 | the formatted map has exactly one entry per failing field |
| Validator.FormattedKeepsLast | Todo-Mern/backend/middleware/validator.js:130-132 | a field's entry holds the message of its last error, so a later error overwrites an earlier one |
| Validator.RequiredErrorIff | Todo-Mern/backend/middleware/validator.js:51-57 | there is a required error for a field iff the field is listed and undefined, and each such error reads "`<field>` is required" |
| Validator.RequiredErrorsEmptyIff | Todo-Mern/backend/middleware/validator.js:51-57 | the required check passes iff every listed field is defined |
| Validator.PropertyErrorsEmptyIff | Todo-Mern/backend/middleware/validator.js:60-94 | the property check passes iff every declared property is undefined or satisfies its rules |
| Validator.UndefinedSkipsRules | Todo-Mern/backend/middleware/validator.js:61-62 | a property error only ever concerns a defined value of a declared property |
| Validator.DataErrorsEmptyIff | Todo-Mern/backend/middleware/validator.js:47-97 | `validateData` accepts iff every required field is defined and every property passes |
| Validator.StringRuleVerdict | Todo-Mern/backend/middleware/validator.js:64-91 | a 'string' rule accepts exactly strings within its truthy length bounds that match its pattern, so a `minLength` of 0 is never enforced |
| Validator.BooleanRuleVerdict | Todo-Mern/backend/middleware/validator.js:111-112 | a bare 'boolean' rule accepts exactly booleans |
| Validator.RuleErrorsIgnoreEnum | Todo-Mern/backend/middleware/validator.js:63-91 | removing a rule's `enum` list changes none of its errors |
| Validator.EnumsIgnored | Todo-Mern/backend/middleware/validator.js:60-94 | `enum` lists are never consulted: dropping all of them changes no property error |
| Validator.ValidatePart | Todo-Mern/backend/middleware/validator.js:13-28 | a part whose validation throws propagates the throw and records nothing; a defined part that fails records its formatted errors under its key; anything else leaves the map unchanged |
| Validator.Validate | Todo-Mern/backend/middleware/validator.js:8-37 | a part that throws is forwarded as the TypeError; otherwise rejects with `AppError('Validation error', 400)` iff a part the schema defines has errors, else calls `next()`; the per-part map is not passed on |
| Validator.ThrowingDataIsInvalid | Todo-Mern/backend/middleware/validator.js:64-76 | a value that makes the loop throw also fails its type check, so thrown data would never have been valid |
| Validator.ThrownValidationIs500 | Todo-Mern/backend/middleware/validator.js:69-76 | the `null.length` TypeError reaches the client as 500, with the generic message outside development, where a failed validation is a 400 |
| UserSchema.NamePasses | Todo-Mern/backend/schemas/userSchema.js:9-13 | a name passes iff it is absent or a string of 2 to 50 characters |
| UserSchema.EmailPasses | Todo-Mern/backend/schemas/userSchema.js:14-18 | an email passes iff it is absent or a string the email pattern accepts |
| UserSchema.PasswordPasses | Todo-Mern/backend/schemas/userSchema.js:19-23 | a password passes iff it is absent or a string of 6 to 100 characters |
| UserSchema.TokenPasses | Todo-Mern/backend/schemas/userSchema.js:63-65 | the reset token is only required to be a string |
| UserSchema.RegisterAccepts | Todo-Mern/backend/schemas/userSchema.js:5-26 | registration accepts iff name, email and password are all present and well formed |
| UserSchema.LoginAccepts | Todo-Mern/backend/schemas/userSchema.js:28-44 | login accepts iff email and password are present and well formed |
| UserSchema.ForgotPasswordAccepts | Todo-Mern/backend/schemas/userSchema.js:46-57 | the forgot-password body accepts iff its email is present and well formed |
| UserSchema.ResetPasswordAccepts | Todo-Mern/backend/schemas/userSchema.js:59-73 | the reset body accepts iff the token is a string and the password is present and well formed |
| UserSchema.UpdateProfileAccepts | Todo-Mern/backend/schemas/userSchema.js:75-90 | a profile update accepts iff each of name and email is absent or well formed |
| UserSchema.EmptyProfileUpdatePasses | Todo-Mern/backend/schemas/userSchema.js:75-90 | an empty profile update passes |
| UserSchema.MissingPasswordReported | Todo-Mern/backend/schemas/userSchema.js:7 | a registration without a password draws "password is required" |
| UserSchema.RegisterThrowsIff | Todo-Mern/backend/schemas/userSchema.js:9-23 | validating a registration body throws iff `name` or `password` is `null`; a `null` email does not throw, since its rule has no length bound |
| TaskSchema.TitlePasses | Todo-Mern/backend/schemas/taskSchema.js:9-13 | a title passes iff it is absent or a string of 1 to 100 characters |
| TaskSchema.OptionalFieldsPass | Todo-Mern/backend/schemas/taskSchema.js:14-33 | the other task fields pass iff description is at most 500 characters, completed is a boolean, category is at most 50 characters, dueDate is an ISO date and priority is any string, each when present |
| TaskSchema.TaskBodyThrowsIff | Todo-Mern/backend/schemas/taskSchema.js:9-24 | validating a task body throws iff `title`, `description` or `category` is `null`, the three string fields with a length bound |
| TaskSchema.CreateTaskAccepts | Todo-Mern/backend/schemas/taskSchema.js:5-36 | a new task needs only a 1-100 character title, with the optional fields well formed |
| TaskSchema.UpdateTaskBodyAccepts | Todo-Mern/backend/schemas/taskSchema.js:49-77 | an update body needs no field at all |
| TaskSchema.PriorityEnumNotEnforced | Todo-Mern/backend/schemas/taskSchema.js:30-33 | any string priority is accepted, not only low, medium or high |
| TaskSchema.TaskIdAccepts | Todo-Mern/backend/schemas/taskSchema.js:39-47 | an id parameter passes iff it is present and matches the ObjectId pattern |
| TaskSchema.TaskIdIsTwentyFourHex | Todo-Mern/backend/schemas/taskSchema.js:44 | the accepted ids are exactly the strings of 24 hexadecimal digits |
| TaskSchema.GetTasksAccepts | Todo-Mern/backend/schemas/taskSchema.js:106-136 | the list query takes only optional strings, page and limit must be digit strings, and the enums are not enforced |
| TaskSchema.QueryStringsPass | Todo-Mern/backend/schemas/taskSchema.js:109-123 | completed, category, priority and sort pass iff each is absent or a string |
| TaskSchema.QueryNumbersPass | Todo-Mern/backend/schemas/taskSchema.js:124-133 | page and limit pass iff each is absent or a non-empty digit string |
| TaskSchema.BadPageReported | Todo-Mern/backend/schemas/taskSchema.js:124-128 | a page that is not a digit string draws 'Page must be a positive integer' |
| ErrorHandler.StatusFor | Todo-Mern/backend/middleware/errorHandler.js:10 | `AppError.status` is 'fail' or 'error' |
| ErrorHandler.StatusFailIffLeadingFour | Todo-Mern/backend/middleware/errorHandler.js:10 | for a code of k+1 digits, status is 'fail' iff the code lies in [4·10^k, 5·10^k), so 400-499 are 'fail' and 500-599 are 'error' |
| ErrorHandler.NonPositiveStatusIsError | Todo-Mern/backend/middleware/errorHandler.js:10 | zero and negative codes give 'error' |
| ErrorHandler.NotFound | Todo-Mern/backend/middleware/errorHandler.js:18-21 | an unmatched route always becomes a 404 'fail' operational error naming the URL |
| ErrorHandler.Classified | Todo-Mern/backend/middleware/errorHandler.js:25-47 | the reported error always has a code and status; a translated error is an operational `AppError` |
| ErrorHandler.Respond | Todo-Mern/backend/middleware/errorHandler.js:24-73 | code 11000 and ValidationError give 400, JWT errors give 401; otherwise an operational error, or any error in development, keeps its message and code (500 when missing); outside development every other error is 500 'Something went wrong' |
| ErrorHandler.HandleError | Todo-Mern/backend/middleware/errorHandler.js:24-73 | the step-by-step handler sends exactly the response the decision table gives |
| ErrorHandler.AppErrorKeepsStatus | Todo-Mern/backend/middleware/errorHandler.js:49-65 | an `AppError` with a non-zero code reaches the client with that code and message in every environment |
| ErrorHandler.PlainErrorIs500 | Todo-Mern/backend/middleware/errorHandler.js:25 | a plain `Error` reaches the client as 500, outside development with the generic message |
| AuthMiddleware.ProtectStep | Todo-Mern/backend/middleware/authMiddleware.js:7-44 | 401 'no token' without a bearer header, 401 'token failed' when verification fails; else passes, and an admin claim loads `req.admin` with `isAdmin = true` while a user claim loads `req.user` with `isAdmin = false`, `null` when not stored |
| AuthMiddleware.Protect | Todo-Mern/backend/middleware/authMiddleware.js:7-44 | the imperative gate decides and assigns the request fields exactly as `ProtectStep` |
| AuthMiddleware.AdminOnly | Todo-Mern/backend/middleware/authMiddleware.js:47-54 | the gate's decision is `AdminOnlyStep` of the request |
| AuthMiddleware.AdminOnlyNever401 | Todo-Mern/backend/middleware/authMiddleware.js:47-54 | `adminOnly` never answers 401; its only refusal is 403 |
| AuthMiddleware.NonBearerRefused | Todo-Mern/backend/middleware/authMiddleware.js:10-43 | every header that is missing, empty or does not start with 'Bearer' ('Basic' included) is refused with 401 'no token' and nothing is attached |
| AuthMiddleware.ProtectThenAdminOnly | Todo-Mern/backend/middleware/authMiddleware.js:10-54 | `protect` then `adminOnly` lets a request through iff it carries a bearer header whose token verifies with `isAdmin` set; `protect` refuses with 401, `adminOnly` with 403 |
| AuthMiddleware.IssuedAdminTokenPasses | Todo-Mern/backend/middleware/authMiddleware.js:22-32 | a token issued for an admin id passes `protect` and `adminOnly` even when that admin no longer exists (`req.admin` is `null`) |
| AuthMiddleware.IssuedUserTokenRefusedByAdminOnly | Todo-Mern/backend/middleware/authMiddleware.js:26-30 | a user token passes `protect` and is refused by `adminOnly` with 403 |
| AuthMiddleware.ThrownRefusalIs500 | Todo-Mern/backend/server.js:66-67 | as written, every refusal by these gates reaches the client as 500 |
| AuthMiddleware.ForwardedRefusalKeepsStatus | Todo-Mern/backend/server.js:66-67 | forwarded as an `AppError`, a refusal keeps its 401 or 403 and its message |
| RequireAuth.RequireAuthStep | Todo-Mern/backend/middleware/requireAuth.js:5-21 | refusals are 401 and leave the request untouched, with the login message iff the header is missing or empty; it passes iff the header is truthy and its second word (or "undefined") verifies, and then `req.user` is exactly the decoded claims and `req.token` the token |
| RequireAuth.RequireAuth | Todo-Mern/backend/middleware/requireAuth.js:5-22 | the imperative gate decides and assigns exactly as `RequireAuthStep` |
| RequireAuth.IssuedTokenPasses | Todo-Mern/backend/middleware/requireAuth.js:15-18 | every issued token passes whatever word precedes it, admin tokens included, since `isAdmin` is not inspected |
| RequireAuth.NoSpaceHeaderVerifiesUndefined | Todo-Mern/backend/middleware/requireAuth.js:11 | a header without a space yields the token string "undefined", so it passes iff the verifier accepts that string |
| RequireAuth.RefusalReaches401 | Todo-Mern/backend/middleware/requireAuth.js:20 | the forwarded refusals reach the client as 401 |
| RequireAdminAuth.RequireAdminAuthStep | Todo-Mern/backend/middleware/requireAdminAuth.js:5-36 | 401 without a header, 401 on a failed verification, 403 for a token without `isAdmin`, 401 for an unknown admin; else `req.admin` is the stored record and `req.token` the token |
| RequireAdminAuth.RequireAdminAuth | Todo-Mern/backend/middleware/requireAdminAuth.js:5-36 | the imperative gate decides and assigns exactly as `RequireAdminAuthStep` |
| RequireAdminAuth.PassMeansStoredAdmin | Todo-Mern/backend/middleware/requireAdminAuth.js:23-32 | passing means a verified admin token whose admin exists, with the full record (hash included) attached |
| RequireAdminAuth.UserTokenGets403 | Todo-Mern/backend/middleware/requireAdminAuth.js:18-20 | a valid user token is refused with 403, not 401 |
| RequireAdminAuth.RefusalOrder | Todo-Mern/backend/middleware/requireAdminAuth.js:15-27 | the checks run in order: a 403 implies a verified token, and 'Admin account not found' implies a verified admin token |
| Routing.RunGuards | Todo-Mern/backend/routes/adminRoute.js:30 | no guards means the handler runs on the untouched request; a refusal always comes from one of the route's guards |
| Routing.RefusalStatusNonZero | Todo-Mern/backend/routes/adminRoute.js:30-48 | a chain of guards only ever refuses with 401 or 403 |
| Routing.IntendedStatusIsGuardStatus | Todo-Mern/backend/server.js:66-67 | with refusals forwarded as `AppError`s, the client sees the refusing guard's own status |
| AdminRoute.GuardTable | Todo-Mern/backend/routes/adminRoute.js:24-48 | exactly POST /login and POST /reset-superadmin are unguarded; every other route runs `protect` then `adminOnly` |
| AdminRoute.NoTokenStopsAtProtect | Todo-Mern/backend/routes/adminRoute.js:30-48 | without a bearer header a guarded route stops at `protect` with 401 'no token', which the client sees as 500 |
| AdminRoute.UserTokenRefusedByGuards | Todo-Mern/backend/middleware/authMiddleware.js:10-54 | under `protect` then `adminOnly` a user token is refused by `adminOnly` with 403, which the client sees as 500 |
| AdminRoute.UserTokenRefusedOnGuardedRoutes | Todo-Mern/backend/routes/adminRoute.js:30-48 | a user token is refused by `adminOnly` with 403 on every guarded route, task update, delete and toggle included; the client sees 500, intended 403 |
| AdminRoute.AdminTokenReachesHandler | Todo-Mern/backend/routes/adminRoute.js:24-48 | an admin token reaches every handler flagged as admin, even after that admin was removed |
| TaskRoute.GuardTable | Todo-Mern/backend/routes/taskRoute.js:13-17 | the five task routes run `requireAuth` and nothing else: no validation, no admin check |
| TaskRoute.RefusalIs401 | Todo-Mern/backend/routes/taskRoute.js:13-17 | a refused task request reaches the client as 401 |
| TaskRoute.IssuedTokenReachesHandler | Todo-Mern/backend/routes/taskRoute.js:13-17 | any issued token, admin tokens included, reaches every task handler with its claims as `req.user` |
| TaskController.AddTaskOutcome | Todo-Mern/backend/controllers/taskController.js:263-290 | 404 without a change for an unknown caller; otherwise the new task is stored under a fresh id and nothing else changes |
| TaskController.RemoveTaskOutcome | Todo-Mern/backend/controllers/taskController.js:292-321 | 404 for a missing task, then 403 for another owner, each without a change; otherwise exactly that task is deleted |
| TaskController.UpdateTaskOutcome | Todo-Mern/backend/controllers/taskController.js:333-365 | 404, then 403, each without a change; otherwise only that task's three fields are rewritten |
| TaskController.EditedProperties | Todo-Mern/backend/controllers/taskController.js:349-353 | the user update keeps owner and completion, an empty body changes nothing, and repeating an update changes nothing more |
| TaskController.MarkDoneOutcome | Todo-Mern/backend/controllers/taskController.js:367-399 | 404, then 403, each without a change; otherwise only that task's `completed` flips |
| TaskController.AddTask | Todo-Mern/backend/controllers/taskController.js:263-290 | the handler changes the task store exactly as `AddTaskOutcome`, and nothing else |
| TaskController.RemoveTask | Todo-Mern/backend/controllers/taskController.js:292-321 | the handler changes the task store exactly as `RemoveTaskOutcome` |
| TaskController.GetTask | Todo-Mern/backend/controllers/taskController.js:323-331 | returns exactly the caller's tasks, with status 200 |
| TaskController.UpdateTask | Todo-Mern/backend/controllers/taskController.js:333-365 | the handler changes the task store exactly as `UpdateTaskOutcome` |
| TaskController.MarkDone | Todo-Mern/backend/controllers/taskController.js:367-399 | the handler changes the task store exactly as `MarkDoneOutcome` |
| TaskController.HandlersKeepTasksOwned | Todo-Mern/backend/controllers/taskController.js:263-399 | every user task handler keeps each task owned by a stored user |
| TaskController.OwnedStoreAnswers200 | Todo-Mern/backend/controllers/taskController.js:309-317 | while every task has a stored owner, a change that passed the ownership check is answered 200 |
| TaskController.MarkDoneTwice | Todo-Mern/backend/controllers/taskController.js:383-387 | marking the same task done twice restores the store |
| TaskController.NonOwnerChangesNothing | Todo-Mern/backend/controllers/taskController.js:304-306 | a caller who does not own the task changes nothing |
| AdminController.AdminLogin | Todo-Mern/backend/controllers/adminController.js:17-56 | 400 for a missing field; a wrong email and a wrong password give the same 401; success iff the credentials match a stored admin, and then an admin token for that account |
| AdminController.CreateUserOutcome | Todo-Mern/backend/controllers/adminController.js:114-151 | 400 for a missing field, 400 for a taken email, each without a change; otherwise the user is stored with a hash of the password |
| AdminController.CreateUser | Todo-Mern/backend/controllers/adminController.js:114-151 | the handler changes the user store exactly as `CreateUserOutcome` |
| AdminController.UpdateUser | Todo-Mern/backend/controllers/adminController.js:154-190 | 404 without a change for an unknown id; otherwise only that user becomes `UpdatedUser` |
| AdminController.UpdatedUserProperties | Todo-Mern/backend/controllers/adminController.js:167-174 | an update with no truthy field changes nothing; with a truthy password exactly that password matches afterwards, without one the old password still matches; repeating an update changes nothing more |
| AdminController.DeleteUserOutcome | Todo-Mern/backend/controllers/adminController.js:193-211 | 404 without a change for an unknown id; otherwise the user and every task of that user are removed, and all other tasks are kept |
| AdminController.DeleteUser | Todo-Mern/backend/controllers/adminController.js:193-211 | the handler changes both stores exactly as `DeleteUserOutcome` |
| AdminController.DeleteUserKeepsTasksOwned | Todo-Mern/backend/controllers/adminController.js:204-205 | the cascade keeps every task owned by a stored user |
| AdminController.DeleteWithoutCascadeOrphans | Todo-Mern/backend/controllers/adminController.js:204-205 | without the cascade, deleting a user who has a task would break that invariant |
| AdminController.CreateTaskOutcome | Todo-Mern/backend/controllers/adminController.js:224-254 | 400 without title or userId, 404 for an unknown user; success iff both are given and the user exists, and then the task is stored for that user under 'others' by default |
| AdminController.CreateTaskKeepsTasksOwned | Todo-Mern/backend/controllers/adminController.js:224-254 | an admin-created task belongs to a stored user, so every task stays owned |
| AdminController.CreateTask | Todo-Mern/backend/controllers/adminController.js:224-254 | the handler changes the task store exactly as `CreateTaskOutcome` |
| AdminController.UpdateTask | Todo-Mern/backend/controllers/adminController.js:256-283 | no ownership check: only a missing task gives 404; otherwise that task becomes `AdminEdited` |
| AdminController.DeleteTask | Todo-Mern/backend/controllers/adminController.js:285-301 | no ownership check: only a missing task gives 404; otherwise exactly that task goes |
| AdminController.ToggleTaskStatus | Todo-Mern/backend/controllers/adminController.js:303-326 | no ownership check: only a missing task gives 404; otherwise exactly that task's `completed` flips |
| AdminController.AdminTaskEditsKeepOwner | Todo-Mern/backend/controllers/adminController.js:268-316 | the admin task edits never change a task's owner; an edit with no truthy title or category and no defined description or completed changes nothing; repeating an edit changes nothing more |
| AdminController.ChangePasswordOutcome | Todo-Mern/backend/controllers/adminController.js:381-416 | 400 for a missing field, a `TypeError` for a `null` `req.admin`, 404 for an unknown admin, 401 for a wrong current password, each with the hash unchanged; otherwise only that admin's hash is replaced |
| AdminController.ChangeAdminPassword | Todo-Mern/backend/controllers/adminController.js:381-416 | the handler changes the admin store exactly as `ChangePasswordOutcome` |
| AdminController.ChangedPasswordTakesEffect | Todo-Mern/backend/controllers/adminController.js:399-410 | after a successful change the new password matches and a different old one no longer does |
| AdminController.MissingAdminIs500 | Todo-Mern/backend/controllers/adminController.js:392 | reading `_id` of a `null` `req.admin` reaches the client as 500 |
| AdminController.ResetSuperAdminPassword | Todo-Mern/backend/controllers/adminController.js:418-446 | 400 for a missing field and 401 for a wrong key, each without a change; success iff the key matches and a superadmin exists, and then only that superadmin's hash changes |
| AdminModel.CreateDefaultAdmin | Todo-Mern/backend/models/adminModel.js:28-48 | the static changes the admin store exactly as `DefaultAdminOutcome`, and nothing else |
| AdminModel.SeedingResult | Todo-Mern/backend/models/adminModel.js:32-41 | after seeding there is an admin; a fresh store holds exactly one superadmin, who logs in with 'admin123'; unique emails stay unique |
| AdminModel.SeedingIdempotent | Todo-Mern/backend/models/adminModel.js:30-32 | seeding twice is seeding once |
| AdminModel.WithPassword | Todo-Mern/backend/models/adminModel.js:65-66 | only the chosen admin's hash is replaced; every other admin stays |
| AdminModel.WithPasswordKeepsEmails | Todo-Mern/backend/models/adminModel.js:65-66 | replacing a hash keeps every admin's email and role, so unique emails stay unique |
| AdminModel.ResetSuperAdminPassword | Todo-Mern/backend/models/adminModel.js:51-73 | `{ success: false }` without a change iff there is no superadmin; otherwise one superadmin's hash is replaced |
| AdminModel.ResetTouchesOnlySuperAdmin | Todo-Mern/backend/models/adminModel.js:60-66 | a reset keeps the roles, the emails and every 'admin' record, and the new password matches |
| AdminModel.ComparePasswordIff | Todo-Mern/backend/models/adminModel.js:76-78 | `comparePassword` is true iff the candidate is the password the hash was made from |
| TaskReducer.WithoutId | Todo-Mern/frontend/src/reducers/taskReducer.js:8 | the filter keeps exactly the tasks with another id and never grows the list |
| TaskReducer.Replaced | Todo-Mern/frontend/src/reducers/taskReducer.js:10-12 | the map keeps the length and every id in place, puts the payload where its id was, and leaves the rest unchanged |
| TaskReducer.Toggled | Todo-Mern/frontend/src/reducers/taskReducer.js:14-16 | the map flips `completed` on the matching tasks and leaves the rest unchanged |
| TaskReducer.Reduce | Todo-Mern/frontend/src/reducers/taskReducer.js:1-20 | ADD grows the list by one, REMOVE never grows it, UPDATE and MARK_DONE keep its length |
| TaskReducer.SetIgnoresState | Todo-Mern/frontend/src/reducers/taskReducer.js:3-4 | SET_TASK returns the payload whatever the state was |
| TaskReducer.AddAppends | Todo-Mern/frontend/src/reducers/taskReducer.js:5-6 | ADD_TASK keeps the old list as a prefix and puts the new task last |
| TaskReducer.WithoutIdDistributes | Todo-Mern/frontend/src/reducers/taskReducer.js:7-8 | REMOVE_TASK keeps order: filtering a concatenation filters each part |
| TaskReducer.WithoutAbsentId | Todo-Mern/frontend/src/reducers/taskReducer.js:7-8 | removing an id that no task has leaves the list as it is |
| TaskReducer.RemoveDropsExactly | Todo-Mern/frontend/src/reducers/taskReducer.js:5-8 | REMOVE_TASK drops exactly the tasks with that id, and undoes an ADD_TASK of a task with a fresh id |
| TaskReducer.UpdateProperties | Todo-Mern/frontend/src/reducers/taskReducer.js:9-12 | UPDATE_TASK keeps the length and the ids, holds the payload when its id was present, and is idempotent |
| TaskReducer.MarkDoneTwice | Todo-Mern/frontend/src/reducers/taskReducer.js:13-16 | MARK_DONE twice with the same id restores the list |
| TaskReducer.MarkDoneFlipsOnlyMatching | Todo-Mern/frontend/src/reducers/taskReducer.js:13-16 | MARK_DONE flips `completed` only on matching ids and changes no other field |
| TaskReducer.UnknownIsIdentity | Todo-Mern/frontend/src/reducers/taskReducer.js:17-18 | an unknown action type returns the state unchanged |

## Left out

- Email notifications (`sendMail`, `sendEmailInBackground`): nodemailer I/O run in the background. Only the lookup of the caller's address is kept, because it can fail.
- `getDashboardStats`, `getAllUsers`, `getAllTasks`, `getAdminProfile` and `updateAdminProfile`: read-only listings and profile edits outside the modelled decision logic. Their routes appear in the guard table.
- userController.js, forgotPasswordController.js, userModel.js and taskModel.js are not part of this model. The self-service reset-token lifecycle and user login live there. Users and tasks are plain records here.
- server.js wiring, config.js, logger.js, the migration and all React components: connection set-up, logging and UI.
- Mongoose specifics: ObjectId cast failures (a malformed id answers 500), concurrency, atomicity and `timestamps`. A store lookup is a map lookup.
- TaskController.Edited: `findByIdAndUpdate` with undefined fields is modelled as leaving those fields untouched. Mongoose drops undefined keys from an update; `null` values are not modelled.
- Credentials.Hash: bcrypt salts and its 72-byte truncation are not modelled; the hash is injective.
- jsonwebtoken internals: the one-day expiry, the clock and the secret are left out. `verify` is a parameter, so an expired token is just one `verify` refuses.
- The plain `!==` comparison of the reset key is modelled as equality, without its timing.
- JsValues.Value: numbers are integers plus `NaN`. Fractional numbers are not modelled, and a string's length counts code points, not UTF-16 units.
- RequireAdminAuth.RequireAdminAuth: no route mounts this gate, so it is modelled on its own and not in any route table.
- AdminModel.ResetSuperAdminPassword: with several superadmins, `findOne` picks one whose choice the model leaves open. The contract says only that exactly one superadmin's hash is replaced.
- AdminController.AdminLogin: assumes the unique index on admin emails, so `findOne({ email })` has at most one match. Every handler that writes admins keeps that invariant.
- AdminController.AdminLogin: body fields are modelled as strings or absent. A JSON object such as `{"$ne": null}` in `email` would become a MongoDB query operator in `findOne`; such operator injection is not modelled. The same holds for every handler that passes a body field to a query.
- Validator.ValidateData: JavaScript's `<` and `>` coerce their operands, so a range rule applied to a non-number (say `null < 5`) compares after coercion; the model only compares integers, and a non-number never draws a range error. A value that is an object with its own `length` key is also not modelled: its `length` would be read like a string's.
- Validator.PushRangeErrors: range checks on non-numbers are not modelled, for the coercion reason above; no schema in the repository declares a `minimum` or `maximum` at all.
- Validator.PushLengthErrors: strings and arrays are measured and `null` throws; a number or boolean has no `length`, which compares as `undefined` and draws no error, as in the model. An object with its own `length` key is measured by that key in JavaScript and is not modelled.
- ErrorHandler.Classified: an 11000 error always carries a key list here. The source's `Object.keys(err.keyValue)` throws inside the handler when `keyValue` is missing; that path is not modelled.
- Regular-expression evaluation is not general. Each of the four patterns in the schemas is written out as a character predicate.

## Findings

| source | as written | input that shows it | evidently intended | confidence | as-written member | corrected member |
|---|---|---|---|---|---|---|
| Todo-Mern/backend/middleware/authMiddleware.js:35-36 | `protect` and `adminOnly` call `res.status(401)` or `res.status(403)`, then throw a plain `Error`. `errorHandler` sets `err.statusCode = err.statusCode \|\| 500` and answers with that code (`Todo-Mern/backend/middleware/errorHandler.js:25`), so the status set on the response is lost. Outside development the error is also non-operational, so the client gets 500 'Something went wrong' | a request to PUT /api/admin/tasks/:id carrying a valid user token: `adminOnly` refuses with 403, and the client receives 500 | the refusal reaches the client as 401 or 403 with the gate's own message, as `requireAuth` does by forwarding an `AppError` | not executed | AuthMiddleware.ThrownRefusalIs500, AdminRoute.UserTokenRefusedByGuards, AdminRoute.UserTokenRefusedOnGuardedRoutes | AuthMiddleware.ForwardedRefusalKeepsStatus, Routing.IntendedStatusIsGuardStatus |
