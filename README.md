# Poetry website: controller and user-table model

This project models the request handlers of the poetry website's three controllers and its `users` table, in Dafny.
- **AuthController:** registration and login forms, `login`, `logout`.
- **UserController:** registration, the admin user list, delete and admin toggle, the user profile.
- **PoemController:** poems, comments and likes.
- **`User` model:** the `users` table.

Each handler is a method over three things:
- a `Request`: the parsed form body, the query string, the numeric path ids and the session;
- a `Response`: the cookies set so far and the one envelope sent;
- the results of its database calls.

A handler's postcondition names the envelope it sends for every combination of guards and results. This covers:
- login gates, admin gates and owner-or-admin rules;
- input and id validation;
- the session keys and cookies it changes;
- for the poem, comment, like and category models, the sequence of database calls it makes. `getUserProfile`'s per-like poem reads and its `likePoems` payload key are the exception (see "Left out").

The user table is a class over the sequence of its rows. Its invariant says emails are unique and ids are serial and ascending. Every operation on it keeps that invariant.

The modules are:
- `Wrappers`: `Option` and `Result`.
- `JsValue`: the JavaScript values the handlers manipulate. It defines truthiness, `===`, `||`, optional chaining on props, and the text a template literal inserts, with injectivity of number texts.
- `Http`: status codes, the reply envelope, cookies, the `Session` and `Response` classes, and the `Request` record.
- `Persistence`: the result of a model call (`Got` or `Threw`) and the trace of database calls.
- `UserModel`: the `users` table.
- `Routes`: route tables and first-match dispatch over them.
- `AuthController`, `UserController`, `PoemController`: the handlers and their route tables.

The source quirks below are modelled as written:
- `updatePoem` writes the changes before it checks ownership.
- `updatePoem` and `deletePoem` refuse only when `isAdmin === false`.
- `updateComment` and `deleteComment` redirect to `/poems/<comment id>`.
- `deleteComment` answers OK on a failed read.
- The likes route is registered without its leading slash. Assuming the router splits a path at `/` and keeps the empty first segment, no request path reaches it. The router is not part of this model.

## Model

| member | source | states |
|---|---|---|
| JsValue.Or | src/controllers/PoemController.ts:209 | `a \|\| b` is truthy iff either is; it is `a` when `a` is truthy and `b` otherwise |
| JsValue.Objects | src/controllers/PoemController.ts:133-137 | the list of props objects has one object per row, in row order |
| JsValue.NatText | src/controllers/PoemController.ts:293 | the decimal text of a number is non-empty, all digits, has no leading zero, and read back as decimal gives the number |
| JsValue.NatTextInjective | src/controllers/PoemController.ts:293 | distinct natural numbers have distinct texts |
| JsValue.IntText | src/controllers/PoemController.ts:293 | the text starts with a minus sign exactly for negative numbers |
| JsValue.IntTextInjective | src/controllers/PoemController.ts:293 | distinct ids give distinct `/poems/${id}` redirects |
| Routes.FirstMatch | src/controllers/PoemController.ts:21-36 | the chosen entry matches, no earlier entry matches, and nothing is chosen iff no entry matches |
| Routes.Dispatch | src/controllers/PoemController.ts:21-36 | a request reaches a handler iff some registered entry matches its method and path |
| Routes.NoLeadingSlashNeverMatches | src/controllers/PoemController.ts:28 | a pattern registered without a leading slash matches no request path |
| UserModel.EmailTaken | src/models/User.ts:37-38 | true iff some stored user has that email |
| UserModel.FindById | src/models/User.ts:49-53 | the stored row with that id, or none iff no row has it |
| UserModel.FindCredentials | src/models/User.ts:90-95 | a stored row whose email and password both match, or none iff no row matches |
| UserModel.RemoveId | src/models/User.ts:55-58 | the delete leaves no row with that id and never adds rows |
| UserModel.RemoveIdMembers | src/models/User.ts:55-58 | after the delete, a row is present iff it was present and has another id |
| UserModel.RemoveIdKeepsUniqueEmails | src/models/User.ts:55-58 | deleting keeps emails unique |
| UserModel.RemoveIdKeepsIdsAscending | src/models/User.ts:55-58 | deleting keeps ids in ascending order |
| UserModel.RemoveIdKeepsWellFormed | src/models/User.ts:55-58 | deleting keeps the table invariant |
| UserModel.RemoveIdKeepsOthers | src/models/User.ts:55-58 | deleting one id leaves `read` of every other id unchanged |
| UserModel.SetAdmin | src/models/User.ts:59-67 | only the rows with that id change, and only their admin flag |
| UserModel.SetAdminTwice | src/models/User.ts:59-67 | toggling the same user twice restores the table |
| UserModel.SetAdminKeepsWellFormed | src/models/User.ts:59-67 | the admin update keeps the table invariant |
| UserModel.FindByIdAfterSetAdmin | src/models/User.ts:59-67 | after the update, reading the id gives the old row with the new flag |
| UserModel.LoginAfterCreate | src/models/User.ts:85-95 | a user just created can log in with its own email and password and gets its own row |
| UserModel.UserTable.Create | src/models/User.ts:33-44 | a duplicate email fails with DuplicateEmail and changes nothing; otherwise exactly one row with the next id is appended, and the invariant holds |
| UserModel.UserTable.Read | src/models/User.ts:45-54 | the stored row with that id, or null iff no row has it |
| UserModel.UserTable.ReadAll | src/models/User.ts:69-83 | exactly the stored rows, in ascending id order, which is creation order |
| UserModel.UserTable.Login | src/models/User.ts:85-96 | a row matching both email and password, or InvalidCredentials iff none matches |
| UserModel.UserTable.Delete | src/models/User.ts:55-58 | answers true; afterwards `read` of that id is null, every other row remains, and the invariant holds |
| UserModel.UserTable.ToggleAdmin | src/models/User.ts:59-68 | the user's row gets the opposite of the instance's flag; the returned props are that updated row |
| AuthController.RegisterRoutes | src/controllers/AuthController.ts:15-20 | the four auth routes are static paths |
| AuthController.LoginRoutesReached | src/controllers/AuthController.ts:16-19 | each of the four routes is reached by its own method and path; GET and POST `/login` are told apart by method alone |
| AuthController.FormReply | src/controllers/AuthController.ts:27-32 | OK with the form template, and `payload.error` is the `error` query parameter, or null when absent |
| AuthController.GetRegistrationFormHandler | src/controllers/AuthController.ts:22-33 | adds the `session_id` cookie, then sends OK with the registration form |
| AuthController.GetLoginFormHandler | src/controllers/AuthController.ts:35-45 | adds the `session_id` cookie, then sends OK with the login form |
| AuthController.LoggedIn | src/controllers/AuthController.ts:63-71 | the session holds `isLoggedIn` true, the user's id, and `isAdmin` exactly true or false; other keys are kept |
| AuthController.LoginCookies | src/controllers/AuthController.ts:72-75 | the `session_id` cookie comes first; an `email` cookie carrying the email is present iff `remember` is truthy |
| AuthController.RecordLogin | src/controllers/AuthController.ts:63-71 | the three session writes leave the store as `LoggedIn` describes |
| AuthController.AddLoginCookies | src/controllers/AuthController.ts:72-75 | the cookies set are exactly `LoginCookies`, appended in order |
| AuthController.LoginHandler | src/controllers/AuthController.ts:47-92 | no email: BadRequest redirect to `/login?error=Email is required`, with session and cookies unchanged; unknown credentials or a database error in the lookup: BadRequest "Invalid credentials.", with session and cookies unchanged; otherwise the session is logged in, the cookies are added, and OK redirects to `/poems` with the user |
| AuthController.LogoutHandler | src/controllers/AuthController.ts:94-106 | the session is destroyed and OK redirects to `/` |
| UserController.RegisterRoutes | src/controllers/UserController.ts:22-28 | no two routes share both method and pattern |
| UserController.StaticGetRouteFirst | src/controllers/UserController.ts:23-25 | the static GET `/users` is registered before GET `/users/:id` |
| UserController.EveryRouteReachable | src/controllers/UserController.ts:22-28 | every entry is the first match for its own method and its pattern with the `:id` filled in, so none is shadowed |
| UserController.UsersFormReached | src/controllers/UserController.ts:24 | GET `/users` reaches the user list |
| UserController.UserProfileReached | src/controllers/UserController.ts:25 | GET `/users/<x>` reaches the profile for every non-empty `x` |
| UserController.AdminSession | src/controllers/UserController.ts:99 | the admin gate of `deleteUser` (and of `userAsAdmin`, UserController.ts:228): both `isAdmin` and `isLoggedIn` are truthy |
| UserController.CheckRegistration | src/controllers/UserController.ts:35-58 | missing email, then missing password, then a mismatched confirmation, each with its own BadRequest redirect; passes iff all three checks pass |
| UserController.CreateUserHandler | src/controllers/UserController.ts:30-92 | a failed check, database error or duplicate email creates nobody; otherwise exactly one non-admin user is appended, with Created and a redirect to `/login`; the next id advances only when a user is created |
| UserController.DeleteUserHandler | src/controllers/UserController.ts:93-134 | Forbidden and no table change unless `isAdmin` and `isLoggedIn` are truthy; a failing read (including one of an id that is not a number) or delete answers InternalServerError; otherwise the user is gone and the reply redirects to `/users?deleteMessage=User deleted successfully!`; the next id never changes |
| UserController.UserValues | src/controllers/UserController.ts:162 | one props object per user, in order |
| UserController.UsersFormHandler | src/controllers/UserController.ts:135-164 | not logged in: Forbidden redirect `/login`; not admin: Forbidden `AdminFormView` with `isAdmin` false; otherwise every user, with `deleteMessage` echoed as the message |
| UserController.GetUserProfileHandler | src/controllers/UserController.ts:165-222 | not logged in: Unauthorized redirect `/login` with no read; otherwise the user's poems, then likes, are read and the profile lists the poems |
| UserController.UserAsAdminHandler | src/controllers/UserController.ts:223-261 | Forbidden and no table change outside an admin session; a failing read (including one of an id that is not a number) answers NoContent; otherwise the user's admin flag is flipped and the updated user returned; the next id never changes |
| PoemController.RegisterRoutes | src/controllers/PoemController.ts:21-36 | the twelve routes in registration order, one entry per handler; the likes route is the only one without the leading slash |
| PoemController.StaticGetRoutesFirst | src/controllers/PoemController.ts:21-36 | every static GET route is registered before every GET route with `:id` |
| PoemController.NewPoemFormReachable | src/controllers/PoemController.ts:23 | `GET /poems/new` reaches the new-poem form |
| PoemController.ReorderedTableShadowsNewPoemForm | src/controllers/PoemController.ts:26 | with `/poems/:id` registered first, `/poems/new` would reach `getPoem` |
| PoemController.LikesRouteUnreachable | src/controllers/PoemController.ts:28 | no request path reaches `createLike` |
| PoemController.MayModifyComment | src/controllers/PoemController.ts:362 | the comment rule of `getEditCommentForm`, `updateComment` (405) and `deleteComment` (447): the session user is the writer, or `isAdmin === true` |
| PoemController.PoemRefused | src/controllers/PoemController.ts:552 | the refusal of `updatePoem` and `deletePoem` (586): not the owner and `isAdmin === false` |
| PoemController.ShowsModify | src/controllers/PoemController.ts:220 | `modifyPoem` in `getPoem`: the owner, or a truthy `isAdmin` |
| PoemController.OwnerRulesAgreeAfterLogin | src/controllers/PoemController.ts:552 | with a boolean `isAdmin` the poem and comment rules agree; with `isAdmin` unset the poem rule never refuses |
| PoemController.Changes | src/controllers/PoemController.ts:521-527 | title and description are included iff truthy, with the body's values |
| PoemController.CommentView | src/controllers/PoemController.ts:196-204 | the comment's props plus `canModify`, true iff its writer is the session user |
| PoemController.MarkedComments | src/controllers/PoemController.ts:195-205 | every comment is flagged, keeping order and number |
| PoemController.MarkModifiable | src/controllers/PoemController.ts:195-205 | the loop flags every comment, keeping order and number |
| PoemController.GetNewPoemFormHandler | src/controllers/PoemController.ts:38-54 | Unauthorized redirect `/login` when not logged in; otherwise the new-poem form |
| PoemController.GetEditPoemFormHandler | src/controllers/PoemController.ts:56-95 | Unauthorized redirect `/login` when not logged in, before any read; the edit form only for the poem's owner (no admin exception), Unauthorized otherwise |
| PoemController.GetPoemListHandler | src/controllers/PoemController.ts:98-150 | with a truthy `sortBy`, filters by the named category when one exists, and an unknown name lists every poem; without it, every poem; read errors give InternalServerError |
| PoemController.ShowPayload | src/controllers/PoemController.ts:248-257 | the payload carries the poem, the flagged comments, the category, and the `modifyPoem` and `showLike` flags |
| PoemController.ShowCalls | src/controllers/PoemController.ts:207-237 | the category is read, then, unless that failed, the like |
| PoemController.ShowOutcome | src/controllers/PoemController.ts:207-258 | the reply once the poem is found: InternalServerError on a failed category or like read, otherwise the shown poem |
| PoemController.ShowOutcomeShows | src/controllers/PoemController.ts:220-258 | `modifyPoem` iff owner or truthy `isAdmin`; `showLike` iff no like exists |
| PoemController.ShowPoem | src/controllers/PoemController.ts:207-258 | the reads and reply once the poem is found are `ShowCalls` and `ShowOutcome` |
| PoemController.GetPoemHandler | src/controllers/PoemController.ts:152-267 | a NaN id gives BadRequest "Invalid ID" before any read; a missing poem gives NotFound; otherwise the poem is shown with its flagged comments |
| PoemController.CreateLikeHandler | src/controllers/PoemController.ts:268-296 | creates the like with no login gate; Created, redirecting to the poem |
| PoemController.NewComment | src/controllers/PoemController.ts:301-307 | the props `createComment` inserts: the body's title and description, the session user and the path id |
| PoemController.CreateCommentHandler | src/controllers/PoemController.ts:297-335 | Unauthorized redirect `/login` with no write when not logged in; otherwise the comment is created and the reply redirects to its poem |
| PoemController.GetEditCommentFormHandler | src/controllers/PoemController.ts:336-378 | Unauthorized redirect to `/login` before any read when not logged in; a failed read gives InternalServerError "Error while getting comment: …"; otherwise the form iff owner or `isAdmin === true`, and an Unauthorized redirect to `/login` if not |
| PoemController.Merged | src/controllers/PoemController.ts:407 | updated props take the returned row's values over the old ones |
| PoemController.UpdateCommentHandler | src/controllers/PoemController.ts:379-430 | the update is written iff owner or `isAdmin === true`; otherwise Unauthorized with nothing written; success redirects to `/poems/<comment id>` |
| PoemController.DeleteCommentHandler | src/controllers/PoemController.ts:431-473 | a read error answers OK; the delete happens iff owner or `isAdmin === true`; success redirects to `/poems/<comment id>` |
| PoemController.NewPoem | src/controllers/PoemController.ts:479-485 | the props `createPoem` inserts: the body's title and description, the found category's id and the session user |
| PoemController.CreatePoemHandler | src/controllers/PoemController.ts:474-513 | the category lookup precedes the login gate; only a logged-in user's poem is created |
| PoemController.UpdatePoemHandler | src/controllers/PoemController.ts:515-566 | the update is written before the ownership check, which refuses only when the user is not the owner and `isAdmin === false` |
| PoemController.DeletePoemHandler | src/controllers/PoemController.ts:569-611 | Unauthorized before any delete iff the user is not the owner and `isAdmin === false`; success redirects to `/poems` |

## Left out

- The router, request, response, session and cookie classes are not part of this model. They are imported from src/router and src/auth and are outside this model's core. The model keeps only the interface the handlers use: `session.get/set/destroy`, `res.setCookie`, `res.send`, the numeric path ids, the query parameters and the body.
- Routes.Dispatch: selection follows the first-match policy the router documents. Patterns are held already split at `/`, so the string splitting and the parameter extraction are not modelled. That a request path splits into an empty first segment is an assumption about the router, which is not part of this model.
- The SQL of the poem, comment, like and category models is not modelled. Each call is a parameter holding the row (or null) it returns or the error it throws, and each handler reports the calls it made, in order.
- `User.create` and `User.login`: the SQL is modelled as operations on the in-memory table. An unexpected database error of `create` is the `dbError` parameter of UserController.CreateUserHandler. A database error of `login` is the `loginFails` parameter of AuthController.LoginHandler. Failures of `read`, `delete` and `toggleAdmin` are the boolean parameters of the user handlers.
- UserController.CreateUserHandler: a database error other than a duplicate email is taken to happen before the duplicate check, so it answers InternalServerError even for a duplicate email.
- UserModel.UserTable.Read: answers `null` for an id that is not a number (NaN). It is a modelling assumption that such a read raises in the database; the user handlers therefore send a NaN id down their failed-read branch and never call Read with one.
- UserModel.FindCredentials: a password that is not a string (a missing body field) matches no row.
- UserModel.UserTable.ToggleAdmin: when the row has disappeared, the instance's props are `None` rather than the merge of an undefined row.
- Timestamps (`createdAt`, `editedAt`) are not modelled, because they come from the clock.
- async/await, connection reservation and release are not modelled, because they are asynchrony, not logic.
- Logging is not modelled; it is output only.
- `getUserProfile`'s per-like poem lookup (`likePoems`) is not modelled, because it is a list of unawaited promises whose result the reply never uses.
- The uncaught failure of `Category.getCategory` in `createPoem` is not modelled: the lookup's result is taken as given.
- `User.readAll` in `usersForm` is modelled as succeeding, since it is outside any `try`.
- `logout`'s `catch` branch is not modelled, because nothing in its `try` is modelled as able to throw.
- Numbers are unbounded integers plus NaN, because ids are whole numbers. JavaScript's floating point is not modelled.
- The form body is a map from field names to strings (a url-encoded form); other body shapes are not modelled.
- Template and HTML rendering is not modelled, and neither are password hashing or security, because credentials are compared as plain strings.
