# Task manager API: authorization gate and per-user task scoping

A Dafny model of the request-handling core of a small task-tracking API
(Express and Mongoose, file `server.js`). Users log in and get a bearer token.
Requests that carry the token can list, create, update and delete their own
tasks. The model covers the rules that decide:

- whether a request gets past the authorization middleware;
- what `/login` answers;
- which stored tasks each protected route may see or change, and how.

The task collection is an in-memory table, `map<TaskId, Task>`. Each handler
becomes one atomic step from the table before the request to a response and
the table after it.

## Layout

- `wrappers.dfy` (module `Wrappers`): `Option`.
- `api.dfy` (module `Api`): the records (`Task`, `User`, `Claims`) and the JSON values a body can hold.
  The body is a `seq` of properties in enumeration order, and `Lookup` reads `req.body[key]` from it.
  This module also holds the `Response` (a status with a payload, or `Uncaught` for an exception none of the handlers catch),
  the storage driver's behaviour (`StorageFaults`) and the response messages.
- `bearer.dfy` (module `Bearer`): how the token is taken from the header.
  `header.replace('Bearer ', '')` removes the first occurrence of the prefix wherever it stands.
- `auth.dfy` (module `Auth`): `Gate`, the middleware's decision as a function.
  `AuthMiddleware` runs that decision on a `Request` object and sets its `user` field, as `req.user = decoded` does.
  `Login` is the `/login` decision.
- `updates.dfy` (module `Updates`): the PATCH allow-list (`IsValidOperation`, the `every`/`includes` check).
  `AssignAll` models the `forEach` that assigns `task[update] = req.body[update]`.
  `Overwritten` is the intended result, and lemmas prove the two equal.
- `handlers.dfy` (module `Handlers`): each protected route as a function on the table (`ListTasks`, `AddTask`, `PatchTask`, `DeleteTask`).
  `Serve` chains gate and handler. The lemmas here state the scoping properties.
- `store.dfy` (module `Store`): class `TaskStore`, whose `tasks` field the handler methods update in place.
  Each method follows the route's code step by step. The PATCH method has the `forEach` loop.
  Each method is proved to produce exactly the response and table of the matching function in `Handlers`.
  So every lemma about those functions holds of the methods too.
- `scenario.dfy` (module `Scenario`): one session from start to end.
  The user logs in, lists, adds, completes and deletes a task, then lists again.

## Abstractions

- **Token library.** `jwt.verify` is a `Verifier` parameter: a function of token, secret and clock reading that returns claims or nothing.
  `jwt.sign` is a `Signer` parameter. Three predicates state what some lemmas require of them:
  - `HonoursExpiry`: claims come back only while `now < exp`, which is jsonwebtoken's rule.
  - `TokenServiceSound`: a signed payload verifies to itself until it expires, and no signed token is empty.
  - `OpensOnlyToSigned`: a signed token, when it verifies at all, yields the claims that were signed.
  The first two come from jsonwebtoken's documented behaviour; the third is what signature checking guarantees.
- **Password check.** `user.comparePassword` is a `PasswordCheck` parameter.
- **Clock.** The clock is an integer parameter, in seconds. A token expires `TokenLifetime` = 3600 seconds after it is issued (`expiresIn: '1h'`).
- **Storage failures.** A `StorageFaults` parameter says, per request, whether the query and the save succeed.
  When one fails, it gives the error message. Each handler turns a failure into the status its `catch` block uses.
  The model does not say why a failure happens.
- **New task ids.** The identifier of a new task is a parameter. It must not already be in the table, just as a fresh ObjectId never is.

## Behaviour of `server.js` worth knowing

- **No header.** A request without an Authorization header does not get a 401.
  `req.header('Authorization')` is `undefined`, and `.replace` on it throws before the `try`.
  Express's default error handler answers instead. The model calls this outcome `Uncaught`.
- **Where the prefix is removed.** `replace` removes the first `Bearer ` wherever it stands, not only at the start: `xBearer y` yields `xy`.
  A header without the prefix is used whole as the token.
- **Storage-failure statuses.** They differ by route. A failing list or delete answers 500. A failing login, add or update answers 400.
- **The new task's `isCompleted`.** `/addtask` does not set `isCompleted`; its default lives in the task schema, which is not part of this model.
  The model records the field as not given.
- **Duplicate emails.** `/login` checks the password of the first user `findOne` returns. If two users shared an email, the second could never get a token of their own: their password is checked against the first user, and a token it earns carries the first user's id.

## Model

| member | source | states |
|---|---|---|
| Api.Lookup | server.js:97 | the own-property read of `req.body[key]`: nothing exactly when no property has the key, otherwise the value of a property with the key that no later property shares |
| Api.Get | server.js:97 | `req.body[key]`; no contract of its own, its meaning is `Api.Lookup`'s: the value of the last property with that key, `Undefined` when there is none |
| Api.LastIndexOf | server.js:97 | the position of the last body property with the key, or nothing exactly when no property has it |
| Bearer.ExtractToken | server.js:28 | the token taken from a present header; specified by `Bearer.RemoveFirst`, `Bearer.ExtractTokenOfBearer`, `Bearer.ExtractTokenWithoutPrefix`, `Bearer.EmptyTokenIff` and `Bearer.ExtractTokenRemovesInnerPrefix` |
| Bearer.IndexOf | server.js:28 | the search inside `replace`: the first position at or after `from` where the pattern occurs, or nothing exactly when it occurs nowhere from there |
| Bearer.RemoveFirst | server.js:28 | with no occurrence of the pattern the string is unchanged; otherwise exactly the first occurrence is cut out |
| Bearer.ExtractTokenOfBearer | server.js:28 | a header `Bearer <t>` yields exactly `t`, for every `t` |
| Bearer.ExtractTokenWithoutPrefix | server.js:28 | a header with no `Bearer ` in it is itself the token |
| Bearer.EmptyTokenIff | server.js:28-29 | the token is empty exactly when the header is empty or is exactly `Bearer ` |
| Bearer.ExtractTokenRemovesInnerPrefix | server.js:28 | the prefix is removed from inside the header too (`xBearer y` yields `xy`) |
| Auth.Gate | server.js:27-38 | the middleware's decision; it escapes uncaught if and only if the header is absent, and any other halt is one of the two 401 answers; the lemmas `Auth.GateDeniesEmptyToken`, `Auth.GateAdmitsOnlyVerified` and `Auth.GateRejectsUnverified` say which |
| Auth.Request.constructor | server.js:27-33 | the `req` object: its Authorization header, and `user`, absent until the middleware sets it at line 33 |
| Auth.AuthMiddleware | server.js:27-38 | the method answers exactly what `Gate` decides; on admission it sets `req.user` to the verified claims and passes on; on a halt it leaves `req.user` alone |
| Auth.GateDeniesEmptyToken | server.js:28-29 | 401 'Autorização negada' comes exactly for a header that is empty or exactly `Bearer ` |
| Auth.GateAdmitsOnlyVerified | server.js:31-34 | the gate admits with claims `c` if and only if the header is present, the token is non-empty and the verifier returns `c` |
| Auth.GateRejectsUnverified | server.js:32-37 | any present header whose extracted token is non-empty and rejected by the verifier gets 401 'Token inválido', with the prefix or without it |
| Auth.GateRejectsUnverifiedBearer | server.js:28-37 | in particular, `Bearer <t>` with a non-empty `t` that the verifier rejects gets 401 'Token inválido' |
| Auth.GateAdmitsOnlyUnexpired | server.js:32 | with a verifier that honours expiry, admitted claims always have `now < exp` |
| Auth.FindByEmail | server.js:65 | returns the first user with the email; returns nothing only when no user has it |
| Auth.IssuedClaims | server.js:70-71 | the payload `jwt.sign` is given and its one-hour `expiresIn`; specified by `Auth.LoginTokenOnlyOnBothChecks`, which states the issued token signs the user's id, name and email, issued now and expiring `TokenLifetime` seconds later |
| Auth.Login | server.js:61-78 | the `/login` decision; it always answers with 200, 400 or 401, and 200 if and only if it issues a token; the lemmas below say when |
| Auth.LoginTokenOnlyOnBothChecks | server.js:65-74 | for any user table: a token is issued only when the lookup succeeds, `findOne` finds a user with the email and that user's password check passes; the token signs that user's id, name and email and expires one hour after issue |
| Auth.LoginIssuesToFirstMatch | server.js:65-74 | for any user table: with a working lookup, the first user with the email whose password check passes gets exactly their own token, signing their id, name and email and expiring one hour after issue |
| Auth.LoginIssuesWithUniqueEmails | server.js:65-74 | a corollary of `Auth.LoginIssuesToFirstMatch`: when no two users share an email, a working lookup, a user with the email and a passing password check earn exactly that user's token |
| Auth.LoginChecksOnlyFirstMatch | server.js:65-67 | for any table where a later user shares the email of the first user with it, only the first one's password is checked: when it fails, the later user's correct password gets 401 'Credenciais inválidas' |
| Auth.LoginFailuresIndistinguishable | server.js:66-68 | an unknown email and a password that the first user with the email fails get the identical response, 401 'Credenciais inválidas' when storage works, whatever later users share the email |
| Auth.LoginTokenOpensGate | server.js:70-72 | the issued token, sent as `Bearer <token>`, is admitted throughout the next hour with the claims of the user who logged in |
| Auth.LoginTokenExpires | server.js:32-37 | once the hour is over, the issued token sent as `Bearer <token>` is refused with 401 'Token inválido' |
| Updates.Keys | server.js:110 | the body's keys, one per property, in order |
| Updates.IsValidOperation | server.js:111-112 | true exactly when every listed key is one of text, category, isCompleted |
| Updates.IsValidOperationIff | server.js:112-116 | the validation fails exactly when some body key is outside the allow-list; an empty body passes |
| Updates.SetField | server.js:124 | one `task[update] = value` for an allowed key; specified by `Updates.AssignAllSetsNamedFields`: the named field takes the value, the other fields and the owner are kept |
| Updates.AssignAll | server.js:124 | the `forEach` assigning each listed key from the body, in order; specified by `Updates.AssignAllSetsNamedFields` and `Updates.ForEachOverwrites` |
| Updates.Overwritten | server.js:124-126 | the intended PATCH result, with the body's keys overwritten and all else kept; `Updates.ForEachOverwrites` proves the loop equal to it |
| Updates.AssignAllSetsNamedFields | server.js:124 | assigning a key list sets exactly the named fields to the body's values and never changes the owner |
| Updates.ForEachOverwrites | server.js:124 | the `forEach` over the body's own keys gives the task with exactly the body's keys overwritten |
| Handlers.Owns | server.js:119 | the owner-scoped filter `{ _id: id, userId }` of `findOne` here and of `findOneAndDelete` at line 135: a stored task with that id whose owner is the caller; `Handlers.OwnedBy`, `Handlers.DeleteOnlyOwned` and `Handlers.PatchAppliesExactlyBodyKeys` are stated in its terms |
| Handlers.OwnedBy | server.js:88 | the result holds exactly the stored tasks whose owner is the user, unchanged |
| Handlers.ListTasks | server.js:86-93 | GET /tasks; specified by `Handlers.ListIsExactlyOwn` and `Handlers.OwnedBy` |
| Handlers.NewTask | server.js:97-100 | `new Task({ userId, text, category })`; specified by `Handlers.AddStampsCaller`: the caller's id, and the body's text and category |
| Handlers.AddTask | server.js:96-106 | POST /addtask; specified by `Handlers.AddStampsCaller` |
| Handlers.PatchTask | server.js:109-130 | PATCH /:id; specified by `Handlers.ValidationPrecedesLookup`, `Handlers.AllowedBodiesPassValidation`, `Handlers.NotFoundIndistinguishable`, `Handlers.PatchAppliesExactlyBodyKeys` and `Handlers.EmptyPatchChangesNothing` |
| Handlers.DeleteTask | server.js:133-144 | DELETE /:id; specified by `Handlers.DeleteOnlyOwned` and `Handlers.NotFoundIndistinguishable` |
| Handlers.Dispatch | server.js:86-144 | the route table: each route runs its handler for the admitted user; specified through `Handlers.Serve` by `Handlers.OthersTasksUntouched` and `Handlers.ResponsesRevealOnlyOwnTasks` |
| Handlers.Caller | server.js:33 | `req.user.userId` as the handlers read it: the admitted claims' user id, nothing when the gate halts; used by `Handlers.OthersTasksUntouched` and `Handlers.ResponsesRevealOnlyOwnTasks` |
| Handlers.Serve | server.js:27-38 | the middleware, then the route's handler; specified by `Handlers.RejectedRequestsChangeNothing`, `Handlers.HaltedRequestsChangeNothing`, `Handlers.OthersTasksUntouched` and `Handlers.ResponsesRevealOnlyOwnTasks` |
| Handlers.RejectedRequestsChangeNothing | server.js:28-37 | `Bearer ` alone gets 401 'Autorização negada'; any header whose extracted token is non-empty and rejected gets 401 'Token inválido'; a missing header escapes uncaught; in each case the table is unchanged |
| Handlers.HaltedRequestsChangeNothing | server.js:27-38 | whenever the gate halts, the response is the gate's (one of the three above) and no handler changes the table |
| Handlers.ListIsExactlyOwn | server.js:86-93 | GET /tasks returns exactly the stored tasks owned by the caller and no others |
| Handlers.AddStampsCaller | server.js:96-102 | POST /addtask adds exactly one task, owned by the caller, with the body's text and category; all earlier tasks are unchanged; the response is the new task with 201 |
| Handlers.ValidationPrecedesLookup | server.js:110-122 | any key outside the allow-list gives 400 'Atualizações inválidas' with the table unchanged, whatever the table, id, user and driver |
| Handlers.AllowedBodiesPassValidation | server.js:112-116 | a body naming only allowed keys, including the empty body, is not refused by the validation |
| Handlers.NotFoundIndistinguishable | server.js:119-138 | for PATCH and DELETE, an absent id and another user's id give the identical response and table for every body and driver behaviour; with a working query (and, for PATCH, an allowed body) that is 404 'Tarefa não encontrada' with the table unchanged |
| Handlers.PatchAppliesExactlyBodyKeys | server.js:124-126 | a successful PATCH overwrites exactly the keys in the body; the other fields, the owner and every other task stay unchanged; the response is the updated task |
| Handlers.EmptyPatchChangesNothing | server.js:110-126 | an empty PATCH body on an owned task returns it as stored and changes nothing |
| Handlers.DeleteOnlyOwned | server.js:135-140 | DELETE answers 'Tarefa deletada' if and only if the id and the owner both match, then removes only that task; otherwise 404 with nothing removed; other tasks are never touched |
| Handlers.OthersTasksUntouched | server.js:86-144 | for any protected request, tasks the caller does not own (all tasks when the gate halts) are neither changed nor removed; no task changes owner; any new task belongs to the caller |
| Handlers.ResponsesRevealOnlyOwnTasks | server.js:86-130 | no response carries a task, or a task list, containing another user's task |
| Store.TaskStore.List | server.js:86-93 | the response of GET /tasks, as `ListTasks` specifies |
| Store.TaskStore.Add | server.js:96-106 | the response and the new table, as `AddTask` specifies |
| Store.TaskStore.Update | server.js:109-130 | the validation, the lookup, the field-by-field `forEach` loop and the save give the response and table `PatchTask` specifies |
| Store.TaskStore.Delete | server.js:133-144 | the response and the new table, as `DeleteTask` specifies |
| Store.TaskStore.Handle | server.js:27-38 | the middleware runs first, then the route's handler; the result is what `Serve` specifies, and `req.user` is set only when the gate admits |
| Scenario.TaskLifecycle | server.js:61-140 | login, list (empty), add, PATCH `isCompleted`, delete, list (empty): every response and table along the way, for one user within the token's hour |

## Left out

- The user registration handler (`/register`): its only logic is validation, password hashing and email uniqueness, all in `models/User`. `models/User` is not part of this model.
- The root and `/logout` handlers: each is a constant reply.
- Express setup, CORS, environment loading, the database connection and `app.listen`: framework and process plumbing.
- Token cryptography. Signing and verification are parameters. The model does not capture signature unforgeability, tokens signed with another secret, or `jwt.sign` throwing when the secret is missing.
- The password check. bcrypt hashing and `comparePassword` live in `models/User`, which is not part of this model. They enter as a parameter that always answers, so a password check that throws (answered 400 by the login `catch`) is not modelled apart from a failing lookup.
- The task schema. `models/Task` is not part of this model, so neither is:
  - Mongoose casting or validation of `text`, `category` and `isCompleted`;
  - required fields;
  - the `isCompleted` default.
  A failed schema validation appears only as a failing save.
- The causes of storage failures. A failing query or save (for example a malformed id) is an input, not derived from anything.
- JSON arrays, objects and non-integral numbers as body values.
- A `/login` body without an email. The email is a string, and what Mongoose does with an `undefined` filter value is not modelled.
- Claims without a `userId`. The model assumes every verified token carries one, as every token `/login` signs does.
- A key repeated in a body. `Object.keys` lists it once; the model's body may list it twice. Each assignment then reads the key's last value, so the final task is the same.
- Concurrency and `async`/`await`: each handler is one atomic step.
- Handlers.ListIsExactlyOwn: the tasks come back as a map keyed by id, so the order of the array `Task.find` returns is not modelled.
- Store.TaskStore.List: the same; the order of the returned array is not modelled.
- Handlers.AddStampsCaller: says nothing about `isCompleted` of the new task, whose default is set by the task schema.
