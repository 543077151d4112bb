# crono-q turn engine in Dafny

crono-q is a queue ("fila") service for student events. A student who is
logged in joins the queue of an event and receives a spot number. Staff then
process the student at the front, or any student, and every spot behind the
processed one moves up by one. This project models the core of that service:

- the join handler (`POST /api/turns`);
- the process handler (`POST /api/turns/process`);
- the authentication middleware that guards `/api`;
- the two zod form schemas, for registration and for events.

The turn tables are held by `Turns.Store`, a class with one `seq` field per
database table (`events`, `queues`, `turns`), the set of student ids, and the
next auto-increment ids. Each handler is a method on the store. Each
transaction is computed on local copies and assigned to the fields in one
step, so it commits all or nothing, as a Prisma `$transaction` does.

The central invariant is density, `QueueStore.Dense`. The spots held by the
turns of a queue are exactly `1..last_assigned_spot`, each held once. Turns
whose spot is still null are not counted.

- Join keeps density through each write. After the transaction the counter
  is one ahead of the spots held. The follow-up write of the spot closes
  that gap.
- Process keeps density as well. It deletes the turn, decrements every
  larger spot and decrements the counter.

For a store that starts consistent, the contracts of `Turns.Store.Join` and
`Turns.Store.Process` carry the invariant through every call.

JavaScript values that arrive in request bodies and JWT claims are modelled
by `Web.Value`. The model covers their truthiness and the integer results of
`Number()`. The JWT verifier is a function parameter of
`AuthMiddleware.Authenticate`, since it is an oracle to this model.

Modules, one file each:

- `wrappers.dfy`: `Option` and `Result`.
- `web.dfy`: JavaScript values, `Number()` and HTTP failures.
- `queue_store.dfy`: table rows, lookups, the renumbering update and the density lemmas.
- `turns.dfy`: the two handlers and the `Store` class.
- `registration_schema.dfy` and `event_schema.dfy`: the forms.
- `auth_middleware.dfy`: the middleware.

Two handlers in the repository remove a turn from a queue, and they update
`last_assigned_spot` differently:

- the cancel handler recomputes it as the `_max` of the spots that remain,
  or 0 when none remain (server/api/turns/[id].delete.ts:51-57);
- the process handler decrements it (server/api/turns/process.post.ts:57-62).

The model follows the process handler. `QueueStore.DecrementIsRecomputedMax`
proves the two give the same value whenever the queue is dense.

## Model

| member | source | states |
|---|---|---|
| Web.ToNumber | server/api/turns/process.post.ts:21-22 | `Number()` of a number is that number; `undefined` has no integer value (NaN); a string that converts yields a non-negative integer |
| Web.JsLength | app/schemas/EventSchema.ts:6-7 | JavaScript's `.length`, which zod's `min`/`max` measure, counts UTF-16 code units: between one and two per character, and zero exactly for the empty string |
| Web.JsLengthOfBmp | app/schemas/EventSchema.ts:6-7 | on text without characters beyond U+FFFF, `.length` equals the number of characters |
| Web.JsLengthAppend | app/schemas/EventSchema.ts:6-7 | appending a character adds two code units when it lies beyond U+FFFF (a surrogate pair), one otherwise |
| Web.StatusCode | server/api/turns.post.ts:11-12 | documents the status `createError` raises for each failure kind: every kind is a 4xx/5xx status, and exactly the missing-token and invalid-session kinds are 401 |
| QueueStore.FindFirst | server/api/turns.post.ts:58-60 | `findFirst`: the index returned satisfies the filter and no earlier row does; no index exactly when no row matches |
| QueueStore.FindTurnByIdLast | server/api/turns.post.ts:104-107 | a turn just appended with a fresh id is found by that id at the end of the table |
| QueueStore.FindQueueOwnId | server/api/turns.post.ts:88-90 | with unique queue ids, looking a queue up by its own id finds that queue |
| QueueStore.RemoveAt | server/api/turns/process.post.ts:43-45 | deleting row k keeps the rows before k and shifts the rows after it down by one |
| QueueStore.Renumbered | server/api/turns/process.post.ts:47-55 | `updateMany` rewrites each row and keeps the number of rows |
| QueueStore.MaxSpot | server/api/turns/process.post.ts:57-62 | the `_max` of the spots of a queue, which the cancel handler computes at lines 51-56 of its file: the value is held by one of the queue's turns and bounds all of them, and there is none exactly when the queue holds no spot |
| QueueStore.EmptyQueueDense | server/api/turns.post.ts:72-79 | a freshly created queue with counter 0 that no turn references is dense |
| QueueStore.AppendUnheldKeepsDense | server/api/turns.post.ts:92-98 | appending a turn that holds no spot in q leaves q's density unchanged, in both directions |
| QueueStore.JoinTransientDense | server/api/turns.post.ts:87-99 | after the join transaction (counter +1, turn with null spot) the queue is dense with the old counter and not with the new one |
| QueueStore.JoinKeepsDense | server/api/turns.post.ts:104-107 | a turn holding spot n+1 makes a queue dense with n dense with n+1 |
| QueueStore.RemovedRow | server/api/turns/process.post.ts:42-55 | each row after delete and renumbering is the lowered image of one original row other than the deleted one |
| QueueStore.RemoveKeepsInRange | server/api/turns/process.post.ts:42-63 | after delete and decrement, the spots of the queue lie in 1..n-1 |
| QueueStore.RemoveKeepsDistinct | server/api/turns/process.post.ts:47-55 | delete and decrement keep the spots of a queue pairwise distinct |
| QueueStore.RemoveKeepsCovers | server/api/turns/process.post.ts:47-55 | after delete and decrement, every spot in 1..n-1 is still held |
| QueueStore.RemoveKeepsDense | server/api/turns/process.post.ts:42-63 | processing a turn of a dense queue with counter n leaves it dense with counter n-1 |
| QueueStore.RemoveKeepsOtherDense | server/api/turns/process.post.ts:47-55 | processing a turn of one queue leaves every other queue's density untouched |
| QueueStore.DenseCounterIsMax | server/api/turns/process.post.ts:57-62 | on a dense queue the counter equals the largest held spot, or 0 when none is held |
| QueueStore.DecrementIsRecomputedMax | server/api/turns/process.post.ts:57-62 | decrementing the counter gives the same value as recomputing it as the maximum remaining spot (or 0), as the cancel handler does |
| QueueStore.ProcessKeepsAllDense | server/api/turns/process.post.ts:42-63 | the process transaction, with the queue id and spot read from the row being removed, keeps every queue dense |
| QueueStore.NewQueueKeepsAllDense | server/api/turns.post.ts:69-80 | creating a queue with counter 0 keeps every queue dense |
| QueueStore.JoinKeepsAllDense | server/api/turns.post.ts:87-107 | incrementing a queue's counter and adding a turn at the new counter keeps every queue dense |
| QueueStore.RemoveKeepsAllDense | server/api/turns/process.post.ts:42-63 | the whole process transaction keeps every queue dense |
| Turns.SessionStudentId | server/api/turns.post.ts:21-28 | 401 exactly when there is no user or `student_id` is falsy; otherwise the id is `Number(student_id)` when that is a number, and 500 exactly when it is NaN |
| Turns.ResolveEvent | server/api/turns.post.ts:40-52 | a numeric `event_id` is looked up by id and wins over `event_code`; otherwise a string code is looked up by code; otherwise no event; a result is always an existing event |
| Turns.JoinPrecheck | server/api/turns.post.ts:9-65 | 400 when neither `event_id` nor `event_code` is truthy, then 401 from the session, 404 for an unknown student or event, 409 when the student already has a turn for the event, and otherwise the student and event |
| Turns.JoinStoreFailure | server/api/turns.post.ts:113-121 | a unique-constraint violation (P2002) becomes 409; any other store error is rethrown (500) |
| Turns.ProcessKey | server/api/turns/process.post.ts:5-24 | a missing body fails (500); a falsy `student_id` or `event_id` is 400; otherwise the key is `(Number(student_id), Number(event_id))` when both convert, and 500 when either is NaN |
| Turns.ProcessPrecheck | server/api/turns/process.post.ts:19-39 | 404 exactly when no turn matches the student and event; 500 when the matching turn has a null queue or spot; otherwise the index of the first matching turn in table order |
| Turns.DecrementSpotsAbove | server/api/turns/process.post.ts:47-55 | the loop over the turns equals `updateMany`: every turn of the queue with a spot above s moves down by one, nothing else changes |
| Turns.RemoveKeepsTurnKeys | server/api/turns/process.post.ts:42-55 | delete and renumbering keep turn ids and (student, event) pairs unique, and the deleted pair is no longer found |
| Turns.RecountKeepsQueueKeys | server/api/turns/process.post.ts:57-62 | changing one queue's `last_assigned_spot` keeps queue ids unique and below the next id |
| Turns.AppendKeepsTurnKeys | server/api/turns.post.ts:92-98 | a new turn with the next id for a pair not yet present keeps turn keys unique |
| Turns.Store.constructor | server/api/turns.post.ts:32-46 | the initial state: the given students and events with empty queue and turn tables, which is consistent |
| Turns.Store.JoinTransaction | server/api/turns.post.ts:87-99 | the transaction fails with no change when the queue is missing or the pair already has a turn; otherwise it increments the counter and appends a turn with a null spot, and the queue is then one ahead of its spots |
| Turns.Store.SetSpot | server/api/turns.post.ts:104-107 | writes the spot of the turn with that id and changes nothing else; a missing id fails with no change |
| Turns.Store.FindOrCreateQueue | server/api/turns.post.ts:69-80 | returns the first queue of the event, or appends a new queue with counter 0 and the next id; keeps every queue dense |
| Turns.Store.Enqueue | server/api/turns.post.ts:69-112 | the student's turn is appended with spot `last_assigned_spot + 1` in the event's queue, whose counter goes up by one; density is preserved |
| Turns.Store.Join | server/api/turns.post.ts:9-121 | a failed precheck returns its status and changes nothing; otherwise the new turn holds the next spot of the event's queue; a consistent store stays consistent |
| Turns.Store.RemoveTurn | server/api/turns/process.post.ts:41-75 | commits delete, renumbering and counter decrement together, or fails with 500 and no change when the queue row is missing; keeps density |
| Turns.Store.Process | server/api/turns/process.post.ts:5-75 | a failed precheck returns its status and changes nothing; otherwise the turn is gone, the spots behind it move up, the counter drops by one, the processed spot is returned, and the pair is no longer found; a consistent store stays consistent |
| Turns.JoinTwice | server/api/turns.post.ts:58-65 | a repeated join by the same student for the same event is refused with 409 |
| Turns.ProcessTwice | server/api/turns/process.post.ts:19-32 | processing the same student and event twice in a row answers 404 the second time |
| RegistrationSchema.Check | app/schemas/RegistrationSchema.ts:3-27 | a rule contributes its issue exactly when it fails |
| RegistrationSchema.StudentIdIssues | app/schemas/RegistrationSchema.ts:4-11 | the control number reports "not positive" exactly when it is below 1 and "too large" exactly when it exceeds 9 999 999 |
| RegistrationSchema.NameIssues | app/schemas/RegistrationSchema.ts:13-15 | first name, last name and career each report their issue exactly when empty |
| RegistrationSchema.SemesterIssues | app/schemas/RegistrationSchema.ts:17-24 | the semester reports "too small" exactly below 1 and "too large" exactly above 12 |
| RegistrationSchema.PasswordIssues | app/schemas/RegistrationSchema.ts:26 | the password reports "empty" exactly when empty and "too short" exactly when shorter than 8 UTF-16 code units (JavaScript `.length`), both for the empty password |
| RegistrationSchema.Issues | app/schemas/RegistrationSchema.ts:3-27 | an issue is reported exactly when its field breaks its rule |
| RegistrationSchema.AcceptsExactly | app/schemas/RegistrationSchema.ts:3-27 | the form is accepted iff 1 <= student_id <= 9 999 999, the names and career are non-empty, 1 <= semester <= 12 and the password has a JavaScript `.length` of at least 8 |
| RegistrationSchema.OneBadFieldRejects | app/schemas/RegistrationSchema.ts:3-27 | an accepted form with one field changed to a failing value is rejected |
| EventSchema.BoundedText | app/schemas/EventSchema.ts:4-11 | a required text field raises "not a string", "too short" and "too long" exactly when each applies, lengths measured as JavaScript `.length` |
| EventSchema.OptionalText | app/schemas/EventSchema.ts:12-15 | an optional field raises an issue only when present and not a string |
| EventSchema.Issues | app/schemas/EventSchema.ts:3-16 | an issue is reported exactly when its field breaks its rule |
| EventSchema.AcceptsExactly | app/schemas/EventSchema.ts:3-16 | the form is accepted iff the name is a string whose JavaScript `.length` is 1..100, the location one of 1..50, and day, start and end hours are absent or strings |
| AuthMiddleware.UpTo | server/middleware/auth.ts:23 | the first piece of a split: the longest prefix free of the separator, which is followed by the separator when shorter than the input |
| AuthMiddleware.Split | server/middleware/auth.ts:23 | `split(sep)` yields at least one piece; piece 0 is the text up to the first separator and piece 1 the text up to the next one |
| AuthMiddleware.UpToFirst | server/middleware/auth.ts:23 | the first piece of `p + sep + rest` is `p` when `p` holds no separator |
| AuthMiddleware.UpToWhole | server/middleware/auth.ts:23 | a text without separator is its own first piece |
| AuthMiddleware.BearerToken | server/middleware/auth.ts:22-23 | a bearer token exists exactly when the header starts with `Bearer `, and it is the second space-separated piece |
| AuthMiddleware.BearerOfToken | server/middleware/auth.ts:23 | `Bearer <token>` yields the token, also when more space-separated text follows |
| AuthMiddleware.SessionToken | server/middleware/auth.ts:21-24 | a non-empty session cookie wins over the Authorization header |
| AuthMiddleware.Authenticate | server/middleware/auth.ts:5-37 | non-`/api` and whitelisted paths pass; otherwise 401 Unauthorized exactly when no token, 401 Invalid session exactly when the verifier rejects it, and authenticated with the verifier's claims exactly when it accepts |
| AuthMiddleware.AuthPathsExactOnly | server/middleware/auth.ts:11-18 | the login and signup whitelist is exact: any longer path below them is protected |
| AuthMiddleware.PublicPrefixesPass | server/middleware/auth.ts:11-18 | everything under `/api/events` and `/api/public` passes whatever the credentials |

## Left out

- Prisma itself, the network and concurrency. Each handler runs to completion before the next starts, and a transaction commits atomically. Interleavings are not modelled: two joins that read the same queue before either writes, or a process racing a join.
- Because runs are sequential, the P2002 unique violation in the join transaction cannot be reached. The precheck has already refused the pair. `Turns.JoinStoreFailure` still models its mapping.
- Logging, and the debug query at server/api/turns/process.post.ts:13-17. Neither affects the result.
- The queue columns `current_spot` and `estimated_wait`. They are written as 0 and never read.
- JWT internals, the session secret and environment handling. The verifier is a parameter of `AuthMiddleware.Authenticate`.
- Web.ToNumber: covers `Number()` only on integers, `undefined`/`null`/booleans and decimal digit strings (`""` is 0). Any other string, and any fractional value, is treated as NaN. No floating point is modelled.
- Turns.SessionStudentId: a NaN id is modelled as a failed query (500), on the reading that Prisma refuses a NaN filter. `Turns.ProcessKey` treats NaN the same way.
- RegistrationSchema.Issues: the form takes already-typed fields. `z.coerce` of non-numeric or fractional input is not modelled, nor are the zod message texts.
- EventSchema.Issues: the zod message texts are not modelled. Only which issues arise is modelled.
- The rest of the repository: other endpoints (such as turn deletion), the pages, and the other schemas.
- Integer widths: the Prisma `Int` columns (`last_assigned_spot`, `spot_number` and the ids) are 32-bit in the database, but the model uses unbounded integers. Overflow would need over two billion turns or ids and is not modelled.
- `findFirst` without `orderBy` returns some matching row in the database's own order. The model takes the first match in table order.
