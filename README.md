# Task/user reference maintenance

This project models the part of a task-tracking REST API that keeps two
document collections pointing at each other. A Task names its assignee in
`assignedUser` (with a copy of the name in `assignedUserName`) and carries a
`completed` flag. A User keeps an ordered `pendingTasks` list of task ids. The
six mutating routes (POST, PUT and DELETE on `/tasks` and on `/users`) each
write the entity they are about. They then edit the other collection step by
step, because the store has no multi-document transactions.

The model is one in-memory store, the class `Store.Db`, with `tasks` and
`users` maps and one method per route. Each method's postcondition gives the
status it reports and the whole new state, in terms of the pure functions of
`TaskSync` and `UserSync`. The lemmas beside those functions state what the
routes promise: which lists gain or lose a task id, what never changes, and
where the routes knowingly leave the two sides out of step.

Modules:

- `Records`: the Task and User documents, the request bodies (`None` is a
  field the client left out), JavaScript `||` defaulting, and the documents
  each route writes.
- `PendingList`: `indexOf`, "push unless present", "splice out the first
  occurrence" and the `filter` difference, with their lemmas.
- `TaskSync`: detach and attach on the users map, the three guards of the
  task update, and what the update does to every user's list.
- `UserSync`: the removed/added difference of a user update and the
  unassign/assign cascades over tasks.
- `Store`: the class `Db` and the six route handlers.

Behaviour kept as the code has it. Two invariants one would expect between
the collections do not hold in general:

- "Every not-completed assigned task is on its assignee's list, and only
  those." The routes break this in several ways. Reopening a completed task
  for the same user re-adds nothing (`TaskSync.RelinkSameUser`). User create
  and update assign tasks without detaching them from their previous
  assignee. User update and delete clear `assignedUser` whatever it names. A
  completed task added to a user's list stays in the list but is not
  assigned.
- "Each pending list holds a task id at most once." The task routes keep
  this (`TaskSync.RelinkKeepsNoDup` and the `ListsNoDup` postconditions of
  the task handlers). User create and update store the requested list
  verbatim, duplicates included.

Other behaviour kept as written:

- POST /tasks saves the task first (tasks.js:97) and only then attaches it
  to its assignee. The update also saves the task first (tasks.js:217).
- In PUT /users/:id the not-found and duplicate-email branches send a
  response but do not stop the promise chain. With a missing user, the old
  list is taken as empty, so every listed task that exists and is not
  completed is assigned to the missing id. No user is written. With a
  duplicate email, the cascades run. The user is then written unless the
  store's own schema refuses the duplicate. The schema is not part of this
  model, so `UserUpdate` takes that choice as the parameter
  `storeRejectsDuplicateEmail`.
- In POST /users with a duplicate email, the chain also continues, with the
  response object standing in for the user. Reading its missing `_id`
  throws before any task is saved, so nothing changes.

## Model

| member | source | states |
|---|---|---|
| PendingList.IndexOf | routes/tasks.js:106 | returns -1 exactly when the id is absent, and otherwise the index of its first occurrence |
| PendingList.RemoveFirst | routes/tasks.js:229-232 | removing an id takes one occurrence out of the list's multiset and leaves a list without the id unchanged |
| PendingList.SpliceAtIndexOf | routes/tasks.js:229-231 | `splice(indexOf(x), 1)` is exactly "remove the first occurrence of x" |
| PendingList.RemoveFirstNoDup | routes/tasks.js:264-266 | on a duplicate-free list the removal leaves no copy of the id and keeps the list duplicate-free |
| PendingList.RemoveFirstIsSubsequence | routes/tasks.js:324-326 | removal keeps the other entries in their order |
| PendingList.AppendIfAbsent | routes/tasks.js:105-108 | the id ends up in the list, the old entries stay first and in order, the id is never added a second time, and a duplicate-free list stays duplicate-free |
| PendingList.Without | routes/users.js:234-236 | the filter keeps exactly the entries the other list lacks, each as many times as it occurred |
| PendingList.WithoutIsSubsequence | routes/users.js:239-241 | the filter keeps the order of what it keeps |
| Records.NewTask | routes/tasks.js:87-95 | a created task takes the given name and deadline; an omitted or empty description, assignee or assignee name becomes "", "" and "unassigned"; an omitted completed becomes false; an omitted or zero creation date becomes now |
| Records.UpdatedTask | routes/tasks.js:203-215 | an update overwrites name and deadline; an omitted completed becomes false, assignee "", assignee name "unassigned"; an omitted description or creation date keeps the stored value |
| Records.NewUser | routes/users.js:99-104 | a created user stores its pending list exactly as requested (default empty); an omitted or zero creation date becomes now |
| Records.UpdatedUser | routes/users.js:270-277 | an updated user stores name, email and the requested list verbatim; an omitted creation date keeps the stored one |
| Records.StringOr | routes/tasks.js:92-93 | `value || fallback` on a string: an omitted or empty value gives the fallback, any other value itself; a non-empty fallback gives a non-empty result |
| Records.DateOr | routes/tasks.js:94 | `value || fallback` on a date: an omitted date or 0 gives the fallback, any other date itself |
| Records.CompletedOrFalse | routes/tasks.js:91 | `completed` is true exactly when the body says true; an omitted flag is false |
| Records.HasTaskRequired | routes/tasks.js:79-84 | a task body passes only with a non-empty name and a non-zero deadline; an omitted or empty name or an omitted or zero deadline is rejected |
| Records.HasUserRequired | routes/users.js:81-86 | a user body passes only with a non-empty name and email; an omitted or empty one is rejected |
| Records.RequestedTasks | routes/users.js:102 | the requested list is the body's array, even an empty one, and [] when omitted |
| Records.EmailTaken | routes/users.js:89-96 | an email is taken exactly when some stored user has it |
| Records.Unassigned | routes/users.js:247-250 | the task's assignee becomes "" and its name "unassigned", and no other field changes |
| Records.AssignedTo | routes/users.js:259-262 | the task's assignee and assignee name are set, and no other field changes |
| TaskSync.Detach | routes/tasks.js:225-236 | only user u's list changes; it loses one occurrence of the id and keeps its order; a missing user or an absent id changes nothing |
| TaskSync.Attach | routes/tasks.js:243-253 | only user u's list changes; it holds the id afterwards, exactly once if it was not there before; the old list is kept as a prefix, so no other entry changes or moves |
| TaskSync.AttachOnCreate | routes/tasks.js:100 | creation attaches a task exactly when an update of an unassigned task to the same assignee and flag would |
| TaskSync.DetachFromOld | routes/tasks.js:223 | the old assignee is detached exactly when there was one and it differs from the new one |
| TaskSync.AttachToNew | routes/tasks.js:241 | only a non-empty, different assignee of a not completed task is attached, and moving away from a real assignee always also detaches it |
| TaskSync.DetachOnCompletion | routes/tasks.js:258 | completion detaches only a real old assignee of a task that was open, and a completing update never attaches anyone |
| TaskSync.Relink | routes/tasks.js:220-273 | the update's three guarded edits change no user other than the old and the new assignee |
| TaskSync.DetachRemoves | routes/tasks.js:319-331 | on a duplicate-free list, detaching leaves no copy of the task id |
| TaskSync.DetachTwice | routes/tasks.js:258-272 | a second detach of the same task from the same user changes nothing |
| TaskSync.DetachAttachKeepNoDup | routes/tasks.js:104-110 | detach and attach keep every pending list duplicate-free |
| TaskSync.RelinkKeepsNoDup | routes/tasks.js:222-273 | a task update keeps every pending list duplicate-free |
| TaskSync.RelinkReassigns | routes/tasks.js:223-254 | moving a pending task from U to V leaves it off U's list and on V's list exactly once |
| TaskSync.RelinkDetachesOnCompletion | routes/tasks.js:258-272 | completing a task removes it from its assignee's list, even when the assignee is unchanged |
| TaskSync.RelinkDetachesOld | routes/tasks.js:223-237 | unassigning or reassigning removes the task from the old assignee's list |
| TaskSync.RelinkAttachesNew | routes/tasks.js:241-254 | a different, non-empty new assignee gains the task (once) exactly when the task is not completed; nothing else in its document changes |
| TaskSync.RelinkSameUser | routes/tasks.js:222-273 | with the assignee unchanged no list gains the task, so reopening a completed task re-adds nothing; only completion detaches |
| UserSync.PendingDiff | routes/users.js:230-241 | removed holds the old entries not requested and added the requested entries not old, each in its list's order; they share no id; with no old list everything requested is added |
| UserSync.ClearListed | routes/users.js:244-253 | every existing listed task is unassigned whatever it named before; unlisted tasks are unchanged |
| UserSync.AssignListed | routes/users.js:256-265 | every existing, not completed listed task is assigned to the user; completed and unlisted tasks are unchanged |
| UserSync.CascadesCommute | routes/users.js:267 | the concurrent unassign and assign cascades give the same result in either order |
| UserSync.UpdateCascadeOutcome | routes/users.js:233-265 | after a user update a task is assigned to the user exactly when newly listed and not completed, unassigned exactly when dropped, and otherwise unchanged |
| Store.Db.DetachTask | routes/tasks.js:225-236 | the load, indexOf, splice and save on the old assignee is Detach |
| Store.Db.AttachTask | routes/tasks.js:243-253 | the load, indexOf, push and save on the new assignee is Attach |
| Store.Db.UnassignTasks | routes/users.js:326-335 | the loop over listed ids is ClearListed and leaves the users untouched |
| Store.Db.AssignTasks | routes/users.js:112-121 | the loop over listed ids is AssignListed and leaves the users untouched |
| Store.Db.TaskCreate | routes/tasks.js:77-138 | a missing name or deadline gives BadRequest and no change; otherwise the task is stored under the fresh id and attached to its assignee only when one is named and the task is not completed |
| Store.Db.TaskUpdate | routes/tasks.js:184-304 | a missing name or deadline gives BadRequest and an unknown id gives NotFound, both without change; otherwise the task is overwritten and the users change as Relink says; pending lists stay duplicate-free |
| Store.Db.TaskDelete | routes/tasks.js:306-361 | an unknown id gives NotFound and no change; otherwise the task is detached from its assignee and removed |
| Store.Db.UserCreate | routes/users.js:79-147 | a missing name or email or a taken email gives BadRequest and no change; otherwise the user is inserted, the listed tasks are assigned, and no other user changes |
| Store.Db.UserUpdate | routes/users.js:193-313 | the status, the cascades over the removed and added ids, and the user write, including the not-found and duplicate-email paths that fall through |
| Store.Db.UserDelete | routes/users.js:315-364 | an unknown id gives NotFound and no change; otherwise every existing listed task is unassigned and the user is removed |

## Left out

- The GET routes (tasks.js:9-75, 142-182; users.js:9-77, 151-191) are not modelled. They parse query strings and build store queries, which the store library does.
- HTTP responses are not modelled. A handler reports only a `Status` (200, 201, 204, 400, 404). Messages, payloads and the second response the fall-through paths try to send are left out.
- `Promise.all` concurrency is not modelled. Each group runs in list order. The unassign and assign groups of a user update touch disjoint ids (`UserSync.CascadesCommute`). The two detaches of the same old user in a task update are the same as one when the list has no duplicate (`TaskSync.DetachTwice`). With duplicates, a concurrent run may remove only one copy.
- Store I/O failures and the store's error classes (`ValidationError`, `CastError`, duplicate-key errors) are not modelled. The schemas that raise them are not part of this model. A malformed id is treated as a missing document. Because of this, POST /tasks naming a malformed assignee id is modelled as Created, while the code saves the task and then responds 400.
- Store.Db.TaskDelete: a task whose assignee is a malformed id makes `findById` reject (tasks.js:320), and the catch reports 404 (tasks.js:348-353) without deleting the task; the model treats the assignee as missing, deletes the task and reports NoContent.
- Store.Db.UserUpdate: a malformed `:id` makes the first `findById` reject (users.js:202), so no cascade runs; the model treats it as a missing user and still runs the assign cascade against it.
- Store.Db.UserUpdate: a malformed id in the requested or old list makes `Promise.all` reject (users.js:267), so the user is never written (users.js:270), although tasks whose loads succeeded may already be saved; the model skips that id and writes the user.
- Store.Db.UserDelete: a malformed id on the user's list makes `Promise.all` reject (users.js:337), so the user stays in place; the model skips that id and removes the user.
- Concurrent requests and their lost updates are not modelled, since the model runs one request at a time.
- `Date.now()` and the store's fresh `_id` are parameters (`now`, `id`), and the fresh id is required to be unused.
- Request values other than the modelled types are not covered: a non-boolean `completed`, a non-array `pendingTasks`, a `null` field. Dates are integers, and 0 is falsy as in JavaScript.
- The global consistency between tasks and users is not proved, because the routes do not maintain it (see the behaviour notes above).
