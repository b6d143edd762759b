/** The two collections and the six mutating routes that keep a task's
    `assignedUser` and its assignee's `pendingTasks` in step (routes/tasks.js,
    routes/users.js). Each handler runs its store operations one after the
    other; the source's `Promise.all` groups are run in list order. */
module Store {
  import opened Records
  import opened PendingList
  import opened TaskSync
  import opened UserSync

  class Db {
    var tasks: map<TaskId, Task>
    var users: map<UserId, User>

    constructor ()
      ensures tasks == map[] && users == map[]
    {
      tasks := map[];
      users := map[];
    }

    /** Load user `u`, `splice` the first occurrence of `t` out of its list and save it;
        a missing user or an absent id changes nothing (tasks.js:225-236, 260-271, 320-331). */
    method DetachTask(u: UserId, t: TaskId)
      modifies this
      ensures tasks == old(tasks)
      ensures users == Detach(old(users), u, t)
    {
      if u in users {
        var user := users[u];
        var pending := user.pendingTasks;
        var index := IndexOf(pending, t);
        if index != -1 {
          SpliceAtIndexOf(pending, t, index);
          pending := pending[..index] + pending[index + 1..];
          users := users[u := user.(pendingTasks := pending)];
        }
      }
    }

    /** Load user `u`, `push` `t` onto its list unless `indexOf` finds it, and save it;
        a missing user changes nothing (tasks.js:101-111, 243-253). */
    method AttachTask(u: UserId, t: TaskId)
      modifies this
      ensures tasks == old(tasks)
      ensures users == Attach(old(users), u, t)
    {
      if u in users {
        var user := users[u];
        var pending := user.pendingTasks;
        var index := IndexOf(pending, t);
        if index == -1 {
          pending := pending + [t];
          users := users[u := user.(pendingTasks := pending)];
        }
      }
    }

    /** For each listed id, load the task and, if it exists, clear its assignee and save it
        (users.js:244-252, 326-335). */
    method UnassignTasks(ids: seq<TaskId>)
      modifies this
      ensures users == old(users)
      ensures tasks == ClearListed(old(tasks), ids)
    {
      var i := 0;
      while i < |ids|
        invariant 0 <= i <= |ids|
        invariant users == old(users)
        invariant tasks.Keys == old(tasks).Keys
        invariant forall t :: t in tasks ==>
          tasks[t] == if t in ids[..i] then Unassigned(old(tasks)[t]) else old(tasks)[t]
      {
        var taskId := ids[i];
        if taskId in tasks {
          tasks := tasks[taskId := Unassigned(tasks[taskId])];
        }
        assert ids[..i + 1] == ids[..i] + [taskId];
        i := i + 1;
      }
      assert ids[..i] == ids;
    }

    /** For each listed id, load the task and, if it exists and is not completed, assign it
        to `u` under `name` and save it (users.js:112-121, 256-265). */
    method AssignTasks(ids: seq<TaskId>, u: UserId, name: string)
      modifies this
      ensures users == old(users)
      ensures tasks == AssignListed(old(tasks), ids, u, name)
    {
      var i := 0;
      while i < |ids|
        invariant 0 <= i <= |ids|
        invariant users == old(users)
        invariant tasks.Keys == old(tasks).Keys
        invariant forall t :: t in tasks ==>
          tasks[t] == if t in ids[..i] && !old(tasks)[t].completed then AssignedTo(old(tasks)[t], u, name) else old(tasks)[t]
      {
        var taskId := ids[i];
        if taskId in tasks && !tasks[taskId].completed {
          tasks := tasks[taskId := AssignedTo(tasks[taskId], u, name)];
        }
        assert ids[..i + 1] == ids[..i] + [taskId];
        i := i + 1;
      }
      assert ids[..i] == ids;
    }

    /** POST /tasks (tasks.js:77-138): validate, save the task under the store's fresh id,
        then attach it to its assignee when it has one and is not completed. */
    method TaskCreate(body: TaskBody, id: TaskId, now: Date) returns (status: Status)
      requires id !in tasks
      modifies this
      ensures !HasTaskRequired(body) ==>
        status == BadRequest && tasks == old(tasks) && users == old(users)
      ensures HasTaskRequired(body) ==>
        var task := NewTask(body, now);
        status == Created &&
        tasks == old(tasks)[id := task] &&
        users == if AttachOnCreate(task) then Attach(old(users), task.assignedUser, id) else old(users)
      ensures ListsNoDup(old(users)) ==> ListsNoDup(users)
    {
      if !HasTaskRequired(body) {
        return BadRequest;
      }
      var task := NewTask(body, now);
      tasks := tasks[id := task];
      if AttachOnCreate(task) {
        if ListsNoDup(users) {
          DetachAttachKeepNoDup(users, task.assignedUser, id);
        }
        AttachTask(task.assignedUser, id);
      }
      status := Created;
    }

    /** PUT /tasks/:id (tasks.js:184-304): validate, overwrite the task's fields and save it,
        then detach from the old assignee, attach to the new one and detach on completion,
        each only when its condition holds. */
    method TaskUpdate(id: TaskId, body: TaskBody) returns (status: Status)
      modifies this
      ensures !HasTaskRequired(body) ==>
        status == BadRequest && tasks == old(tasks) && users == old(users)
      ensures HasTaskRequired(body) && id !in old(tasks) ==>
        status == NotFound && tasks == old(tasks) && users == old(users)
      ensures HasTaskRequired(body) && id in old(tasks) ==>
        var before := old(tasks)[id];
        var after := UpdatedTask(before, body);
        status == Ok &&
        tasks == old(tasks)[id := after] &&
        users == Relink(old(users), id, before.assignedUser, after.assignedUser, before.completed, after.completed)
      ensures ListsNoDup(old(users)) ==> ListsNoDup(users)
    {
      if !HasTaskRequired(body) {
        return BadRequest;
      }
      if id !in tasks {
        return NotFound;
      }
      var task := tasks[id];
      var oldAssignedUser := task.assignedUser;
      var oldCompleted := task.completed;
      task := UpdatedTask(task, body);
      var newAssignedUser := task.assignedUser;
      var newCompleted := task.completed;
      tasks := tasks[id := task];
      ghost var before := users;
      if DetachFromOld(oldAssignedUser, newAssignedUser) {
        DetachTask(oldAssignedUser, id);
      }
      if AttachToNew(oldAssignedUser, newAssignedUser, newCompleted) {
        AttachTask(newAssignedUser, id);
      }
      if DetachOnCompletion(oldAssignedUser, oldCompleted, newCompleted) {
        DetachTask(oldAssignedUser, id);
      }
      if ListsNoDup(before) {
        RelinkKeepsNoDup(before, id, oldAssignedUser, newAssignedUser, oldCompleted, newCompleted);
      }
      status := Ok;
    }

    /** DELETE /tasks/:id (tasks.js:306-361): detach the task from its assignee, then
        remove it. */
    method TaskDelete(id: TaskId) returns (status: Status)
      modifies this
      ensures id !in old(tasks) ==>
        status == NotFound && tasks == old(tasks) && users == old(users)
      ensures id in old(tasks) ==>
        var assignee := old(tasks)[id].assignedUser;
        status == NoContent &&
        tasks == old(tasks) - {id} &&
        users == if assignee != "" then Detach(old(users), assignee, id) else old(users)
      ensures ListsNoDup(old(users)) ==> ListsNoDup(users)
    {
      if id !in tasks {
        return NotFound;
      }
      var assignee := tasks[id].assignedUser;
      if assignee != "" {
        if ListsNoDup(users) {
          DetachAttachKeepNoDup(users, assignee, id);
        }
        DetachTask(assignee, id);
      }
      tasks := tasks - {id};
      status := NoContent;
    }

    /** POST /users (users.js:79-147): validate, reject an email another user holds, save
        the user under the store's fresh id, then assign each listed task that exists and
        is not completed. The tasks' previous assignees keep them on their lists. */
    method UserCreate(body: UserBody, id: UserId, now: Date) returns (status: Status)
      requires id !in users
      modifies this
      ensures !HasUserRequired(body) ==>
        status == BadRequest && tasks == old(tasks) && users == old(users)
      ensures HasUserRequired(body) && EmailTaken(old(users), body.email.value) ==>
        status == BadRequest && tasks == old(tasks) && users == old(users)
      ensures HasUserRequired(body) && !EmailTaken(old(users), body.email.value) ==>
        status == Created &&
        users == old(users)[id := NewUser(body, now)] &&
        tasks == AssignListed(old(tasks), RequestedTasks(body), id, body.name.value)
      ensures EmailsUnique(old(users)) ==> EmailsUnique(users)
    {
      if !HasUserRequired(body) {
        return BadRequest;
      }
      if EmailTaken(users, body.email.value) {
        // The chain goes on with the response object in place of the user, and reading
        // its missing `_id` throws before any task is saved.
        return BadRequest;
      }
      var user := NewUser(body, now);
      users := users[id := user];
      AssignTasks(RequestedTasks(body), id, user.name);
      status := Created;
    }

    /** PUT /users/:id (users.js:193-313). The not-found and duplicate-email branches send
        their response but do not stop the chain: the cascades still run, against an empty
        old list when the user is missing. The final `findByIdAndUpdate` writes nothing for
        a missing user, and for a duplicate email writes unless the store itself refuses
        it, which `storeRejectsDuplicateEmail` stands for. */
    method UserUpdate(id: UserId, body: UserBody, storeRejectsDuplicateEmail: bool) returns (status: Status)
      modifies this
      ensures !HasUserRequired(body) ==>
        status == BadRequest && tasks == old(tasks) && users == old(users)
      ensures HasUserRequired(body) ==>
        var found := id in old(users);
        var before := if found then old(users)[id].pendingTasks else [];
        var diff := PendingDiff(before, RequestedTasks(body));
        var conflict := found && body.email.value != old(users)[id].email && EmailTaken(old(users), body.email.value);
        status == (if !found then NotFound else if conflict then BadRequest else Ok) &&
        tasks == AssignListed(ClearListed(old(tasks), diff.removed), diff.added, id, body.name.value) &&
        users == if !found || (conflict && storeRejectsDuplicateEmail) then old(users)
                 else old(users)[id := UpdatedUser(old(users)[id], body)]
      ensures EmailsUnique(old(users)) && storeRejectsDuplicateEmail ==> EmailsUnique(users)
    {
      if !HasUserRequired(body) {
        return BadRequest;
      }
      status := Ok;
      if id !in users {
        status := NotFound;
      } else if body.email.value != users[id].email && EmailTaken(users, body.email.value) {
        status := BadRequest;
      }
      var oldPendingTasks := if id in users then users[id].pendingTasks else [];
      var newPendingTasks := RequestedTasks(body);
      var diff := PendingDiff(oldPendingTasks, newPendingTasks);
      UnassignTasks(diff.removed);
      AssignTasks(diff.added, id, body.name.value);
      if id in users && !(status == BadRequest && storeRejectsDuplicateEmail) {
        users := users[id := UpdatedUser(users[id], body)];
      }
    }

    /** DELETE /users/:id (users.js:315-364): clear the assignee of every existing task on
        the user's list, whoever it currently names, then remove the user. */
    method UserDelete(id: UserId) returns (status: Status)
      modifies this
      ensures id !in old(users) ==>
        status == NotFound && tasks == old(tasks) && users == old(users)
      ensures id in old(users) ==>
        status == NoContent &&
        tasks == ClearListed(old(tasks), old(users)[id].pendingTasks) &&
        users == old(users) - {id}
    {
      if id !in users {
        return NotFound;
      }
      UnassignTasks(users[id].pendingTasks);
      users := users - {id};
      status := NoContent;
    }
  }
}
