/** What the task routes do to the users' `pendingTasks` lists: detach a task
    from one user, attach it to another, and the three guarded edits that
    PUT /tasks/:id applies after saving the task (routes/tasks.js:222-273). */
module TaskSync {
  import opened Records
  import opened PendingList

  /** Every user's pending list is free of duplicates. */
  ghost predicate ListsNoDup(users: map<UserId, User>) {
    forall u :: u in users ==> NoDup(users[u].pendingTasks)
  }

  /** Remove the first occurrence of `t` from user `u`'s list; a missing user is a no-op. */
  function Detach(users: map<UserId, User>, u: UserId, t: TaskId): (r: map<UserId, User>)
    ensures r.Keys == users.Keys
    ensures forall v :: v in users && v != u ==> r[v] == users[v]
    ensures u in users ==> r[u] == users[u].(pendingTasks := r[u].pendingTasks)
    ensures u in users ==> multiset(r[u].pendingTasks) == multiset(users[u].pendingTasks) - multiset{t}
    ensures u in users ==> IsSubsequence(r[u].pendingTasks, users[u].pendingTasks)
    ensures u !in users || t !in users[u].pendingTasks ==> r == users
  {
    if u in users then
      RemoveFirstIsSubsequence(users[u].pendingTasks, t);
      users[u := users[u].(pendingTasks := RemoveFirst(users[u].pendingTasks, t))]
    else
      users
  }

  /** Append `t` to user `u`'s list unless it is there; a missing user is a no-op. */
  function Attach(users: map<UserId, User>, u: UserId, t: TaskId): (r: map<UserId, User>)
    ensures r.Keys == users.Keys
    ensures forall v :: v in users && v != u ==> r[v] == users[v]
    ensures u in users ==> r[u] == users[u].(pendingTasks := r[u].pendingTasks)
    ensures u in users ==> t in r[u].pendingTasks
    ensures u in users ==> multiset(r[u].pendingTasks)[t] == if t in users[u].pendingTasks then multiset(users[u].pendingTasks)[t] else 1
    ensures u in users ==> forall x :: x != t ==> multiset(r[u].pendingTasks)[x] == multiset(users[u].pendingTasks)[x]
    ensures u in users ==> |users[u].pendingTasks| <= |r[u].pendingTasks| &&
                           r[u].pendingTasks[..|users[u].pendingTasks|] == users[u].pendingTasks
  {
    if u in users then
      users[u := users[u].(pendingTasks := AppendIfAbsent(users[u].pendingTasks, t))]
    else
      users
  }

  /** POST /tasks attaches the saved task when it names an assignee and is not completed
      (tasks.js:100): exactly when an update of a task that had no assignee would. */
  predicate AttachOnCreate(task: Task): (r: bool)
    ensures r ==> task.assignedUser != ""
    ensures r <==> AttachToNew("", task.assignedUser, task.completed)
  {
    task.assignedUser != "" && !task.completed
  }

  /** The task had an assignee and now has none or another one (tasks.js:223); the test
      for an empty new assignee adds nothing to the test for a different one. */
  predicate DetachFromOld(oldUser: UserId, newUser: UserId): (r: bool)
    ensures r <==> oldUser != "" && oldUser != newUser
  {
    oldUser != "" && (newUser == "" || oldUser != newUser)
  }

  /** The task names a new assignee and is not completed (tasks.js:241); moving away from
      an assignee always comes with detaching from it. */
  predicate AttachToNew(oldUser: UserId, newUser: UserId, newCompleted: bool): (r: bool)
    ensures r ==> newUser != "" && !newCompleted
    ensures r && oldUser != "" ==> DetachFromOld(oldUser, newUser)
    ensures oldUser == newUser ==> !r
  {
    newUser != "" && oldUser != newUser && !newCompleted
  }

  /** The task had an assignee and went from not completed to completed (tasks.js:258);
      a completing update never attaches the task to anyone. */
  predicate DetachOnCompletion(oldUser: UserId, oldCompleted: bool, newCompleted: bool): (r: bool)
    ensures r ==> oldUser != "" && newCompleted && !oldCompleted
    ensures r ==> forall v :: !AttachToNew(oldUser, v, newCompleted)
  {
    oldUser != "" && !oldCompleted && newCompleted
  }

  /** The users map after the three guarded edits of PUT /tasks/:id, run in source order. */
  function Relink(users: map<UserId, User>, t: TaskId, oldUser: UserId, newUser: UserId,
                  oldCompleted: bool, newCompleted: bool): (r: map<UserId, User>)
    ensures r.Keys == users.Keys
    ensures forall v :: v in users && v != oldUser && v != newUser ==> r[v] == users[v]
  {
    var afterDetach := if DetachFromOld(oldUser, newUser) then Detach(users, oldUser, t) else users;
    var afterAttach := if AttachToNew(oldUser, newUser, newCompleted) then Attach(afterDetach, newUser, t) else afterDetach;
    if DetachOnCompletion(oldUser, oldCompleted, newCompleted) then Detach(afterAttach, oldUser, t) else afterAttach
  }

  /** On a duplicate-free list, detaching removes the task entirely and keeps the list duplicate-free. */
  lemma DetachRemoves(users: map<UserId, User>, u: UserId, t: TaskId)
    requires u in users && NoDup(users[u].pendingTasks)
    ensures t !in Detach(users, u, t)[u].pendingTasks
    ensures NoDup(Detach(users, u, t)[u].pendingTasks)
  {
    RemoveFirstNoDup(users[u].pendingTasks, t);
  }

  /** Detaching twice is detaching once, when the list had no duplicate: the second
      detach of tasks.js:258 after the one of tasks.js:223 changes nothing. */
  lemma DetachTwice(users: map<UserId, User>, u: UserId, t: TaskId)
    requires u in users ==> NoDup(users[u].pendingTasks)
    ensures Detach(Detach(users, u, t), u, t) == Detach(users, u, t)
  {
    if u in users {
      DetachRemoves(users, u, t);
    }
  }

  /** Detaching and attaching keep every list duplicate-free. */
  lemma DetachAttachKeepNoDup(users: map<UserId, User>, u: UserId, t: TaskId)
    requires ListsNoDup(users)
    ensures ListsNoDup(Detach(users, u, t)) && ListsNoDup(Attach(users, u, t))
  {
    if u in users {
      DetachRemoves(users, u, t);
    }
  }

  /** PUT /tasks/:id keeps every pending list duplicate-free. */
  lemma RelinkKeepsNoDup(users: map<UserId, User>, t: TaskId, oldUser: UserId, newUser: UserId,
                         oldCompleted: bool, newCompleted: bool)
    requires ListsNoDup(users)
    ensures ListsNoDup(Relink(users, t, oldUser, newUser, oldCompleted, newCompleted))
  {
    var afterDetach := if DetachFromOld(oldUser, newUser) then Detach(users, oldUser, t) else users;
    DetachAttachKeepNoDup(users, oldUser, t);
    var afterAttach := if AttachToNew(oldUser, newUser, newCompleted) then Attach(afterDetach, newUser, t) else afterDetach;
    DetachAttachKeepNoDup(afterDetach, newUser, t);
    DetachAttachKeepNoDup(afterAttach, oldUser, t);
  }

  /** Reassigning a pending task from U to V (V not empty, different from U) leaves it
      off U's list and on V's list exactly once. */
  lemma RelinkReassigns(users: map<UserId, User>, t: TaskId, oldUser: UserId, newUser: UserId,
                        oldCompleted: bool)
    requires oldUser != "" && newUser != "" && oldUser != newUser
    requires oldUser in users && newUser in users
    requires NoDup(users[oldUser].pendingTasks) && NoDup(users[newUser].pendingTasks)
    ensures var r := Relink(users, t, oldUser, newUser, oldCompleted, false);
      t !in r[oldUser].pendingTasks && multiset(r[newUser].pendingTasks)[t] == 1
  {
    DetachRemoves(users, oldUser, t);
    NoDupAtMostOnce(users[newUser].pendingTasks, t);
  }

  /** Completing a task detaches it from its assignee even when the assignee stays the same. */
  lemma RelinkDetachesOnCompletion(users: map<UserId, User>, t: TaskId, oldUser: UserId, newUser: UserId)
    requires oldUser != "" && oldUser in users && NoDup(users[oldUser].pendingTasks)
    ensures t !in Relink(users, t, oldUser, newUser, false, true)[oldUser].pendingTasks
  {
    DetachRemoves(users, oldUser, t);
  }

  /** Unassigning or reassigning removes the task from the old assignee's list, whatever
      the completion state does. */
  lemma RelinkDetachesOld(users: map<UserId, User>, t: TaskId, oldUser: UserId, newUser: UserId,
                          oldCompleted: bool, newCompleted: bool)
    requires DetachFromOld(oldUser, newUser)
    requires oldUser in users && NoDup(users[oldUser].pendingTasks)
    ensures t !in Relink(users, t, oldUser, newUser, oldCompleted, newCompleted)[oldUser].pendingTasks
  {
    DetachRemoves(users, oldUser, t);
    if DetachOnCompletion(oldUser, oldCompleted, newCompleted) {
      DetachTwice(users, oldUser, t);
    }
  }

  /** The new assignee's list gains the task exactly when the task is pending and the
      assignee changed; nothing else in its document changes. */
  lemma RelinkAttachesNew(users: map<UserId, User>, t: TaskId, oldUser: UserId, newUser: UserId,
                          oldCompleted: bool, newCompleted: bool)
    requires newUser in users && newUser != oldUser && newUser != ""
    ensures var r := Relink(users, t, oldUser, newUser, oldCompleted, newCompleted);
      r[newUser] == users[newUser].(pendingTasks :=
        if newCompleted then users[newUser].pendingTasks
        else AppendIfAbsent(users[newUser].pendingTasks, t))
  {
  }

  /** While the assignee stays the same, no list gains the task: reopening a completed
      task (true to false) re-adds nothing, and only completing it detaches. */
  lemma RelinkSameUser(users: map<UserId, User>, t: TaskId, u: UserId, oldCompleted: bool, newCompleted: bool)
    ensures Relink(users, t, u, u, oldCompleted, newCompleted) ==
      if DetachOnCompletion(u, oldCompleted, newCompleted) then Detach(users, u, t) else users
  {
  }
}
