/** What the user routes do to the tasks: the difference between a user's old and
    requested pending lists, and the unassign and assign cascades over listed
    tasks (routes/users.js:109-121, 233-265, 325-335). */
module UserSync {
  import opened Records
  import opened PendingList

  /** The tasks PUT /users/:id unassigns (`removeTasks`) and assigns (`addTasks`). */
  datatype ListDiff = ListDiff(removed: seq<TaskId>, added: seq<TaskId>)

  /** `removeTasks` keeps the old entries the request lacks and `addTasks` the requested
      entries the old list lacks (users.js:234-241), both in their list's order. */
  function PendingDiff(before: seq<TaskId>, after: seq<TaskId>): (d: ListDiff)
    ensures forall t :: t in d.removed <==> t in before && t !in after
    ensures forall t :: t in d.added <==> t in after && t !in before
    ensures forall t :: t in d.removed ==> t !in d.added
    ensures IsSubsequence(d.removed, before) && IsSubsequence(d.added, after)
    ensures before == [] ==> d.removed == [] && d.added == after
  {
    WithoutIsSubsequence(before, after);
    WithoutIsSubsequence(after, before);
    WithoutNothing(after);
    ListDiff(Without(before, after), Without(after, before))
  }

  /** Filtering by an empty list keeps everything. */
  lemma {:induction false} WithoutNothing(a: seq<TaskId>)
    ensures Without(a, []) == a
  {
    if a != [] {
      WithoutNothing(a[1..]);
      assert a == [a[0]] + a[1..];
    }
  }

  /** Every existing listed task loses its assignee, whoever it is; other tasks are untouched. */
  function ClearListed(tasks: map<TaskId, Task>, ids: seq<TaskId>): (r: map<TaskId, Task>)
    ensures r.Keys == tasks.Keys
    ensures forall t :: t in tasks && t !in ids ==> r[t] == tasks[t]
    ensures forall t :: t in tasks && t in ids ==> r[t] == Unassigned(tasks[t])
  {
    map t | t in tasks :: if t in ids then Unassigned(tasks[t]) else tasks[t]
  }

  /** Every existing, not completed listed task is assigned to `u` under `name`; completed
      and unlisted tasks are untouched. */
  function AssignListed(tasks: map<TaskId, Task>, ids: seq<TaskId>, u: UserId, name: string): (r: map<TaskId, Task>)
    ensures r.Keys == tasks.Keys
    ensures forall t :: t in tasks && (t !in ids || tasks[t].completed) ==> r[t] == tasks[t]
    ensures forall t :: t in tasks && t in ids && !tasks[t].completed ==> r[t] == AssignedTo(tasks[t], u, name)
  {
    map t | t in tasks :: if t in ids && !tasks[t].completed then AssignedTo(tasks[t], u, name) else tasks[t]
  }

  /** The unassign and assign cascades of PUT /users/:id run concurrently in the source
      (users.js:267); over disjoint lists their order does not matter. */
  lemma CascadesCommute(tasks: map<TaskId, Task>, removed: seq<TaskId>, added: seq<TaskId>, u: UserId, name: string)
    requires forall t :: t in removed ==> t !in added
    ensures AssignListed(ClearListed(tasks, removed), added, u, name) ==
            ClearListed(AssignListed(tasks, added, u, name), removed)
  {
  }

  /** After PUT /users/:id, an existing task ends up assigned to the user exactly when it
      was newly listed and not completed, unassigned exactly when it was dropped from the
      list, and otherwise as it was. */
  lemma UpdateCascadeOutcome(tasks: map<TaskId, Task>, before: seq<TaskId>, after: seq<TaskId>,
                             u: UserId, name: string, t: TaskId)
    requires t in tasks
    ensures var d := PendingDiff(before, after);
      var r := AssignListed(ClearListed(tasks, d.removed), d.added, u, name);
      r[t] == if t in after && t !in before && !tasks[t].completed then AssignedTo(tasks[t], u, name)
              else if t in before && t !in after then Unassigned(tasks[t])
              else tasks[t]
  {
  }
}
