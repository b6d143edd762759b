/** Task and User documents, the request bodies the six mutating routes
    accept, and the field defaulting those routes apply (routes/tasks.js,
    routes/users.js). */
module Records {

  /** Store identifiers, as the text the documents hold in `assignedUser` and `pendingTasks`. */
  type TaskId = string
  type UserId = string

  /** A date as milliseconds since the epoch; 0 is falsy for JavaScript's `||`. */
  type Date = int

  datatype Option<T> = None | Some(value: T)

  /** The display name a task carries while it has no assignee. */
  const UnassignedName := "unassigned"

  datatype Task = Task(
    name: string,
    description: string,
    deadline: Date,
    completed: bool,
    assignedUser: UserId,
    assignedUserName: string,
    dateCreated: Date)

  datatype User = User(
    name: string,
    email: string,
    pendingTasks: seq<TaskId>,
    dateCreated: Date)

  /** A task request body; `None` is a field the client left out. */
  datatype TaskBody = TaskBody(
    name: Option<string>,
    description: Option<string>,
    deadline: Option<Date>,
    completed: Option<bool>,
    assignedUser: Option<UserId>,
    assignedUserName: Option<string>,
    dateCreated: Option<Date>)

  /** A user request body; `None` is a field the client left out. */
  datatype UserBody = UserBody(
    name: Option<string>,
    email: Option<string>,
    pendingTasks: Option<seq<TaskId>>,
    dateCreated: Option<Date>)

  /** The outcome a handler reports: 200, 201, 204, 400 or 404. */
  datatype Status = Ok | Created | NoContent | BadRequest | NotFound

  /** A string field is truthy when present and non-empty. */
  predicate Given(v: Option<string>) {
    v.Some? && v.value != ""
  }

  /** `v || fallback` on a string field: an omitted and an empty value both fall back. */
  function StringOr(v: Option<string>, fallback: string): (r: string)
    ensures v == None || v == Some("") ==> r == fallback
    ensures v.Some? && v.value != "" ==> r == v.value
    ensures fallback != "" ==> r != ""
  {
    if Given(v) then v.value else fallback
  }

  /** A date field is truthy when present and non-zero. */
  predicate DateGiven(v: Option<Date>) {
    v.Some? && v.value != 0
  }

  /** `v || fallback` on a date field: an omitted date and the date 0 both fall back. */
  function DateOr(v: Option<Date>, fallback: Date): (r: Date)
    ensures v == None || v == Some(0) ==> r == fallback
    ensures v.Some? && v.value != 0 ==> r == v.value
    ensures fallback != 0 ==> r != 0
  {
    if DateGiven(v) then v.value else fallback
  }

  /** `v !== undefined ? v : false` on the `completed` field. */
  function CompletedOrFalse(v: Option<bool>): (r: bool)
    ensures r <==> v == Some(true)
    ensures v == None ==> !r
  {
    v.Some? && v.value
  }

  /** The task routes reject a body whose `name` or `deadline` is falsy (tasks.js:79, 186). */
  predicate HasTaskRequired(b: TaskBody): (r: bool)
    ensures r ==> b.name.Some? && |b.name.value| > 0 && b.deadline.Some? && b.deadline.value != 0
    ensures b.name == None || b.name == Some("") ==> !r
    ensures b.deadline == None || b.deadline == Some(0) ==> !r
  {
    Given(b.name) && DateGiven(b.deadline)
  }

  /** The user routes reject a body whose `name` or `email` is falsy (users.js:81, 195). */
  predicate HasUserRequired(b: UserBody): (r: bool)
    ensures r ==> b.name.Some? && |b.name.value| > 0 && b.email.Some? && |b.email.value| > 0
    ensures b.name == None || b.name == Some("") ==> !r
    ensures b.email == None || b.email == Some("") ==> !r
  {
    Given(b.name) && Given(b.email)
  }

  /** `req.body.pendingTasks || []`: an array is truthy even when empty. */
  function RequestedTasks(b: UserBody): (r: seq<TaskId>)
    ensures b.pendingTasks == None ==> r == []
    ensures b.pendingTasks.Some? ==> r == b.pendingTasks.value
    ensures r == [] <==> b.pendingTasks == None || b.pendingTasks == Some([])
  {
    if b.pendingTasks.Some? then b.pendingTasks.value else []
  }

  /** The document POST /tasks saves: omitted optional fields take their defaults. */
  function NewTask(b: TaskBody, now: Date): (t: Task)
    requires HasTaskRequired(b)
    ensures t.name == b.name.value && t.deadline == b.deadline.value
    ensures Given(b.description) ==> t.description == b.description.value
    ensures !Given(b.description) ==> t.description == ""
    ensures b.completed == None ==> !t.completed
    ensures b.completed.Some? ==> t.completed == b.completed.value
    ensures Given(b.assignedUser) ==> t.assignedUser == b.assignedUser.value
    ensures !Given(b.assignedUser) ==> t.assignedUser == ""
    ensures Given(b.assignedUserName) ==> t.assignedUserName == b.assignedUserName.value
    ensures !Given(b.assignedUserName) ==> t.assignedUserName == UnassignedName
    ensures DateGiven(b.dateCreated) ==> t.dateCreated == b.dateCreated.value
    ensures !DateGiven(b.dateCreated) ==> t.dateCreated == now
  {
    Task(
      b.name.value,
      StringOr(b.description, ""),
      b.deadline.value,
      CompletedOrFalse(b.completed),
      StringOr(b.assignedUser, ""),
      StringOr(b.assignedUserName, UnassignedName),
      DateOr(b.dateCreated, now))
  }

  /** The document PUT /tasks/:id saves over `before`. Unlike creation, an omitted
      description or creation date keeps the stored value, and a present but empty
      description is written as given. */
  function UpdatedTask(before: Task, b: TaskBody): (t: Task)
    requires HasTaskRequired(b)
    ensures t.name == b.name.value && t.deadline == b.deadline.value
    ensures b.description == None ==> t.description == before.description
    ensures b.description.Some? ==> t.description == b.description.value
    ensures b.completed == None ==> !t.completed
    ensures b.completed.Some? ==> t.completed == b.completed.value
    ensures Given(b.assignedUser) ==> t.assignedUser == b.assignedUser.value
    ensures !Given(b.assignedUser) ==> t.assignedUser == ""
    ensures !Given(b.assignedUserName) ==> t.assignedUserName == UnassignedName
    ensures Given(b.assignedUserName) ==> t.assignedUserName == b.assignedUserName.value
    ensures !DateGiven(b.dateCreated) ==> t.dateCreated == before.dateCreated
    ensures DateGiven(b.dateCreated) ==> t.dateCreated == b.dateCreated.value
  {
    before.(
      name := b.name.value,
      description := if b.description.Some? then b.description.value else before.description,
      deadline := b.deadline.value,
      completed := CompletedOrFalse(b.completed),
      assignedUser := StringOr(b.assignedUser, ""),
      assignedUserName := StringOr(b.assignedUserName, UnassignedName),
      dateCreated := DateOr(b.dateCreated, before.dateCreated))
  }

  /** The document POST /users saves: the pending list exactly as requested. */
  function NewUser(b: UserBody, now: Date): (u: User)
    requires HasUserRequired(b)
    ensures u.name == b.name.value && u.email == b.email.value
    ensures u.pendingTasks == RequestedTasks(b)
    ensures b.pendingTasks == None ==> u.pendingTasks == []
    ensures !DateGiven(b.dateCreated) ==> u.dateCreated == now
    ensures DateGiven(b.dateCreated) ==> u.dateCreated == b.dateCreated.value
  {
    User(b.name.value, b.email.value, RequestedTasks(b), DateOr(b.dateCreated, now))
  }

  /** The document `findByIdAndUpdate` writes in PUT /users/:id: the pending list exactly
      as requested (no de-duplication), the creation date kept when omitted. */
  function UpdatedUser(before: User, b: UserBody): (u: User)
    requires HasUserRequired(b)
    ensures u.name == b.name.value && u.email == b.email.value
    ensures u.pendingTasks == RequestedTasks(b)
    ensures b.pendingTasks == None ==> u.pendingTasks == []
    ensures !DateGiven(b.dateCreated) ==> u.dateCreated == before.dateCreated
    ensures DateGiven(b.dateCreated) ==> u.dateCreated == b.dateCreated.value
  {
    User(b.name.value, b.email.value, RequestedTasks(b), DateOr(b.dateCreated, before.dateCreated))
  }

  /** `assignedUser = ""; assignedUserName = "unassigned"` (users.js:248-249, 330-331). */
  function Unassigned(t: Task): (r: Task)
    ensures r.assignedUser == "" && r.assignedUserName == UnassignedName
    ensures r.(assignedUser := t.assignedUser, assignedUserName := t.assignedUserName) == t
  {
    t.(assignedUser := "", assignedUserName := UnassignedName)
  }

  /** `assignedUser = u; assignedUserName = name` (users.js:116-117, 260-261). */
  function AssignedTo(t: Task, u: UserId, name: string): (r: Task)
    ensures r.assignedUser == u && r.assignedUserName == name
    ensures r.(assignedUser := t.assignedUser, assignedUserName := t.assignedUserName) == t
  {
    t.(assignedUser := u, assignedUserName := name)
  }

  /** `User.findOne({ email })` finds a document (users.js:89, 213). */
  predicate EmailTaken(users: map<UserId, User>, email: string): (r: bool)
    ensures r <==> email in (set u | u in users :: users[u].email)
    ensures !r ==> forall u :: u in users ==> users[u].email != email
  {
    exists u :: u in users && users[u].email == email
  }

  /** No two users share an email. */
  ghost predicate EmailsUnique(users: map<UserId, User>) {
    forall u, v :: u in users && v in users && u != v ==> users[u].email != users[v].email
  }
}
