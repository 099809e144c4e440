/** The task CRUD handlers of server/controllers/taskController.js. The
    collection of stored tasks is an object whose map the handlers update;
    the MongoDB query language is represented by the filter document a
    handler builds and by the predicate that document denotes. */
module TaskController {
  import opened Wrappers
  import opened JsValue
  import opened TaskModel
  import opened Http

  /** `req.query` of `GET /tasks`; None is an absent parameter. */
  datatype TaskQueryParams = TaskQueryParams(
    status: Option<string>,
    priority: Option<string>,
    sortBy: Option<string>,
    search: Option<string>)

  /** The filter document: always the owner, plus the optional equality
      conditions and the optional `$or` of two case-insensitive regexes. */
  datatype Filter = Filter(
    userId: UserId,
    status: Option<string>,
    priority: Option<string>,
    search: Option<string>)

  datatype SortOrder = CreatedAtDesc | DueDateAsc

  datatype Query = Query(filter: Filter, sort: SortOrder)

  /** The tasks a filter document selects. `regex(pattern, text)` stands for
      MongoDB's case-insensitive `$regex` match, which is not modelled. */
  predicate Matches(t: Task, f: Filter, regex: (string, string) -> bool) {
    && t.userId == f.userId
    && (f.status.Some? ==> StatusName(t.status) == f.status.value)
    && (f.priority.Some? ==> PriorityName(t.priority) == f.priority.value)
    && (f.search.Some? ==> regex(f.search.value, t.title) || regex(f.search.value, t.description))
  }

  /** A query-string value is used only when it is truthy (non-empty). */
  predicate Given(p: Option<string>) {
    p.Some? && p.value != ""
  }

  /** Builds the query of getTasks: the filter is assembled one condition at a time. */
  method BuildTaskQuery(userId: UserId, q: TaskQueryParams) returns (query: Query)
    ensures forall t: Task, regex: (string, string) -> bool {:trigger Matches(t, query.filter, regex)} ::
      Matches(t, query.filter, regex) <==>
        && t.userId == userId
        && (Given(q.status) ==> StatusName(t.status) == q.status.value)
        && (Given(q.priority) ==> PriorityName(t.priority) == q.priority.value)
        && (q.search.Some? && !Blank(q.search.value) ==>
              regex(Trim(q.search.value), t.title) || regex(Trim(q.search.value), t.description))
    ensures query.sort == DueDateAsc <==> q.sortBy == Some("dueDate")
  {
    var filter := Filter(userId, None, None, None);
    if Given(q.status) {
      filter := filter.(status := q.status);
    }
    if Given(q.priority) {
      filter := filter.(priority := q.priority);
    }
    if q.search.Some? && Trim(q.search.value) != "" {
      var pattern := Trim(q.search.value);
      filter := filter.(search := Some(pattern));
    }
    var sort := CreatedAtDesc;
    if q.sortBy == Some("dueDate") {
      sort := DueDateAsc;
    }
    if q.sortBy == Some("createdAt") {
      sort := CreatedAtDesc;
    }
    query := Query(filter, sort);
  }

  /** The body of a successful getTasks reply. */
  datatype TaskList = TaskList(data: seq<Task>, count: nat)

  /** getTasks: the query built from the parameters is answered by `find`. */
  method GetTasks(userId: UserId, q: TaskQueryParams, find: Query -> Settled<seq<Task>>)
    returns (query: Query, r: Response<TaskList>)
    ensures forall t: Task, regex: (string, string) -> bool {:trigger Matches(t, query.filter, regex)} ::
      Matches(t, query.filter, regex) <==>
        && t.userId == userId
        && (Given(q.status) ==> StatusName(t.status) == q.status.value)
        && (Given(q.priority) ==> PriorityName(t.priority) == q.priority.value)
        && (q.search.Some? && !Blank(q.search.value) ==>
              regex(Trim(q.search.value), t.title) || regex(Trim(q.search.value), t.description))
    ensures query.sort == DueDateAsc <==> q.sortBy == Some("dueDate")
    ensures find(query).Resolved? ==> r == Reply(200, TaskList(find(query).value, |find(query).value|))
    ensures find(query).Rejected? ==> r == Fail(500, Some(false), "Failed to get tasks")
  {
    query := BuildTaskQuery(userId, q);
    var found := find(query);
    if found.Rejected? {
      return query, Fail(500, Some(false), "Failed to get tasks");
    }
    var tasks := found.value;
    r := Reply(200, TaskList(tasks, |tasks|));
  }

  /** The operations guarded by the ownership check; each has its own 403 text. */
  datatype Access = Read | Update | Delete | Toggle

  function ForbiddenMessage(a: Access): string {
    match a
    case Read => "Not authorized to access this task"
    case Update => "Not authorized to update this task"
    case Delete => "Not authorized to delete this task"
    case Toggle => "Not authorized to update this task"
  }

  /** The flip of toggleTaskCompletion. */
  function Toggled(s: Status): (r: Status)
    ensures r != s
  {
    if s == Completed then Pending else Completed
  }

  /** Toggling twice restores the status. */
  lemma {:induction false} ToggleInvolution(s: Status)
    ensures Toggled(Toggled(s)) == s
  {
  }

  /** The fields of `req.body` an update copies; None is `undefined`, which
      the update leaves untouched. */
  datatype TaskPatch = TaskPatch(
    title: Option<string>,
    description: Option<string>,
    priority: Option<Priority>,
    dueDate: Option<int>,
    status: Option<Status>)

  /** The update validators' check of a patch: a given title must not be
      empty once the schema's trim setter has run. */
  predicate PatchAccepted(p: TaskPatch) {
    p.title.Some? ==> Trim(p.title.value) != ""
  }

  /** A task after `findByIdAndUpdate` with a patch at time `now`; the
      schema's trim setters run on the given title and description. */
  function Patched(t: Task, p: TaskPatch, now: int): (u: Task)
    ensures u.id == t.id && u.userId == t.userId && u.createdAt == t.createdAt
    ensures u.updatedAt == now
    ensures u.title == (if p.title.Some? then Trim(p.title.value) else t.title)
    ensures u.description == (if p.description.Some? then Trim(p.description.value) else t.description)
    ensures u.priority == p.priority.GetOr(t.priority)
    ensures u.dueDate == p.dueDate.GetOr(t.dueDate)
    ensures u.status == p.status.GetOr(t.status)
  {
    t.(title := if p.title.Some? then Trim(p.title.value) else t.title,
       description := if p.description.Some? then Trim(p.description.value) else t.description,
       priority := p.priority.GetOr(t.priority),
       dueDate := p.dueDate.GetOr(t.dueDate),
       status := p.status.GetOr(t.status),
       updatedAt := now)
  }

  /** An accepted update keeps a well-formed task well formed: the stored
      title and description stay trimmed and the title non-empty. */
  lemma {:induction false} PatchedWellFormed(t: Task, p: TaskPatch, now: int)
    requires WellFormed(t) && PatchAccepted(p)
    ensures WellFormed(Patched(t, p, now))
  {
    if p.title.Some? {
      TrimIdempotent(p.title.value);
    }
    if p.description.Some? {
      TrimIdempotent(p.description.value);
    }
  }

  /** An empty patch changes nothing but the update timestamp. */
  lemma {:induction false} EmptyPatchTouchesOnlyTimestamp(t: Task, now: int)
    ensures Patched(t, TaskPatch(None, None, None, None, None), now) == t.(updatedAt := now)
  {
  }

  /** `req.body` of `POST /tasks`: raw JSON values of the five fields. */
  datatype CreateBody = CreateBody(
    title: Option<Json>,
    description: Option<Json>,
    priority: Option<Json>,
    dueDate: Option<Json>,
    status: Option<Json>)

  /** A string field of the body after `value || default`. */
  function StringOr(v: Option<Json>, default: string): Option<string> {
    if TruthyOpt(v) then (if v.value.JStr? then Some(v.value.s) else None) else Some(default)
  }

  /** The paths `createTask` hands to `Task.create`. Non-string values, which
      Mongoose would cast, are treated as absent; `castDate` is Mongoose's
      cast of the due date. */
  function CreateFields(body: CreateBody, owner: UserId, castDate: Json -> Option<int>): TaskFields {
    TaskFields(
      if body.title.Some? && body.title.value.JStr? then Some(body.title.value.s) else None,
      StringOr(body.description, ""),
      StringOr(body.priority, "Medium"),
      StringOr(body.status, "Pending"),
      if body.dueDate.None? then NoDate
      else if castDate(body.dueDate.value).Some? then DateAt(castDate(body.dueDate.value).value)
      else BadDate,
      Some(owner))
  }

  /** A created task is owned by the requester and has an empty description
      when the body's is falsy. */
  lemma {:induction false} CreatedTaskOwnerAndDescription(body: CreateBody, owner: UserId, castDate: Json -> Option<int>, id: TaskId, now: int)
    requires CreateDocument(id, CreateFields(body, owner, castDate), now).Ok?
    ensures CreateDocument(id, CreateFields(body, owner, castDate), now).value.userId == owner
    ensures !TruthyOpt(body.description) ==> CreateDocument(id, CreateFields(body, owner, castDate), now).value.description == ""
  {
    if !TruthyOpt(body.description) {
      assert CreateFields(body, owner, castDate).description == Some("");
      assert Trim("") == "";
    }
  }

  /** A falsy priority or status in the body becomes Medium or Pending. */
  lemma {:induction false} CreatedTaskEnumDefaults(body: CreateBody, owner: UserId, castDate: Json -> Option<int>, id: TaskId, now: int)
    requires CreateDocument(id, CreateFields(body, owner, castDate), now).Ok?
    ensures !TruthyOpt(body.priority) ==> CreateDocument(id, CreateFields(body, owner, castDate), now).value.priority == Medium
    ensures !TruthyOpt(body.status) ==> CreateDocument(id, CreateFields(body, owner, castDate), now).value.status == Pending
  {
    var f := CreateFields(body, owner, castDate);
    StoredDefaults(id, f, now);
    if !TruthyOpt(body.priority) {
      assert f.priority == Some("Medium");
    }
    if !TruthyOpt(body.status) {
      assert f.status == Some("Pending");
    }
  }

  /** A created task's title is the body's title string, trimmed. */
  lemma {:induction false} CreatedTaskTitle(body: CreateBody, owner: UserId, castDate: Json -> Option<int>, id: TaskId, now: int)
    requires CreateDocument(id, CreateFields(body, owner, castDate), now).Ok?
    ensures body.title.Some? && body.title.value.JStr?
    ensures CreateDocument(id, CreateFields(body, owner, castDate), now).value.title == Trim(body.title.value.s)
  {
    var f := CreateFields(body, owner, castDate);
    assert f.title.Some?;
  }

  /** Every stored task is well formed and filed under its own id. */
  ghost predicate ValidStore(m: map<TaskId, Task>) {
    forall id :: id in m ==> m[id].id == id && WellFormed(m[id])
  }

  /** Filing a well-formed task under its own id keeps a store valid. */
  lemma ValidStoreUpdate(m: map<TaskId, Task>, t: Task)
    requires ValidStore(m) && WellFormed(t)
    ensures ValidStore(m[t.id := t])
  {
  }

  /** The stored tasks, keyed by id. */
  class TaskStore {
    var tasks: map<TaskId, Task>

    ghost predicate Valid()
      reads this
    {
      ValidStore(tasks)
    }

    constructor ()
      ensures tasks == map[] && Valid()
    {
      tasks := map[];
    }

    /** The 404-before-403 guard every single-task handler starts with. */
    function Guard(id: TaskId, requester: UserId, a: Access): (g: Option<Response<Task>>)
      reads this
      ensures g.None? <==> id in tasks && tasks[id].userId == requester
      ensures id !in tasks ==> g == Some(Fail(404, None, "Task not found"))
      ensures id in tasks && tasks[id].userId != requester ==> g == Some(Fail(403, None, ForbiddenMessage(a)))
    {
      if id !in tasks then Some(Fail(404, None, "Task not found"))
      else if tasks[id].userId != requester then Some(Fail(403, None, ForbiddenMessage(a)))
      else None
    }

    method GetTaskById(id: TaskId, requester: UserId) returns (r: Response<Task>)
      ensures id !in tasks ==> r == Fail(404, None, "Task not found")
      ensures id in tasks && tasks[id].userId != requester ==> r == Fail(403, None, "Not authorized to access this task")
      ensures id in tasks && tasks[id].userId == requester ==> r == Reply(200, tasks[id])
    {
      var denied := Guard(id, requester, Read);
      if denied.Some? {
        return denied.value;
      }
      r := Reply(200, tasks[id]);
    }

    /** createTask: the 400 guard, then `Task.create` with the defaults;
        schema errors and an id already in use end in a 500. */
    method CreateTask(body: CreateBody, requester: UserId, newId: TaskId, now: int, castDate: Json -> Option<int>)
      returns (r: Response<Task>)
      requires Valid()
      modifies this
      ensures Valid()
      ensures !TruthyOpt(body.title) || !TruthyOpt(body.dueDate) ==>
                r == Fail(400, None, "Please provide title and due date") && tasks == old(tasks)
      ensures r.Fail? ==> tasks == old(tasks)
      ensures r.Fail? && r.status != 400 ==> r == Fail(500, None, "Server error creating task")
      ensures r.Reply? ==> r.status == 201 && newId !in old(tasks) && tasks == old(tasks)[newId := r.payload]
      ensures r.Reply? ==> CreateDocument(newId, CreateFields(body, requester, castDate), now) == Ok(r.payload)
      ensures (TruthyOpt(body.title) && TruthyOpt(body.dueDate) && newId !in old(tasks)
               && CreateDocument(newId, CreateFields(body, requester, castDate), now).Ok?) ==> r.Reply?
    {
      if !TruthyOpt(body.title) || !TruthyOpt(body.dueDate) {
        return Fail(400, None, "Please provide title and due date");
      }
      var created := CreateDocument(newId, CreateFields(body, requester, castDate), now);
      if created.Err? || newId in tasks {
        return Fail(500, None, "Server error creating task");
      }
      ValidStoreUpdate(tasks, created.value);
      tasks := tasks[newId := created.value];
      r := Reply(201, created.value);
    }

    /** updateTask: the guard, then `findByIdAndUpdate` with the trim setters
        and the update validators; a refused update ends in a 500. */
    method UpdateTask(id: TaskId, requester: UserId, patch: TaskPatch, now: int) returns (r: Response<Task>)
      requires Valid()
      modifies this
      ensures Valid()
      ensures old(Guard(id, requester, Update)).Some? ==>
                r == old(Guard(id, requester, Update)).value && tasks == old(tasks)
      ensures old(Guard(id, requester, Update)).None? && !PatchAccepted(patch) ==>
                r == Fail(500, None, "Server error updating task") && tasks == old(tasks)
      ensures old(Guard(id, requester, Update)).None? && PatchAccepted(patch) ==>
                r == Reply(200, Patched(old(tasks[id]), patch, now)) && tasks == old(tasks)[id := r.payload]
    {
      var denied := Guard(id, requester, Update);
      if denied.Some? {
        return denied.value;
      }
      if !PatchAccepted(patch) {
        return Fail(500, None, "Server error updating task");
      }
      var updated := Patched(tasks[id], patch, now);
      PatchedWellFormed(tasks[id], patch, now);
      ValidStoreUpdate(tasks, updated);
      tasks := tasks[id := updated];
      r := Reply(200, updated);
    }

    method DeleteTask(id: TaskId, requester: UserId) returns (r: Response<()>)
      requires Valid()
      modifies this
      ensures Valid()
      ensures old(Guard(id, requester, Delete)).Some? ==>
                r == Fail(old(Guard(id, requester, Delete)).value.status, None,
                          old(Guard(id, requester, Delete)).value.message)
                && tasks == old(tasks)
      ensures old(Guard(id, requester, Delete)).None? ==>
                r == Reply(200, ()) && tasks == old(tasks) - {id} && id !in tasks
    {
      var denied := Guard(id, requester, Delete);
      if denied.Some? {
        return Fail(denied.value.status, None, denied.value.message);
      }
      tasks := tasks - {id};
      r := Reply(200, ());
    }

    /** toggleTaskCompletion: flips the status and saves (which also bumps
        the update timestamp). */
    method ToggleTaskCompletion(id: TaskId, requester: UserId, now: int) returns (r: Response<Task>)
      requires Valid()
      modifies this
      ensures Valid()
      ensures old(Guard(id, requester, Toggle)).Some? ==>
                r == old(Guard(id, requester, Toggle)).value && tasks == old(tasks)
      ensures old(Guard(id, requester, Toggle)).None? ==>
                r == Reply(200, old(tasks[id]).(status := Toggled(old(tasks[id]).status), updatedAt := now))
                && tasks == old(tasks)[id := r.payload]
    {
      var denied := Guard(id, requester, Toggle);
      if denied.Some? {
        return denied.value;
      }
      var t := tasks[id];
      var flipped := t.(status := Toggled(t.status), updatedAt := now);
      ValidStoreUpdate(tasks, flipped);
      tasks := tasks[id := flipped];
      r := Reply(200, flipped);
    }
  }
}
