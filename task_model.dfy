/** The Task document of server/models/Task.js: its enumerations, required
    fields, trimming setters, defaults and timestamps, as the schema checks
    them when a document is created. */
module TaskModel {
  import opened Wrappers
  import opened JsValue
  import opened Seqs

  datatype Priority = Low | Medium | High
  datatype Status = Pending | Completed

  type TaskId = string
  type UserId = string

  /** A persisted task. Dates are milliseconds since the epoch. */
  datatype Task = Task(
    id: TaskId,
    title: string,
    description: string,
    priority: Priority,
    status: Status,
    dueDate: int,
    userId: UserId,
    createdAt: int,
    updatedAt: int)

  const DefaultPriority: Priority := Medium
  const DefaultStatus: Status := Pending

  /** The enumeration string stored for a priority. */
  function PriorityName(p: Priority): (s: string)
    ensures ParsePriority(s) == Some(p)
  {
    match p
    case Low => "Low"
    case Medium => "Medium"
    case High => "High"
  }

  /** The schema's `enum: ['Low', 'Medium', 'High']` check. */
  function ParsePriority(s: string): (r: Option<Priority>)
    ensures r.Some? <==> s == "Low" || s == "Medium" || s == "High"
  {
    if s == "Low" then Some(Low)
    else if s == "Medium" then Some(Medium)
    else if s == "High" then Some(High)
    else None
  }

  function StatusName(st: Status): (s: string)
    ensures ParseStatus(s) == Some(st)
  {
    match st
    case Pending => "Pending"
    case Completed => "Completed"
  }

  /** The schema's `enum: ['Pending', 'Completed']` check. */
  function ParseStatus(s: string): (r: Option<Status>)
    ensures r.Some? <==> s == "Pending" || s == "Completed"
  {
    if s == "Pending" then Some(Pending)
    else if s == "Completed" then Some(Completed)
    else None
  }

  predicate IsPendingTask(t: Task) {
    t.status == Pending
  }

  predicate IsCompletedTask(t: Task) {
    t.status == Completed
  }

  /** The pending tasks, in order. */
  function PendingOf(tasks: seq<Task>): seq<Task> {
    Filter(tasks, IsPendingTask)
  }

  /** The completed tasks, in order. */
  function CompletedOf(tasks: seq<Task>): seq<Task> {
    Filter(tasks, IsCompletedTask)
  }

  /** Every task is either pending or completed. */
  lemma {:induction false} StatusPartition(tasks: seq<Task>)
    ensures |PendingOf(tasks)| + |CompletedOf(tasks)| == |tasks|
  {
    FilterPartition(tasks, IsPendingTask, IsCompletedTask);
  }

  /** A task is overdue when it is still pending and its due date has passed. */
  predicate IsOverdue(t: Task, now: int) {
    t.dueDate < now && t.status == Pending
  }

  /** What a stored task always satisfies: a non-empty trimmed title and a
      trimmed description. */
  predicate WellFormed(t: Task) {
    t.title != [] && Trim(t.title) == t.title && Trim(t.description) == t.description
  }

  /** The value of the `dueDate` path before casting: absent, not a date, or a date. */
  datatype DateField = NoDate | BadDate | DateAt(ms: int)

  /** The paths handed to `Task.create`; None is `undefined`. */
  datatype TaskFields = TaskFields(
    title: Option<string>,
    description: Option<string>,
    priority: Option<string>,
    status: Option<string>,
    dueDate: DateField,
    userId: Option<UserId>)

  datatype SchemaError =
    | TitleRequired
    | DueDateRequired
    | DueDateCast
    | UserIdRequired
    | PriorityNotInEnum
    | StatusNotInEnum

  /** The condition under which each validator fails. A title that trims to
      nothing counts as missing, since the setter trims before `required`
      is checked; the enumeration checks apply only to given values. */
  predicate Raises(f: TaskFields, err: SchemaError) {
    match err
    case TitleRequired => f.title.None? || Blank(f.title.value)
    case DueDateRequired => f.dueDate.NoDate?
    case DueDateCast => f.dueDate.BadDate?
    case UserIdRequired => f.userId.None?
    case PriorityNotInEnum => f.priority.Some? && ParsePriority(f.priority.value).None?
    case StatusNotInEnum => f.status.Some? && ParseStatus(f.status.value).None?
  }

  const AllSchemaErrors: set<SchemaError> :=
    {TitleRequired, DueDateRequired, DueDateCast, UserIdRequired, PriorityNotInEnum, StatusNotInEnum}

  /** Every schema error a set of fields raises (Mongoose reports them all at once). */
  function SchemaErrors(f: TaskFields): (e: set<SchemaError>)
    ensures forall err :: err in e <==> Raises(f, err)
    ensures e == {} <==> Admissible(f)
  {
    var e := set err | err in AllSchemaErrors && Raises(f, err);
    RaisedExactly(f, e);
    NoneRaised(f, e);
    e
  }

  /** The errors collected from the list are exactly those raised. */
  lemma {:induction false} RaisedExactly(f: TaskFields, e: set<SchemaError>)
    requires e == set err | err in AllSchemaErrors && Raises(f, err)
    ensures forall err :: err in e <==> Raises(f, err)
  {
    forall err
      ensures err in e <==> Raises(f, err)
    {
      match err
      case TitleRequired =>
      case DueDateRequired =>
      case DueDateCast =>
      case UserIdRequired =>
      case PriorityNotInEnum =>
      case StatusNotInEnum =>
    }
  }

  /** No error is raised exactly when the fields are admissible. */
  lemma {:induction false} NoneRaised(f: TaskFields, e: set<SchemaError>)
    requires forall err :: err in e <==> Raises(f, err)
    ensures e == {} <==> Admissible(f)
  {
    if Admissible(f) {
      forall err
        ensures err !in e
      {
        match err
        case TitleRequired =>
        case DueDateRequired =>
        case DueDateCast =>
        case UserIdRequired =>
        case PriorityNotInEnum =>
        case StatusNotInEnum =>
      }
    } else if Raises(f, TitleRequired) {
      assert TitleRequired in e;
    } else if Raises(f, DueDateRequired) {
      assert DueDateRequired in e;
    } else if Raises(f, DueDateCast) {
      assert DueDateCast in e;
    } else if Raises(f, UserIdRequired) {
      assert UserIdRequired in e;
    } else if Raises(f, PriorityNotInEnum) {
      assert PriorityNotInEnum in e;
    } else {
      assert StatusNotInEnum in e;
    }
  }

  /** The fields the schema accepts: a title that is not blank, a due date
      that casts, an owner, and enumeration values when they are given. */
  predicate Admissible(f: TaskFields) {
    && f.title.Some? && !Blank(f.title.value)
    && f.dueDate.DateAt? && f.userId.Some?
    && (f.priority.Some? ==> ParsePriority(f.priority.value).Some?)
    && (f.status.Some? ==> ParseStatus(f.status.value).Some?)
  }

  /** The document built from admissible fields: trimmed strings, defaults
      for the missing enumerations, both timestamps `now`. */
  function Stored(id: TaskId, f: TaskFields, now: int): (t: Task)
    requires Admissible(f)
    ensures WellFormed(t)
    ensures t.id == id && t.title == Trim(f.title.value)
    ensures t.description == (if f.description.Some? then Trim(f.description.value) else "")
    ensures t.priority == (if f.priority.Some? then ParsePriority(f.priority.value).value else DefaultPriority)
    ensures t.status == (if f.status.Some? then ParseStatus(f.status.value).value else DefaultStatus)
    ensures f.dueDate == DateAt(t.dueDate) && f.userId == Some(t.userId)
    ensures t.createdAt == now && t.updatedAt == now
  {
    var title := Trim(f.title.value);
    var description := if f.description.Some? then Trim(f.description.value) else "";
    TrimIdempotent(f.title.value);
    assert Trim(description) == description by {
      if f.description.Some? {
        TrimIdempotent(f.description.value);
      } else {
        assert Trim("") == "";
      }
    }
    Task(
      id,
      title,
      description,
      if f.priority.Some? then ParsePriority(f.priority.value).value else DefaultPriority,
      if f.status.Some? then ParseStatus(f.status.value).value else DefaultStatus,
      f.dueDate.ms,
      f.userId.value,
      now,
      now)
  }

  /** The default strings the controller supplies are stored as the
      enumeration defaults. */
  lemma {:induction false} StoredDefaults(id: TaskId, f: TaskFields, now: int)
    requires Admissible(f)
    ensures f.priority == Some("Medium") ==> Stored(id, f, now).priority == DefaultPriority
    ensures f.status == Some("Pending") ==> Stored(id, f, now).status == DefaultStatus
  {
    assert ParsePriority(PriorityName(Medium)) == Some(Medium);
    assert ParseStatus(StatusName(Pending)) == Some(Pending);
  }

  /** Casting, trimming, defaulting and validating a new document; both
      timestamps are set to `now`. */
  function CreateDocument(id: TaskId, f: TaskFields, now: int): (r: Result<Task, set<SchemaError>>)
    ensures r.Ok? <==> SchemaErrors(f) == {}
    ensures r.Err? ==> r.error == SchemaErrors(f)
    ensures r.Ok? ==> r.value == Stored(id, f, now)
  {
    var errors := SchemaErrors(f);
    if errors != {} then Err(errors)
    else Ok(Stored(id, f, now))
  }
}
