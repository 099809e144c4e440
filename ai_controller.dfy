/** The request handlers of server/controllers/aiController.js: the input
    guards, the ownership check and the hand-off to the AI service. Database
    reads and the four service functions whose bodies are not part of this
    model are parameters that either resolve or throw. */
module AiController {
  import opened Wrappers
  import opened JsValue
  import opened TaskModel
  import opened Http
  import opened GeminiService
  import TaskController

  // ----- Queries -----

  /** `Task.find({ userId }).sort({ createdAt: -1 })`. */
  function UserTasksQuery(u: UserId): (q: TaskController.Query)
    ensures forall t: Task, regex: (string, string) -> bool {:trigger TaskController.Matches(t, q.filter, regex)} ::
      TaskController.Matches(t, q.filter, regex) <==> t.userId == u
    ensures q.sort == TaskController.CreatedAtDesc
  {
    TaskController.Query(TaskController.Filter(u, None, None, None), TaskController.CreatedAtDesc)
  }

  /** `Task.find({ userId, status: 'Pending' }).sort({ dueDate: 1 })`. */
  function PendingTasksQuery(u: UserId): (q: TaskController.Query)
    ensures forall t: Task, regex: (string, string) -> bool {:trigger TaskController.Matches(t, q.filter, regex)} ::
      TaskController.Matches(t, q.filter, regex) <==> t.userId == u && t.status == Pending
    ensures q.sort == TaskController.DueDateAsc
  {
    assert ParseStatus("Pending") == Some(Pending);
    TaskController.Query(TaskController.Filter(u, Some("Pending"), None, None), TaskController.DueDateAsc)
  }

  // ----- The single-task routes: improve, breakdown, do-it-for-me -----

  /** `Task.findById(taskId)` found a task. */
  predicate Found(taskId: Option<Json>, lookup: Json -> Settled<Option<Task>>) {
    TruthyOpt(taskId) && lookup(taskId.value).Resolved? && lookup(taskId.value).value.Some?
  }

  function FoundTask(taskId: Option<Json>, lookup: Json -> Settled<Option<Task>>): Task
    requires Found(taskId, lookup)
  {
    lookup(taskId.value).value.value
  }

  /** The guard chain shared by improveTask, breakdownTask and doItForMe:
      400 without a task id, 404 for an unknown task, 403 for another user's
      task, then the service's result; anything thrown becomes a 500. */
  function SingleTaskRoute<P>(
    taskId: Option<Json>, lookup: Json -> Settled<Option<Task>>, requester: UserId,
    service: Task -> Settled<P>, failure: string): (r: Response<P>)
    ensures !TruthyOpt(taskId) ==> r == Fail(400, Some(false), "taskId is required")
    ensures TruthyOpt(taskId) && lookup(taskId.value).Rejected? ==> r == Fail(500, Some(false), failure)
    ensures TruthyOpt(taskId) && lookup(taskId.value) == Resolved(None) ==> r == Fail(404, Some(false), "Task not found")
    ensures Found(taskId, lookup) && FoundTask(taskId, lookup).userId != requester ==>
              r == Fail(403, Some(false), "Not authorized")
    ensures (Found(taskId, lookup) && FoundTask(taskId, lookup).userId == requester
             && service(FoundTask(taskId, lookup)).Rejected?) ==> r == Fail(500, Some(false), failure)
    ensures r.Reply? <==>
              Found(taskId, lookup) && FoundTask(taskId, lookup).userId == requester
              && service(FoundTask(taskId, lookup)).Resolved?
    ensures r.Reply? ==> r == Reply(200, service(FoundTask(taskId, lookup)).value)
  {
    if !TruthyOpt(taskId) then Fail(400, Some(false), "taskId is required")
    else
      match lookup(taskId.value)
      case Rejected => Fail(500, Some(false), failure)
      case Resolved(None) => Fail(404, Some(false), "Task not found")
      case Resolved(Some(task)) =>
        if task.userId != requester then Fail(403, Some(false), "Not authorized")
        else
          match service(task)
          case Rejected => Fail(500, Some(false), failure)
          case Resolved(p) => Reply(200, p)
  }

  /** Unless every guard passes, the answer does not depend on the service:
      it is never consulted. */
  lemma {:induction false} ServiceNotConsultedOnFailure<P>(
    taskId: Option<Json>, lookup: Json -> Settled<Option<Task>>, requester: UserId,
    s1: Task -> Settled<P>, s2: Task -> Settled<P>, failure: string)
    requires !(Found(taskId, lookup) && FoundTask(taskId, lookup).userId == requester)
    ensures SingleTaskRoute(taskId, lookup, requester, s1, failure)
         == SingleTaskRoute(taskId, lookup, requester, s2, failure)
  {
  }

  /** improveTask; `reply(t)` is the model's text for the rewrite prompt of `t`. */
  function ImproveTask(
    taskId: Option<Json>, lookup: Json -> Settled<Option<Task>>, requester: UserId,
    decode: string -> Option<Json>, reply: Task -> Option<string>): (r: Response<Envelope>)
    ensures r == SingleTaskRoute(taskId, lookup, requester,
                  (t: Task) => Resolved(ImproveTaskWithAI(decode, reply(t))), "Failed to improve task")
    ensures Found(taskId, lookup) && FoundTask(taskId, lookup).userId == requester ==>
              r == Reply(200, ImproveTaskWithAI(decode, reply(FoundTask(taskId, lookup))))
  {
    SingleTaskRoute(taskId, lookup, requester,
      (t: Task) => Resolved(ImproveTaskWithAI(decode, reply(t))), "Failed to improve task")
  }

  /** breakdownTask; `reply(t)` is the model's text for the breakdown prompt of `t`. */
  function BreakdownTask(
    taskId: Option<Json>, lookup: Json -> Settled<Option<Task>>, requester: UserId,
    decode: string -> Option<Json>, reply: Task -> Option<string>): (r: Response<Envelope>)
    ensures r == SingleTaskRoute(taskId, lookup, requester,
                  (t: Task) => Resolved(BreakdownTaskWithAI(decode, reply(t))), "Failed to breakdown task")
    ensures Found(taskId, lookup) && FoundTask(taskId, lookup).userId == requester ==>
              r == Reply(200, BreakdownTaskWithAI(decode, reply(FoundTask(taskId, lookup))))
  {
    SingleTaskRoute(taskId, lookup, requester,
      (t: Task) => Resolved(BreakdownTaskWithAI(decode, reply(t))), "Failed to breakdown task")
  }

  /** doItForMe; `doTaskForMe` is the service function, not part of this model. */
  function DoItForMe(
    taskId: Option<Json>, lookup: Json -> Settled<Option<Task>>, requester: UserId,
    doTaskForMe: Task -> Settled<Json>): (r: Response<Json>)
    ensures r == SingleTaskRoute(taskId, lookup, requester, doTaskForMe, "Failed to complete task with AI")
  {
    SingleTaskRoute(taskId, lookup, requester, doTaskForMe, "Failed to complete task with AI")
  }

  // ----- Brain dump, energy, reflection, productivity -----

  /** parseBrainDump: a missing, falsy or blank text is a 400; a truthy
      non-string has no `trim` and the TypeError becomes a 500; the service
      receives the text untrimmed. */
  function ParseBrainDump(text: Option<Json>, parse: string -> Settled<Json>): (r: Response<Json>)
    ensures !TruthyOpt(text) ==> r == Fail(400, Some(false), "Text is required")
    ensures TruthyOpt(text) && text.value.JStr? && Blank(text.value.s) ==> r == Fail(400, Some(false), "Text is required")
    ensures TruthyOpt(text) && !text.value.JStr? ==> r == Fail(500, Some(false), "Failed to parse brain dump")
    ensures r.Reply? <==> text.Some? && text.value.JStr? && !Blank(text.value.s) && parse(text.value.s).Resolved?
    ensures r.Reply? ==> r == Reply(200, parse(text.value.s).value)
    ensures r.Fail? ==> r.status == 400 || r == Fail(500, Some(false), "Failed to parse brain dump")
  {
    if !TruthyOpt(text) then Fail(400, Some(false), "Text is required")
    else if !text.value.JStr? then Fail(500, Some(false), "Failed to parse brain dump")
    else if Trim(text.value.s) == [] then Fail(400, Some(false), "Text is required")
    else
      match parse(text.value.s)
      case Rejected => Fail(500, Some(false), "Failed to parse brain dump")
      case Resolved(p) => Reply(200, p)
  }

  /** energySuggestions: only the truthiness of the energy level is checked;
      the service receives the user's pending tasks by due date. */
  function EnergySuggestions(
    energyLevel: Option<Json>, requester: UserId,
    find: TaskController.Query -> Settled<seq<Task>>,
    suggest: (seq<Task>, Json) -> Settled<Json>): (r: Response<Json>)
    ensures !TruthyOpt(energyLevel) ==> r == Fail(400, Some(false), "Energy level is required")
    ensures r.Reply? <==>
              TruthyOpt(energyLevel) && find(PendingTasksQuery(requester)).Resolved?
              && suggest(find(PendingTasksQuery(requester)).value, energyLevel.value).Resolved?
    ensures r.Reply? ==> r == Reply(200, suggest(find(PendingTasksQuery(requester)).value, energyLevel.value).value)
    ensures TruthyOpt(energyLevel) && r.Fail? ==> r == Fail(500, Some(false), "Failed to get energy-based suggestions")
  {
    if !TruthyOpt(energyLevel) then Fail(400, Some(false), "Energy level is required")
    else
      match find(PendingTasksQuery(requester))
      case Rejected => Fail(500, Some(false), "Failed to get energy-based suggestions")
      case Resolved(tasks) =>
        match suggest(tasks, energyLevel.value)
        case Rejected => Fail(500, Some(false), "Failed to get energy-based suggestions")
        case Resolved(p) => Reply(200, p)
  }

  /** The three body fields dailyReflection forwards, unvalidated. */
  datatype ReflectionInput = ReflectionInput(
    completedToday: Option<Json>,
    blockers: Option<Json>,
    productivityRating: Option<Json>)

  /** What dailyReflection destructures from the request body. */
  function ReflectionInputOf(body: map<string, Json>): (r: ReflectionInput)
    ensures r.completedToday.Some? <==> "completedToday" in body
    ensures r.blockers.Some? <==> "blockers" in body
    ensures r.productivityRating.Some? <==> "productivityRating" in body
    ensures r.completedToday.Some? ==> r.completedToday.value == body["completedToday"]
    ensures r.blockers.Some? ==> r.blockers.value == body["blockers"]
    ensures r.productivityRating.Some? ==> r.productivityRating.value == body["productivityRating"]
  {
    ReflectionInput(
      Field(JObj(body), "completedToday"),
      Field(JObj(body), "blockers"),
      Field(JObj(body), "productivityRating"))
  }

  /** dailyReflection: no input guard; only a thrown error ends in a 500. */
  function DailyReflection(
    input: ReflectionInput, requester: UserId,
    find: TaskController.Query -> Settled<seq<Task>>,
    reflect: (seq<Task>, ReflectionInput) -> Settled<Json>): (r: Response<Json>)
    ensures r.Reply? <==>
              find(UserTasksQuery(requester)).Resolved?
              && reflect(find(UserTasksQuery(requester)).value, input).Resolved?
    ensures r.Reply? ==> r == Reply(200, reflect(find(UserTasksQuery(requester)).value, input).value)
    ensures r.Fail? ==> r == Fail(500, Some(false), "Failed to get daily reflection")
  {
    match find(UserTasksQuery(requester))
    case Rejected => Fail(500, Some(false), "Failed to get daily reflection")
    case Resolved(tasks) =>
      match reflect(tasks, input)
      case Rejected => Fail(500, Some(false), "Failed to get daily reflection")
      case Resolved(p) => Reply(200, p)
  }

  /** getSuggestion: the user's tasks, newest first, go to the productivity
      service; `text` is the model's text for the prompt built from them. */
  method GetSuggestion(
    requester: UserId, find: TaskController.Query -> Settled<seq<Task>>, now: int, text: Option<string>)
    returns (r: Response<Envelope>)
    ensures find(UserTasksQuery(requester)).Rejected? ==> r == Fail(500, Some(false), "Failed to get AI suggestion")
    ensures find(UserTasksQuery(requester)).Resolved? ==>
      var tasks := find(UserTasksQuery(requester)).value;
      && r.Reply? && r.status == 200
      && (text.None? || text.value == [] ==> IsMockEnvelope(tasks, now, r.payload))
      && (text.Some? && text.value != [] ==> r.payload == Envelope(true, None, Some(Text(text.value)), Gemini, Some(|tasks|)))
  {
    var found := find(UserTasksQuery(requester));
    if found.Rejected? {
      return Fail(500, Some(false), "Failed to get AI suggestion");
    }
    var result := GetProductivitySuggestion(found.value, now, text);
    r := Reply(200, result);
  }
}
