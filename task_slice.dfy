/** The client's task store of client/src/features/tasks/taskSlice.js: the
    query the getTasks thunk builds from the stored filters, the extraction of
    the task list from a response, and the reducers, which update the slice
    state in place. */
module TaskSlice {
  import opened Wrappers
  import opened JsValue
  import opened Seqs
  import opened TaskModel

  // ----- Filters and the getTasks query -----

  /** A filters object: each key maps to a value, or to `undefined` (None). */
  type Filters = map<string, Option<Json>>

  function InitialFilters(): (f: Filters)
    ensures f.Keys == {"status", "priority", "sortBy", "search"}
    ensures f["sortBy"] == Some(JStr("createdAt"))
    ensures f["status"] == f["priority"] == f["search"] == Some(JStr(""))
  {
    map["status" := Some(JStr("")), "priority" := Some(JStr("")),
        "sortBy" := Some(JStr("createdAt")), "search" := Some(JStr(""))]
  }

  /** `{ ...base, ...override }`. */
  function Merge(base: Filters, override: Filters): (m: Filters)
    ensures m.Keys == base.Keys + override.Keys
    ensures forall k :: k in override ==> m[k] == override[k]
    ensures forall k :: k in base && k !in override ==> m[k] == base[k]
  {
    base + override
  }

  /** A query value the thunk drops: `''`, null or undefined. */
  predicate EmptyValue(v: Option<Json>) {
    v == Some(JStr("")) || v == Some(JNull) || v.None?
  }

  /** The filters left after the empty values are deleted. */
  function Cleaned(m: Filters): (c: Filters)
    ensures c.Keys <= m.Keys
    ensures forall k :: k in m ==> (k in c <==> !EmptyValue(m[k]))
    ensures forall k :: k in c ==> c[k] == m[k] && !EmptyValue(c[k])
  {
    map k | k in m && !EmptyValue(m[k]) :: m[k]
  }

  /** The `forEach` that deletes every empty value from `merged`. */
  method CleanQuery(merged: Filters) returns (query: Filters)
    ensures query == Cleaned(merged)
  {
    query := merged;
    var pending := merged.Keys;
    while pending != {}
      invariant pending <= merged.Keys
      invariant query.Keys <= merged.Keys
      invariant forall k :: k in query ==> query[k] == merged[k]
      invariant forall k :: k in merged && k !in pending ==> (k in query <==> !EmptyValue(merged[k]))
      invariant forall k :: k in pending ==> k in query
      decreases pending
    {
      var k :| k in pending;
      if EmptyValue(query[k]) {
        query := query - {k};
      }
      pending := pending - {k};
    }
  }

  /** The request path: `/tasks`, with a query string only when parameters remain. */
  datatype RequestUrl = TasksPath | TasksWithQuery(params: Filters)

  function UrlFor(query: Filters): (u: RequestUrl)
    ensures u == TasksPath <==> query == map[]
    ensures u.TasksWithQuery? ==> u.params == query
  {
    if query == map[] then TasksPath else TasksWithQuery(query)
  }

  /** The getTasks thunk's request: stored filters (or `{}`), overridden by
      the argument (or `{}`), cleaned, as a URL. */
  method GetTasksRequest(stored: Option<Filters>, override: Option<Filters>) returns (url: RequestUrl)
    ensures var m := Merge(stored.GetOr(map[]), override.GetOr(map[]));
      && (url == TasksPath <==> forall k :: k in m ==> EmptyValue(m[k]))
      && (url.TasksWithQuery? ==> url.params == Cleaned(m))
  {
    var merged := Merge(stored.GetOr(map[]), override.GetOr(map[]));
    var query := CleanQuery(merged);
    url := UrlFor(query);
    if url == TasksPath {
      forall k | k in merged
        ensures EmptyValue(merged[k])
      {
        assert k !in query;
      }
    }
  }

  /** `response.data?.tasks ?? response.data?.data ?? []`. */
  function ExtractTasks(tasksField: Option<seq<Task>>, dataField: Option<seq<Task>>): (ts: seq<Task>)
    ensures tasksField.Some? ==> ts == tasksField.value
    ensures tasksField.None? && dataField.Some? ==> ts == dataField.value
    ensures tasksField.None? && dataField.None? ==> ts == []
  {
    Coalesce(Coalesce(tasksField, dataField), Some([])).value
  }

  // ----- List updates -----

  /** The `map` of the update and toggle reducers: each entry with the
      payload's id becomes the payload. */
  function ReplaceById(ts: seq<Task>, t: Task): (r: seq<Task>)
    ensures |r| == |ts|
    ensures forall i :: 0 <= i < |ts| ==> r[i] == (if ts[i].id == t.id then t else ts[i])
  {
    if ts == [] then [] else [if ts[0].id == t.id then t else ts[0]] + ReplaceById(ts[1..], t)
  }

  function HasOtherId(id: TaskId): Task -> bool {
    (x: Task) => x.id != id
  }

  /** The `filter` of the delete reducer. */
  function RemoveById(ts: seq<Task>, id: TaskId): (r: seq<Task>)
    ensures forall x :: x in r <==> x in ts && x.id != id
  {
    Filter(ts, HasOtherId(id))
  }

  /** Deleting keeps the other tasks in their relative order. */
  lemma {:induction false} RemoveKeepsOrder(a: seq<Task>, b: seq<Task>, id: TaskId)
    ensures RemoveById(a + b, id) == RemoveById(a, id) + RemoveById(b, id)
  {
    FilterConcat(a, b, HasOtherId(id));
  }

  /** Deleting an id not in the list changes nothing. */
  lemma {:induction false} RemoveAbsent(ts: seq<Task>, id: TaskId)
    requires forall x :: x in ts ==> x.id != id
    ensures RemoveById(ts, id) == ts
  {
    FilterKeepsAll(ts, HasOtherId(id));
  }

  /** Deleting a task just created with a fresh id gives back the earlier list. */
  lemma {:induction false} CreateThenDelete(ts: seq<Task>, t: Task)
    requires forall x :: x in ts ==> x.id != t.id
    ensures RemoveById([t] + ts, t.id) == ts
  {
    RemoveKeepsOrder([t], ts, t.id);
    RemoveAbsent(ts, t.id);
  }

  /** Replacing twice with the same payload is replacing once. */
  lemma {:induction false} ReplaceIdempotent(ts: seq<Task>, t: Task)
    ensures ReplaceById(ReplaceById(ts, t), t) == ReplaceById(ts, t)
  {
    if ts != [] {
      ReplaceIdempotent(ts[1..], t);
    }
  }

  /** Deleting after an update removes the same entries as deleting alone. */
  lemma {:induction false} ReplaceThenRemove(ts: seq<Task>, t: Task)
    ensures RemoveById(ReplaceById(ts, t), t.id) == RemoveById(ts, t.id)
  {
    if ts != [] {
      ReplaceThenRemove(ts[1..], t);
      var head := if ts[0].id == t.id then t else ts[0];
      assert ReplaceById(ts, t) == [head] + ReplaceById(ts[1..], t);
      RemoveKeepsOrder([head], ReplaceById(ts[1..], t), t.id);
      RemoveKeepsOrder([ts[0]], ts[1..], t.id);
      assert [ts[0]] + ts[1..] == ts;
    }
  }

  // ----- The slice state and its reducers -----

  class TaskState {
    var tasks: seq<Task>
    var currentTask: Option<Task>
    var isLoading: bool
    var isError: bool
    var isSuccess: bool
    var message: string
    var filters: Filters

    constructor ()
      ensures tasks == [] && currentTask.None?
      ensures !isLoading && !isError && !isSuccess && message == ""
      ensures filters == InitialFilters()
    {
      tasks := [];
      currentTask := None;
      isLoading := false;
      isError := false;
      isSuccess := false;
      message := "";
      filters := InitialFilters();
    }

    /** `reset`: the flags and message only. */
    method Reset()
      modifies this
      ensures !isLoading && !isError && !isSuccess && message == ""
      ensures tasks == old(tasks) && currentTask == old(currentTask) && filters == old(filters)
    {
      isLoading := false;
      isError := false;
      isSuccess := false;
      message := "";
    }

    /** `setFilters`: the payload's keys override the stored ones. */
    method SetFilters(payload: Filters)
      modifies this
      ensures filters == Merge(old(filters), payload)
      ensures tasks == old(tasks) && currentTask == old(currentTask)
      ensures isLoading == old(isLoading) && isError == old(isError) && isSuccess == old(isSuccess)
      ensures message == old(message)
    {
      filters := Merge(filters, payload);
    }

    /** `clearFilters`: back to the initial filters. */
    method ClearFilters()
      modifies this
      ensures filters == InitialFilters()
      ensures tasks == old(tasks) && currentTask == old(currentTask)
      ensures isLoading == old(isLoading) && isError == old(isError) && isSuccess == old(isSuccess)
      ensures message == old(message)
    {
      filters := InitialFilters();
    }

    /** The pending case of getTasks and createTask. */
    method Pending()
      modifies this
      ensures isLoading
      ensures tasks == old(tasks) && currentTask == old(currentTask) && filters == old(filters)
      ensures isError == old(isError) && isSuccess == old(isSuccess) && message == old(message)
    {
      isLoading := true;
    }

    /** The rejected case of getTasks and createTask. */
    method Rejected(payload: string)
      modifies this
      ensures !isLoading && isError && message == payload
      ensures tasks == old(tasks) && currentTask == old(currentTask) && filters == old(filters)
      ensures isSuccess == old(isSuccess)
    {
      isLoading := false;
      isError := true;
      message := payload;
    }

    /** getTasks fulfilled: the list becomes the payload, or `[]`. */
    method GetTasksFulfilled(payload: Option<seq<Task>>)
      modifies this
      ensures !isLoading && isSuccess
      ensures tasks == (if payload.Some? then payload.value else [])
      ensures currentTask == old(currentTask) && filters == old(filters)
      ensures isError == old(isError) && message == old(message)
    {
      isLoading := false;
      isSuccess := true;
      tasks := payload.GetOr([]);
    }

    /** createTask fulfilled: a non-null payload is put in front. */
    method CreateFulfilled(payload: Option<Task>)
      modifies this
      ensures !isLoading && isSuccess
      ensures payload.Some? ==> tasks == [payload.value] + old(tasks)
      ensures payload.None? ==> tasks == old(tasks)
      ensures currentTask == old(currentTask) && filters == old(filters)
      ensures isError == old(isError) && message == old(message)
    {
      isLoading := false;
      isSuccess := true;
      if payload.Some? {
        tasks := [payload.value] + tasks;
      }
    }

    /** updateTask and toggleTask fulfilled: the payload replaces the
        entries with its id; the flags are not touched. */
    method ReplaceFulfilled(payload: Option<Task>)
      modifies this
      ensures payload.Some? ==> tasks == ReplaceById(old(tasks), payload.value)
      ensures payload.None? ==> tasks == old(tasks)
      ensures currentTask == old(currentTask) && filters == old(filters)
      ensures isLoading == old(isLoading) && isError == old(isError) && isSuccess == old(isSuccess)
      ensures message == old(message)
    {
      if payload.None? {
        return;
      }
      tasks := ReplaceById(tasks, payload.value);
    }

    /** deleteTask fulfilled: every entry with the id is dropped. */
    method DeleteFulfilled(id: TaskId)
      modifies this
      ensures tasks == RemoveById(old(tasks), id)
      ensures currentTask == old(currentTask) && filters == old(filters)
      ensures isLoading == old(isLoading) && isError == old(isError) && isSuccess == old(isSuccess)
      ensures message == old(message)
    {
      tasks := RemoveById(tasks, id);
    }
  }
}
