/** The figures of client/src/pages/Dashboard.jsx: the task statistics and
    the hint shown when the list is empty. */
module Dashboard {
  import opened Wrappers
  import opened JsValue
  import opened Seqs
  import opened TaskModel
  import TaskSlice
  import GeminiService

  datatype Stats = Stats(total: nat, completed: nat, pending: nat, overdue: nat, completionRate: nat)

  function OverdueAt(now: int): Task -> bool {
    (t: Task) => t.dueDate < now && t.status == Pending
  }

  /** The memoised `stats` of the task list at time `now`. */
  function DashboardStats(tasks: seq<Task>, now: int): (s: Stats)
    ensures s.total == |tasks|
    ensures s.completed == |CompletedOf(tasks)| && s.pending == |PendingOf(tasks)|
    ensures s.overdue == |Filter(tasks, OverdueAt(now))|
    ensures s.completed + s.pending == s.total
    ensures s.overdue <= s.pending
    ensures s.completionRate <= 100
    ensures s.total == 0 ==> s.completionRate == 0
    ensures s.total > 0 ==> -(s.total as int) <= 200 * s.completed - 2 * s.total * s.completionRate < s.total
  {
    var completed := |CompletedOf(tasks)|;
    var pending := |PendingOf(tasks)|;
    StatusPartition(tasks);
    FilterMonotone(tasks, OverdueAt(now), IsPendingTask);
    Stats(|tasks|, completed, pending, |Filter(tasks, OverdueAt(now))|, RoundPercent(completed, |tasks|))
  }

  /** The dashboard's overdue count is the number of overdue tasks the
      server's mock suggestion reports for the same list and time. */
  lemma {:induction false} OverdueAgreesWithMock(tasks: seq<Task>, now: int)
    ensures DashboardStats(tasks, now).overdue == |GeminiService.OverdueOf(tasks, now)|
  {
    FilterFilter(tasks, IsPendingTask, GeminiService.DueBefore(now), OverdueAt(now));
  }

  datatype EmptyHint = TryClearingFilters | CreateFirstTask

  /** A stored filter is in effect when its value is truthy. */
  predicate InEffect(filters: TaskSlice.Filters, key: string) {
    key in filters && TruthyOpt(filters[key])
  }

  /** The text under "No tasks yet". */
  function EmptyStateHint(filters: TaskSlice.Filters): (h: EmptyHint)
    ensures h == TryClearingFilters <==>
      InEffect(filters, "status") || InEffect(filters, "priority") || InEffect(filters, "search")
  {
    if InEffect(filters, "status") || InEffect(filters, "priority") || InEffect(filters, "search")
    then TryClearingFilters
    else CreateFirstTask
  }

  /** The sort order does not affect the hint. */
  lemma {:induction false} HintIgnoresSort(filters: TaskSlice.Filters, v: Option<Json>)
    ensures EmptyStateHint(filters["sortBy" := v]) == EmptyStateHint(filters)
  {
    assert forall k :: k != "sortBy" ==> (InEffect(filters["sortBy" := v], k) <==> InEffect(filters, k));
  }

  /** After `clearFilters` the hint invites creating a task. */
  lemma {:induction false} ClearedFiltersHint()
    ensures EmptyStateHint(TaskSlice.InitialFilters()) == CreateFirstTask
  {
  }
}
