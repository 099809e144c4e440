/** The AI advisor card: which view of the stored suggestion envelope it
    renders — a task breakdown, a task improvement, or plain text. */
module AiAdvisor {
  import opened Wrappers
  import opened JsValue

  /** One breakdown row: the subtask title and, when truthy, its estimate. */
  datatype SubtaskRow = SubtaskRow(title: Option<Json>, estimateMinutes: Option<Json>)

  datatype Body =
    | NoBody
    | Breakdown(rows: seq<SubtaskRow>)
    | Improvement(improvedTitle: Json, suggestedPriority: Option<Json>,
                  timeEstimateMinutes: Option<Json>, reason: Option<Json>)
    | PlainText(text: Json)
    | JsonDump(envelope: Json)
    | TypeError

  /** `x?.length` taken as a truthiness test: arrays and strings have a
      length; an object has one only when it carries a `length` property. */
  predicate HasLength(v: Json) {
    match v
    case JArr(items) => items != []
    case JStr(s) => s != []
    case JObj(_) => TruthyOpt(Field(v, "length"))
    case _ => false
  }

  /** A truthy value, or nothing. */
  function WhenTruthy(v: Option<Json>): (r: Option<Json>)
    ensures r.Some? <==> TruthyOpt(v)
    ensures r.Some? ==> r == v
  {
    if TruthyOpt(v) then v else None
  }

  function Row(s: Json): (r: SubtaskRow)
    ensures r.title == Field(s, "title")
    ensures r.estimateMinutes.Some? <==> TruthyOpt(Field(s, "estimateMinutes"))
  {
    SubtaskRow(Field(s, "title"), WhenTruthy(Field(s, "estimateMinutes")))
  }

  /** `subtasks.map(...)`: one row per entry, in order. */
  function Rows(items: seq<Json>): (r: seq<SubtaskRow>)
    ensures |r| == |items|
    ensures forall i :: 0 <= i < |items| ==> r[i] == Row(items[i])
  {
    if items == [] then [] else [Row(items[0])] + Rows(items[1..])
  }

  /** `renderBody()`: nothing without a suggestion; a non-empty
      `data.subtasks` first (only an array can be mapped over, and reading
      `title` of a null entry throws); then a truthy `data.improvedTitle`;
      otherwise the `suggestion` text, or the whole envelope as JSON when
      that text is falsy. */
  function RenderBody(suggestion: Json): (r: Body)
    ensures r == NoBody <==> !Truthy(suggestion)
    ensures Truthy(suggestion) && ListsSubtasks(suggestion) ==> (r.Breakdown? || r.TypeError?)
    ensures r.Breakdown? <==> Truthy(suggestion) && ListsSubtasks(suggestion)
                              && JNull !in Subtasks(suggestion)
                              && FieldOpt(Field(suggestion, "data"), "subtasks") == Some(JArr(Subtasks(suggestion)))
    ensures r.Breakdown? ==> r.rows == Rows(Subtasks(suggestion))
    ensures r.Improvement? <==> Truthy(suggestion) && !ListsSubtasks(suggestion)
                                && TruthyOpt(FieldOpt(Field(suggestion, "data"), "improvedTitle"))
    ensures r.Improvement? ==>
      var d := Field(suggestion, "data").value;
      && Some(r.improvedTitle) == Field(d, "improvedTitle")
      && r.suggestedPriority == Field(d, "suggestedPriority")
      && r.timeEstimateMinutes == Field(d, "timeEstimateMinutes")
      && r.reason == WhenTruthy(Field(d, "reason"))
    ensures Truthy(suggestion) && !ListsSubtasks(suggestion)
            && !TruthyOpt(FieldOpt(Field(suggestion, "data"), "improvedTitle")) ==>
      if TruthyOpt(Field(suggestion, "suggestion")) then r == PlainText(Field(suggestion, "suggestion").value)
      else r == JsonDump(suggestion)
  {
    var data := Field(suggestion, "data");
    var subtasks := FieldOpt(data, "subtasks");
    if !Truthy(suggestion) then NoBody
    else if subtasks.Some? && HasLength(subtasks.value) then
      if !subtasks.value.JArr? || JNull in subtasks.value.items then TypeError
      else Breakdown(Rows(subtasks.value.items))
    else if TruthyOpt(FieldOpt(data, "improvedTitle")) then
      var d := data.value;
      Improvement(d.fields["improvedTitle"], Field(d, "suggestedPriority"),
                  Field(d, "timeEstimateMinutes"), WhenTruthy(Field(d, "reason")))
    else if TruthyOpt(Field(suggestion, "suggestion")) then PlainText(Field(suggestion, "suggestion").value)
    else JsonDump(suggestion)
  }

  /** `suggestion?.data?.subtasks?.length` is truthy. */
  predicate ListsSubtasks(suggestion: Json) {
    var s := FieldOpt(Field(suggestion, "data"), "subtasks");
    s.Some? && HasLength(s.value)
  }

  /** The `data.subtasks` array of an envelope, or nothing. */
  function Subtasks(suggestion: Json): seq<Json>
  {
    var s := FieldOpt(Field(suggestion, "data"), "subtasks");
    if s.Some? && s.value.JArr? then s.value.items else []
  }

  /** The Clear button is disabled exactly when there is no suggestion. */
  predicate ClearDisabled(suggestion: Json) {
    !Truthy(suggestion)
  }

  /** An envelope `{ data: { subtasks, improvedTitle } }` with a non-empty
      list of subtask objects renders the breakdown, one row per subtask,
      whatever the improved title says. */
  lemma {:induction false} BreakdownBeforeImprovement(subtasks: seq<map<string, Json>>, title: Json)
    requires subtasks != []
    ensures
      var items := seq(|subtasks|, i requires 0 <= i < |subtasks| => JObj(subtasks[i]));
      var env := JObj(map["data" := JObj(map["subtasks" := JArr(items), "improvedTitle" := title])]);
      RenderBody(env).Breakdown? && |RenderBody(env).rows| == |subtasks|
  {
    var items := seq(|subtasks|, i requires 0 <= i < |subtasks| => JObj(subtasks[i]));
    assert JNull !in items;
  }

  /** An empty subtask list does not select the breakdown: a truthy improved
      title then selects the improvement view. */
  lemma {:induction false} EmptySubtasksFallThrough(title: Json)
    requires Truthy(title)
    ensures
      var env := JObj(map["data" := JObj(map["subtasks" := JArr([]), "improvedTitle" := title])]);
      RenderBody(env).Improvement? && RenderBody(env).improvedTitle == title
  {
  }

  /** A zero-minute estimate is hidden, like a missing one. */
  lemma {:induction false} ZeroEstimateHidden(title: Json)
    ensures Row(JObj(map["title" := title, "estimateMinutes" := JNum(0)])).estimateMinutes.None?
  {
  }
}
