/** The brain-dump panel: free text (typed, or dictated through speech
    recognition) is sent for parsing, and the tasks the reply extracts are
    added one by one or all at once through the task store's create request. */
module BrainDump {
  import opened Wrappers
  import opened JsValue
  import AiSlice
  import TaskController
  import TaskModel

  /** One entry of a speech-recognition event: the best alternative's
      transcript and whether the recogniser considers it final. */
  datatype SpeechResult = SpeechResult(transcript: string, isFinal: bool)

  function Piece(r: SpeechResult): string {
    if r.isFinal then r.transcript else ""
  }

  /** The final transcripts of a run of results, concatenated in order. */
  function Finals(rs: seq<SpeechResult>): string
    decreases |rs|
  {
    if rs == [] then "" else Finals(rs[..|rs| - 1]) + Piece(rs[|rs| - 1])
  }

  /** Final transcripts of two runs concatenate. */
  lemma {:induction false} FinalsConcat(a: seq<SpeechResult>, b: seq<SpeechResult>)
    ensures Finals(a + b) == Finals(a) + Finals(b)
    decreases |b|
  {
    if b == [] {
      assert a + b == a;
    } else {
      var ab, front, last := a + b, b[..|b| - 1], b[|b| - 1];
      assert ab[..|ab| - 1] == a + front;
      assert ab[|ab| - 1] == last;
      FinalsConcat(a, front);
      assert Finals(ab) == Finals(a) + Finals(front) + Piece(last);
      assert Finals(b) == Finals(front) + Piece(last);
    }
  }

  /** Interim results contribute nothing. */
  lemma {:induction false} InterimIgnored(rs: seq<SpeechResult>)
    requires forall i :: 0 <= i < |rs| ==> !rs[i].isFinal
    ensures Finals(rs) == ""
    decreases |rs|
  {
    if rs != [] {
      InterimIgnored(rs[..|rs| - 1]);
    }
  }

  /** A final transcript is kept whole, between the finals before it and
      the finals after it. */
  lemma {:induction false} FinalsKeepEveryFinal(rs: seq<SpeechResult>, k: nat)
    requires k < |rs| && rs[k].isFinal
    ensures Finals(rs) == Finals(rs[..k]) + rs[k].transcript + Finals(rs[k + 1..])
  {
    assert rs == rs[..k] + [rs[k]] + rs[k + 1..];
    FinalsAround(rs[..k], rs[k], rs[k + 1..]);
  }

  lemma {:induction false} FinalsAround(before: seq<SpeechResult>, x: SpeechResult, after: seq<SpeechResult>)
    ensures Finals(before + [x] + after) == Finals(before) + Piece(x) + Finals(after)
  {
    FinalsConcat(before + [x], after);
    assert (before + [x])[..|before + [x]| - 1] == before;
  }

  /** The `onresult` loop: the final transcripts from `resultIndex` on (none
      when the index is past the end). */
  method FinalTranscript(results: seq<SpeechResult>, resultIndex: nat) returns (t: string)
    ensures resultIndex <= |results| ==> t == Finals(results[resultIndex..])
    ensures resultIndex > |results| ==> t == ""
  {
    t := "";
    var i := resultIndex;
    while i < |results|
      invariant resultIndex <= |results| ==> resultIndex <= i <= |results|
      invariant resultIndex > |results| ==> i == resultIndex
      invariant resultIndex <= |results| ==> t == Finals(results[resultIndex..i])
      invariant resultIndex > |results| ==> t == ""
      decreases |results| - i
    {
      assert results[resultIndex..i + 1][..i - resultIndex] == results[resultIndex..i];
      if results[i].isFinal {
        t := t + results[i].transcript;
      }
      i := i + 1;
    }
    if resultIndex <= |results| {
      assert results[resultIndex..i] == results[resultIndex..];
    }
  }

  /** `prev ? prev + ", " + final : final`, applied only to a non-empty final
      transcript. */
  function AppendTranscript(prev: string, final: string): (r: string)
    ensures final == "" ==> r == prev
    ensures |r| == |prev| + |final| + (if prev != "" && final != "" then 2 else 0)
    ensures r[..|prev|] == prev
    ensures r[|prev| + (if prev != "" && final != "" then 2 else 0)..] == final
    ensures prev != "" && final != "" ==> r[|prev|..|prev| + 2] == ", "
  {
    if final == "" then prev
    else if prev == "" then final
    else prev + ", " + final
  }

  /** `brainDumpResult?.data?.tasks || []`, read as the list of extracted
      tasks. */
  function ParsedTasks(result: Json): (r: seq<Json>)
    ensures r != [] ==> FieldOpt(Field(result, "data"), "tasks") == Some(JArr(r))
    ensures forall xs :: FieldOpt(Field(result, "data"), "tasks") == Some(JArr(xs)) ==> r == xs
  {
    var tasks := FieldOpt(Field(result, "data"), "tasks");
    if tasks.Some? && tasks.value.JArr? then tasks.value.items else []
  }

  /** `v || fallback` on a property that may be undefined. */
  function Or(v: Option<Json>, fallback: Json): (r: Json)
    ensures TruthyOpt(v) ==> Some(r) == v
    ensures !TruthyOpt(v) ==> r == fallback
  {
    if TruthyOpt(v) then v.value else fallback
  }

  /** The body of the create request for one extracted task; `today` is the
      current date as `YYYY-MM-DD`. */
  function NewTaskRequest(task: Json, today: string): (b: TaskController.CreateBody)
    ensures b.title == Field(task, "title")
    ensures b.description == Some(Or(Field(task, "description"), JStr("")))
    ensures b.priority == Some(Or(Field(task, "priority"), JStr("Medium")))
    ensures b.dueDate == Some(Or(Field(task, "suggestedDueDate"), JStr(today)))
    ensures b.status.None?
  {
    TaskController.CreateBody(
      Field(task, "title"),
      Some(Or(Field(task, "description"), JStr(""))),
      Some(Or(Field(task, "priority"), JStr("Medium"))),
      Some(Or(Field(task, "suggestedDueDate"), JStr(today))),
      None)
  }

  /** On the server a request for an extracted task with a truthy title always
      passes the title-and-due-date check, and missing fields take the same
      defaults the server would have chosen. */
  lemma {:induction false} RequestMeetsServerDefaults(task: Json, today: string, owner: TaskModel.UserId,
                                   castDate: Json -> Option<int>)
    requires today != ""
    ensures TruthyOpt(NewTaskRequest(task, today).dueDate)
    ensures TruthyOpt(Field(task, "title")) ==> TruthyOpt(NewTaskRequest(task, today).title)
    ensures !TruthyOpt(Field(task, "description")) ==>
      TaskController.CreateFields(NewTaskRequest(task, today), owner, castDate).description == Some("")
    ensures !TruthyOpt(Field(task, "priority")) ==>
      TaskController.CreateFields(NewTaskRequest(task, today), owner, castDate).priority == Some("Medium")
  {
  }

  /** The create requests "Add All" sends for the first `k` tasks: one per
      task not already added, in list order. */
  function Requests(tasks: seq<Json>, added: seq<nat>, today: string, k: nat): (r: seq<TaskController.CreateBody>)
    requires k <= |tasks|
    ensures |r| <= k
  {
    if k == 0 then []
    else Requests(tasks, added, today, k - 1)
         + (if k - 1 in added then [] else [NewTaskRequest(tasks[k - 1], today)])
  }

  /** The added indices below `k`. */
  function AddedBelow(added: seq<nat>, k: nat): set<nat> {
    set i: nat | i < k && i in added
  }

  /** Every index below `k` is either added or requested: the requests number
      `k` less the added indices below `k`. */
  lemma {:induction false} RequestsCount(tasks: seq<Json>, added: seq<nat>, today: string, k: nat)
    requires k <= |tasks|
    ensures |Requests(tasks, added, today, k)| == k - |AddedBelow(added, k)|
  {
    if k > 0 {
      RequestsCount(tasks, added, today, k - 1);
      if k - 1 in added {
        assert AddedBelow(added, k) == AddedBelow(added, k - 1) + {k - 1};
      } else {
        assert AddedBelow(added, k) == AddedBelow(added, k - 1);
      }
    }
  }

  /** The added list describes a list of `n` tasks: distinct indices, each in
      range. */
  ghost predicate Tracks(added: seq<nat>, n: nat) {
    && (forall i, j :: 0 <= i < j < |added| ==> added[i] != added[j])
    && (forall i :: 0 <= i < |added| ==> added[i] < n)
  }

  /** The indices an added list holds. */
  function Elems(added: seq<nat>): set<nat> {
    set x | x in added
  }

  lemma {:induction false} DistinctCard(added: seq<nat>)
    requires forall i, j :: 0 <= i < j < |added| ==> added[i] != added[j]
    ensures |Elems(added)| == |added|
  {
    if added != [] {
      var rest := added[..|added| - 1];
      DistinctCard(rest);
      var last := added[|added| - 1];
      assert added == rest + [last];
      assert Elems(added) == Elems(rest) + {last};
      assert last !in Elems(rest) by {
        forall i | 0 <= i < |rest|
          ensures rest[i] != last
        {
          assert added[i] != added[|added| - 1];
        }
      }
    }
  }

  /** The indices of a list of `n` tasks. */
  function Indices(n: nat): (r: set<nat>)
    ensures forall i: nat :: i in r <==> i < n
    ensures |r| == n
  {
    if n == 0 then {} else Indices(n - 1) + {n - 1}
  }

  lemma {:induction false} SubsetCard(a: set<nat>, b: set<nat>)
    requires a <= b
    ensures |a| <= |b|
    ensures |a| == |b| ==> a == b
  {
    assert a + b == b;
    assert a * b == a;
    assert |b - a| + |a| == |b|;
  }

  /** "Add All" is disabled when as many tasks were added as were extracted;
      for a well-formed added list that is exactly when every task was. */
  lemma {:induction false} AllAddedIffCountsMatch(added: seq<nat>, n: nat)
    requires Tracks(added, n)
    ensures |added| == n <==> forall i: nat :: i < n ==> i in added
  {
    var s := Elems(added);
    DistinctCard(added);
    assert s <= Indices(n);
    SubsetCard(s, Indices(n));
    if forall i: nat :: i < n ==> i in added {
      assert Indices(n) <= s;
      assert s == Indices(n);
    }
    if |added| == n {
      assert s == Indices(n);
      forall i: nat | i < n
        ensures i in added
      {
        assert i in s;
      }
    }
  }

  /** "Add All" sends one request per task not yet added. */
  lemma {:induction false} AddAllRequestCount(tasks: seq<Json>, added: seq<nat>, today: string)
    requires Tracks(added, |tasks|)
    ensures |Requests(tasks, added, today, |tasks|)| == |tasks| - |added|
  {
    RequestsCount(tasks, added, today, |tasks|);
    DistinctCard(added);
    assert AddedBelow(added, |tasks|) == Elems(added);
  }

  /** What the panel shows. */
  datatype Screen =
    | InputScreen(parseDisabled: bool, clearShown: bool, aiResponse: Option<Json>)
    | ListScreen(tasks: seq<Json>, addAllDisabled: bool, itemDisabled: seq<bool>)

  function View(result: Json, text: string, added: seq<nat>, isLoading: bool): (r: Screen)
    ensures r.ListScreen? <==> ParsedTasks(result) != []
    ensures r.ListScreen? ==> r.tasks == ParsedTasks(result) && |r.itemDisabled| == |r.tasks|
    ensures r.ListScreen? ==> forall i :: 0 <= i < |r.itemDisabled| ==> (r.itemDisabled[i] <==> i in added)
    ensures r.ListScreen? ==> (r.addAllDisabled <==> |added| == |r.tasks|)
    ensures r.InputScreen? ==> (r.parseDisabled <==> isLoading || Blank(text))
    ensures r.InputScreen? ==> (r.clearShown <==> text != "")
    ensures r.InputScreen? ==> (r.aiResponse.Some? <==>
      TruthyOpt(Field(result, "suggestion")) && !TruthyOpt(Field(result, "data")))
    ensures r.InputScreen? && r.aiResponse.Some? ==> Field(result, "suggestion") == r.aiResponse
  {
    var tasks := ParsedTasks(result);
    if tasks == [] then
      InputScreen(isLoading || Blank(text), text != "",
                  if TruthyOpt(Field(result, "suggestion")) && !TruthyOpt(Field(result, "data"))
                  then Field(result, "suggestion") else None)
    else
      ListScreen(tasks, |added| == |tasks|, seq(|tasks|, i => i in added))
  }

  /** The panel's local state: the text area and the indices of the tasks
      already added. */
  class BrainDumpPanel {
    var text: string
    var added: seq<nat>

    constructor ()
      ensures text == "" && added == []
    {
      text := "";
      added := [];
    }

    method Edit(v: string)
      modifies this
      ensures text == v && added == old(added)
    {
      text := v;
    }

    /** `onresult`: the final transcripts of the event are appended to the
        text, after a comma when there is text already. */
    method OnVoiceResult(results: seq<SpeechResult>, resultIndex: nat)
      modifies this
      ensures resultIndex <= |results| ==> text == AppendTranscript(old(text), Finals(results[resultIndex..]))
      ensures resultIndex > |results| ==> text == old(text)
      ensures added == old(added)
    {
      var t := FinalTranscript(results, resultIndex);
      if t != "" {
        text := AppendTranscript(text, t);
      }
    }

    /** `handleParse`: blank text is refused; otherwise the text, untrimmed,
        is what `parseBrainDump` is dispatched with. */
    method Parse() returns (request: Option<string>)
      ensures request.None? <==> Blank(text)
      ensures request.Some? ==> request.value == text
    {
      if Blank(text) {
        request := None;
      } else {
        request := Some(text);
      }
    }

    /** `handleAddTask` for task `idx` (its button is disabled once added). */
    method AddTask(tasks: seq<Json>, idx: nat, today: string) returns (request: TaskController.CreateBody)
      requires idx < |tasks| && idx !in added
      modifies this
      ensures request == NewTaskRequest(tasks[idx], today)
      ensures added == old(added) + [idx] && text == old(text)
      ensures Tracks(old(added), |tasks|) ==> Tracks(added, |tasks|)
    {
      request := NewTaskRequest(tasks[idx], today);
      added := added + [idx];
    }

    /** `handleAddAll`: a request for every task not yet added, then every
        index marked as added. */
    method AddAll(tasks: seq<Json>, today: string) returns (requests: seq<TaskController.CreateBody>)
      modifies this
      ensures requests == Requests(tasks, old(added), today, |tasks|)
      ensures |added| == |tasks| && forall i :: 0 <= i < |tasks| ==> added[i] == i
      ensures Tracks(added, |tasks|)
      ensures text == old(text)
    {
      requests := [];
      var i := 0;
      while i < |tasks|
        invariant 0 <= i <= |tasks|
        invariant requests == Requests(tasks, added, today, i)
      {
        if i !in added {
          requests := requests + [NewTaskRequest(tasks[i], today)];
        }
        i := i + 1;
      }
      added := seq(|tasks|, j => j);
    }

    /** `handleClear`: the stored reply is cleared, the text emptied and the
        added list reset. */
    method Clear(ai: AiSlice.AiState)
      modifies this, ai
      ensures text == "" && added == []
      ensures ai.SlotValue(AiSlice.BrainDumpSlot) == JNull
      ensures forall s :: s != AiSlice.BrainDumpSlot ==> ai.SlotValue(s) == old(ai.SlotValue(s))
      ensures ai.isLoading == old(ai.isLoading) && ai.isError == old(ai.isError)
      ensures ai.isSuccess == old(ai.isSuccess) && ai.message == old(ai.message)
    {
      ai.ClearSlot(AiSlice.BrainDumpSlot);
      text := "";
      added := [];
    }
  }
}
