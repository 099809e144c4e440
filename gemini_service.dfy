/** The AI service layer of server/services/geminiServices.js: the tolerant
    JSON decoder, the extraction of the model's text, the capability
    handlers' three outcomes, and the deterministic mock suggestion. The
    model reply and JSON decoding are inputs: `decode` stands for
    `JSON.parse` (None when it throws) and a `GenerateResult` for what the
    SDK returned. */
module GeminiService {
  import opened Wrappers
  import opened JsValue
  import opened Seqs
  import opened TaskModel

  const ModelName: string := "gemini-2.5-flash"
  const NotAvailable: string := "AI not available right now. Please try again."

  // ----- Prompt data -----

  /** One entry of the task JSON embedded in the productivity prompt. */
  datatype PromptRow = PromptRow(title: string, priority: Priority, status: Status, dueDate: int, isOverdue: bool)

  function PromptRows(tasks: seq<Task>, now: int): (rows: seq<PromptRow>)
    ensures |rows| == |tasks|
    ensures forall i :: 0 <= i < |tasks| ==>
      rows[i].title == tasks[i].title && rows[i].priority == tasks[i].priority
      && rows[i].status == tasks[i].status && rows[i].dueDate == tasks[i].dueDate
    ensures forall i :: 0 <= i < |tasks| ==> (rows[i].isOverdue <==> tasks[i].dueDate < now && tasks[i].status == Pending)
  {
    if tasks == [] then []
    else
      var t := tasks[0];
      [PromptRow(t.title, t.priority, t.status, t.dueDate, IsOverdue(t, now))] + PromptRows(tasks[1..], now)
  }

  predicate Flagged(row: PromptRow) {
    row.isOverdue
  }

  // ----- Tolerant JSON decoding -----

  /** `String.prototype.indexOf` for one character. */
  function IndexOf(s: string, c: char): (i: int)
    ensures -1 <= i < |s|
    ensures i >= 0 ==> s[i] == c && forall k :: 0 <= k < i ==> s[k] != c
    ensures i == -1 ==> forall k :: 0 <= k < |s| ==> s[k] != c
  {
    if s == [] then -1
    else if s[0] == c then 0
    else
      var j := IndexOf(s[1..], c);
      if j < 0 then -1 else j + 1
  }

  /** `String.prototype.lastIndexOf` for one character. */
  function LastIndexOf(s: string, c: char): (i: int)
    ensures -1 <= i < |s|
    ensures i >= 0 ==> s[i] == c && forall k :: i < k < |s| ==> s[k] != c
    ensures i == -1 ==> forall k :: 0 <= k < |s| ==> s[k] != c
  {
    if s == [] then -1
    else if s[|s| - 1] == c then |s| - 1
    else LastIndexOf(s[..|s| - 1], c)
  }

  /** Some `{` occurs before some `}`. */
  predicate HasBracePair(s: string) {
    exists i, j :: 0 <= i < j < |s| && s[i] == '{' && s[j] == '}'
  }

  /** The guard `start >= 0 && end > start` holds exactly when a `{` occurs
      before a `}`. */
  lemma {:induction false} BraceGuard(s: string)
    ensures (IndexOf(s, '{') >= 0 && LastIndexOf(s, '}') > IndexOf(s, '{')) <==> HasBracePair(s)
  {
    if HasBracePair(s) {
      var i, j :| 0 <= i < j < |s| && s[i] == '{' && s[j] == '}';
      assert IndexOf(s, '{') <= i;
      assert LastIndexOf(s, '}') >= j;
    }
  }

  /** `tryParseJsonObject`: no text gives null; otherwise the whole text is
      decoded, and failing that the slice from the first `{` to the last `}`. */
  function TryParseJsonObject(decode: string -> Option<Json>, text: Option<string>): (r: Option<Json>)
    ensures text.None? || text.value == [] ==> r.None?
    ensures text.Some? && text.value != [] && decode(text.value).Some? ==> r == decode(text.value)
    ensures text.Some? && text.value != [] && decode(text.value).None? && !HasBracePair(text.value) ==> r.None?
    ensures text.Some? && text.value != [] && decode(text.value).None? && HasBracePair(text.value) ==>
      var s := text.value;
      var start := IndexOf(s, '{');
      var end := LastIndexOf(s, '}');
      0 <= start < end < |s| && r == decode(s[start..end + 1])
  {
    if text.None? || text.value == [] then None
    else
      var s := text.value;
      var direct := decode(s);
      if direct.Some? then direct
      else
        var start := IndexOf(s, '{');
        var end := LastIndexOf(s, '}');
        BraceGuard(s);
        if start >= 0 && end > start then decode(s[start..end + 1])
        else None
  }

  // ----- The model's text -----

  datatype Content = Content(parts: Option<seq<Option<string>>>)
  datatype Candidate = Candidate(content: Option<Content>)

  /** What `generateContent` resolved to; None fields are absent. */
  datatype GenerateResult = GenerateResult(candidates: Option<seq<Candidate>>, text: Option<string>)

  /** `parts.map(p => p?.text).filter(Boolean).join('')`. */
  function JoinTruthy(parts: seq<Option<string>>): (r: string)
    ensures parts == [] ==> r == []
    ensures |parts| == 1 ==> r == parts[0].GetOr([])
    ensures (forall i :: 0 <= i < |parts| ==> parts[i].None?) ==> r == []
  {
    if parts == [] then []
    else (if parts[0].Some? then parts[0].value else []) + JoinTruthy(parts[1..])
  }

  /** Joining distributes over concatenation of the part lists, so the texts
      of the present parts appear whole and in order. */
  lemma {:induction false} JoinTruthyAppend(a: seq<Option<string>>, b: seq<Option<string>>)
    ensures JoinTruthy(a + b) == JoinTruthy(a) + JoinTruthy(b)
  {
    if a == [] {
      assert a + b == b;
    } else {
      assert (a + b)[0] == a[0];
      assert (a + b)[1..] == a[1..] + b;
      JoinTruthyAppend(a[1..], b);
    }
  }

  /** The optional chain `result?.candidates?.[0]?.content?.parts?...join('')`. */
  function FirstCandidateText(r: GenerateResult): Option<string> {
    if r.candidates.Some? && |r.candidates.value| > 0
       && r.candidates.value[0].content.Some? && r.candidates.value[0].content.value.parts.Some?
    then Some(JoinTruthy(r.candidates.value[0].content.value.parts.value))
    else None
  }

  /** `extractGeminiText`: the first candidate's text, else `result.text`,
      each trimmed and used only when not blank. */
  function ExtractGeminiText(r: GenerateResult): (t: Option<string>)
    ensures t.Some? ==> t.value != [] && Trim(t.value) == t.value
    ensures FirstCandidateText(r).Some? && !Blank(FirstCandidateText(r).value) ==>
              t == Some(Trim(FirstCandidateText(r).value))
    ensures (FirstCandidateText(r).None? || Blank(FirstCandidateText(r).value)) ==>
              (t.Some? <==> r.text.Some? && !Blank(r.text.value))
              && (t.Some? ==> t.value == Trim(r.text.value))
  {
    var first := FirstCandidateText(r);
    if first.Some? && Trim(first.value) != [] then
      TrimIdempotent(first.value);
      Some(Trim(first.value))
    else if r.text.Some? && Trim(r.text.value) != [] then
      TrimIdempotent(r.text.value);
      Some(Trim(r.text.value))
    else None
  }

  /** `callGemini`: nothing without an API key or when the SDK threw (reply None). */
  function CallGemini(hasKey: bool, reply: Option<GenerateResult>): (t: Option<string>)
    ensures !hasKey || reply.None? ==> t.None?
    ensures t.Some? ==> t.value != [] && Trim(t.value) == t.value
    ensures hasKey && reply.Some? ==> t == ExtractGeminiText(reply.value)
  {
    if !hasKey then None
    else if reply.None? then None
    else ExtractGeminiText(reply.value)
  }

  // ----- Envelopes -----

  datatype Source = Gemini | MockAi

  /** Priority focus buckets of the mock report. */
  datatype Bucket = OverdueBucket | HighBucket | MediumBucket | LowBucket

  /** The lines of the mock report; their wording is not modelled. */
  datatype Line =
    | Focus(bucket: Bucket, task: Task)
    | TipsHeader
    | PendingTip(pending: nat)
    | HighPriorityTip(high: nat)
    | OverdueTip(overdue: nat)
    | TimeBlockingTip
    | OneAtATimeTip
    | ProgressHeader
    | TotalLine(total: nat)
    | CompletedLine(completed: nat, rate: nat)
    | PendingLine(pending: nat)
    | OverdueLine(overdue: nat)
    | BlankLine
    | GreatJob
    | GoodProgress
    | GettingStarted

  /** A suggestion: the model's text, or the mock report, whose analysis
      consists of an optional focus line, the tips and the progress lines. */
  datatype Suggestion =
    | Text(text: string)
    | NoTasksTemplate
    | Analysis(focus: Option<Line>, tips: seq<Line>, progress: seq<Line>)

  /** The object a service function resolves to; None fields are absent. */
  datatype Envelope = Envelope(
    success: bool,
    data: Option<Json>,
    suggestion: Option<Suggestion>,
    source: Source,
    taskCount: Option<nat>)

  /** The accepted shape of improveTaskWithAI: a truthy `improvedTitle`. */
  predicate HasImprovedTitle(j: Json) {
    TruthyOpt(Field(j, "improvedTitle"))
  }

  /** The accepted shape of breakdownTaskWithAI: an array `subtasks`. */
  predicate HasSubtaskList(j: Json) {
    Field(j, "subtasks").Some? && Field(j, "subtasks").value.JArr?
  }

  /** Whether the decoded reply is used as data: `parsed && accepts(parsed)`. */
  predicate Accepted(decode: string -> Option<Json>, text: Option<string>, accepts: Json -> bool) {
    var parsed := TryParseJsonObject(decode, text);
    parsed.Some? && Truthy(parsed.value) && accepts(parsed.value)
  }

  /** The shared three-outcome body of the improve and breakdown handlers. */
  function CapabilityReply(decode: string -> Option<Json>, text: Option<string>, accepts: Json -> bool): (e: Envelope)
    ensures e.success && e.data.Some?
    ensures e.suggestion.Some? <==> e.data == Some(JNull)
    ensures e.taskCount.None?
    ensures e.source == MockAi <==> text.None? || text.value == []
    ensures e.source == MockAi ==> e == Envelope(true, Some(JNull), Some(Text(NotAvailable)), MockAi, None)
    ensures e.source == Gemini && Accepted(decode, text, accepts) ==>
              e.data == TryParseJsonObject(decode, text) && e.suggestion.None?
    ensures e.source == Gemini && !Accepted(decode, text, accepts) ==>
              e.data == Some(JNull) && e.suggestion == Some(Text(text.value))
    ensures e.data != Some(JNull) ==> accepts(e.data.value)
  {
    if text.None? || text.value == [] then
      Envelope(true, Some(JNull), Some(Text(NotAvailable)), MockAi, None)
    else if Accepted(decode, text, accepts) then
      Envelope(true, TryParseJsonObject(decode, text), None, Gemini, None)
    else
      Envelope(true, Some(JNull), Some(Text(text.value)), Gemini, None)
  }

  /** improveTaskWithAI, given the model's text for the rewrite prompt. */
  function ImproveTaskWithAI(decode: string -> Option<Json>, text: Option<string>): (e: Envelope)
    ensures e == CapabilityReply(decode, text, HasImprovedTitle)
    ensures e.data.Some? && e.data.value != JNull ==> HasImprovedTitle(e.data.value) && e.source == Gemini
  {
    CapabilityReply(decode, text, HasImprovedTitle)
  }

  /** breakdownTaskWithAI, given the model's text for the breakdown prompt. */
  function BreakdownTaskWithAI(decode: string -> Option<Json>, text: Option<string>): (e: Envelope)
    ensures e == CapabilityReply(decode, text, HasSubtaskList)
    ensures e.data.Some? && e.data.value != JNull ==> HasSubtaskList(e.data.value) && e.source == Gemini
  {
    CapabilityReply(decode, text, HasSubtaskList)
  }

  // ----- The mock suggestion -----

  function HasPriority(p: Priority): Task -> bool {
    (t: Task) => t.priority == p
  }

  function DueBefore(now: int): Task -> bool {
    (t: Task) => t.dueDate < now
  }

  /** The pending tasks of one priority, in order. */
  function PendingWith(tasks: seq<Task>, p: Priority): (r: seq<Task>)
    ensures forall t :: t in r <==> t in PendingOf(tasks) && t.priority == p
  {
    Filter(PendingOf(tasks), HasPriority(p))
  }

  /** The pending tasks due before `now`, in order. */
  function OverdueOf(tasks: seq<Task>, now: int): (r: seq<Task>)
    ensures forall t :: t in r <==> t in PendingOf(tasks) && t.dueDate < now
  {
    Filter(PendingOf(tasks), DueBefore(now))
  }

  /** The mock's overdue tasks are exactly the overdue tasks, in input order. */
  lemma {:induction false} OverdueOfIsOverdue(tasks: seq<Task>, now: int)
    ensures OverdueOf(tasks, now) == Filter(tasks, (t: Task) => IsOverdue(t, now))
  {
    FilterFilter(tasks, IsPendingTask, DueBefore(now), (t: Task) => IsOverdue(t, now));
  }

  /** The number of rows flagged overdue in the prompt equals the mock's overdue count. */
  lemma {:induction false} PromptOverdueAgreesWithMock(tasks: seq<Task>, now: int)
    ensures |Filter(PromptRows(tasks, now), Flagged)| == |OverdueOf(tasks, now)|
  {
    OverdueOfIsOverdue(tasks, now);
    PromptFlagsCount(tasks, now);
  }

  lemma {:induction false} PromptFlagsCount(tasks: seq<Task>, now: int)
    ensures |Filter(PromptRows(tasks, now), Flagged)| == |Filter(tasks, (t: Task) => IsOverdue(t, now))|
  {
    if tasks != [] {
      PromptFlagsCount(tasks[1..], now);
      assert PromptRows(tasks, now)[1..] == PromptRows(tasks[1..], now);
    }
  }

  function PriorityRank(p: Priority): int {
    match p
    case High => 3
    case Medium => 2
    case Low => 1
  }

  /** Position `i` is where a stable sort by descending key puts its first
      element: a maximal key, and no earlier element has that key. */
  predicate IsStableHead(keys: seq<int>, i: int) {
    && 0 <= i < |keys|
    && (forall j :: 0 <= j < |keys| ==> keys[j] <= keys[i])
    && (forall j :: 0 <= j < i ==> keys[j] < keys[i])
  }

  /** A stable sort has one head. */
  lemma {:induction false} StableHeadUnique(keys: seq<int>, i: int, j: int)
    requires IsStableHead(keys, i) && IsStableHead(keys, j)
    ensures i == j
  {
    assert keys[i] == keys[j];
  }

  /** The sort keys of the overdue bucket: higher priority first. */
  function UrgencyKeys(ts: seq<Task>): (keys: seq<int>)
    ensures |keys| == |ts|
  {
    seq(|ts|, i requires 0 <= i < |ts| => PriorityRank(ts[i].priority))
  }

  /** The sort keys of the priority buckets: earlier due date first. */
  function EarlinessKeys(ts: seq<Task>): (keys: seq<int>)
    ensures |keys| == |ts|
  {
    seq(|ts|, i requires 0 <= i < |ts| => -ts[i].dueDate)
  }

  /** The bucket the report focuses on: overdue, then High, Medium, Low. */
  function FocusBucket(tasks: seq<Task>, now: int): (b: Option<Bucket>)
    ensures b.None? <==> PendingOf(tasks) == []
  {
    if OverdueOf(tasks, now) != [] then Some(OverdueBucket)
    else if PendingWith(tasks, High) != [] then Some(HighBucket)
    else if PendingWith(tasks, Medium) != [] then Some(MediumBucket)
    else if PendingWith(tasks, Low) != [] then Some(LowBucket)
    else None
  }

  function BucketTasks(tasks: seq<Task>, now: int, b: Bucket): seq<Task> {
    match b
    case OverdueBucket => OverdueOf(tasks, now)
    case HighBucket => PendingWith(tasks, High)
    case MediumBucket => PendingWith(tasks, Medium)
    case LowBucket => PendingWith(tasks, Low)
  }

  function BucketKeys(ts: seq<Task>, b: Bucket): (keys: seq<int>)
    ensures |keys| == |ts|
  {
    if b == OverdueBucket then UrgencyKeys(ts) else EarlinessKeys(ts)
  }

  /** `t` is the task the report focuses on, from bucket `b`. */
  ghost predicate IsFocus(tasks: seq<Task>, now: int, b: Bucket, t: Task) {
    FocusBucket(tasks, now) == Some(b)
    && exists i :: IsStableHead(BucketKeys(BucketTasks(tasks, now, b), b), i) && BucketTasks(tasks, now, b)[i] == t
  }

  /** At most one task is focused on. */
  lemma {:induction false} FocusUnique(tasks: seq<Task>, now: int, b1: Bucket, t1: Task, b2: Bucket, t2: Task)
    requires IsFocus(tasks, now, b1, t1) && IsFocus(tasks, now, b2, t2)
    ensures b1 == b2 && t1 == t2
  {
    var ts := BucketTasks(tasks, now, b1);
    var keys := BucketKeys(ts, b1);
    var i :| IsStableHead(keys, i) && ts[i] == t1;
    var j :| IsStableHead(keys, j) && ts[j] == t2;
    StableHeadUnique(keys, i, j);
  }

  /** What the focus choice means: a pending task; an overdue one of highest
      priority when any task is overdue; otherwise one of the earliest due
      among the pending tasks of the highest priority present. */
  lemma {:induction false} FocusMeaning(tasks: seq<Task>, now: int, b: Bucket, t: Task)
    requires IsFocus(tasks, now, b, t)
    ensures t in PendingOf(tasks)
    ensures b == OverdueBucket ==>
      IsOverdue(t, now) && forall u :: u in OverdueOf(tasks, now) ==> PriorityRank(u.priority) <= PriorityRank(t.priority)
    ensures b != OverdueBucket ==> OverdueOf(tasks, now) == []
    ensures b != OverdueBucket ==> forall u :: u in PendingOf(tasks) ==> PriorityRank(u.priority) <= PriorityRank(t.priority)
    ensures b != OverdueBucket ==>
      forall u :: u in PendingOf(tasks) && u.priority == t.priority ==> t.dueDate <= u.dueDate
  {
    var ts := BucketTasks(tasks, now, b);
    var i :| IsStableHead(BucketKeys(ts, b), i) && ts[i] == t;
    assert t in ts;
    if b == OverdueBucket {
      FocusMostUrgent(tasks, now, t);
    } else {
      FocusEarliestDue(tasks, now, b, t);
      forall u | u in PendingOf(tasks)
        ensures PriorityRank(u.priority) <= PriorityRank(t.priority)
      {
        assert u in PendingWith(tasks, u.priority);
      }
    }
  }

  /** The head of the sort by priority has the highest priority. */
  lemma {:induction false} UrgencyHead(ts: seq<Task>, i: int)
    requires IsStableHead(UrgencyKeys(ts), i)
    ensures forall u :: u in ts ==> PriorityRank(u.priority) <= PriorityRank(ts[i].priority)
  {
    var keys := UrgencyKeys(ts);
    forall u | u in ts
      ensures PriorityRank(u.priority) <= PriorityRank(ts[i].priority)
    {
      var k :| 0 <= k < |ts| && ts[k] == u;
      assert keys[k] <= keys[i];
    }
  }

  /** The head of the sort by due date is due first. */
  lemma {:induction false} EarlinessHead(ts: seq<Task>, i: int)
    requires IsStableHead(EarlinessKeys(ts), i)
    ensures forall u :: u in ts ==> ts[i].dueDate <= u.dueDate
  {
    var keys := EarlinessKeys(ts);
    forall u | u in ts
      ensures ts[i].dueDate <= u.dueDate
    {
      var k :| 0 <= k < |ts| && ts[k] == u;
      assert keys[k] <= keys[i];
    }
  }

  /** An overdue focus has the highest priority among the overdue tasks. */
  lemma {:induction false} FocusMostUrgent(tasks: seq<Task>, now: int, t: Task)
    requires IsFocus(tasks, now, OverdueBucket, t)
    ensures forall u :: u in OverdueOf(tasks, now) ==> PriorityRank(u.priority) <= PriorityRank(t.priority)
  {
    var ts := OverdueOf(tasks, now);
    var i :| IsStableHead(UrgencyKeys(ts), i) && ts[i] == t;
    UrgencyHead(ts, i);
  }

  /** A focus from a priority bucket is due no later than any pending task of
      its priority. */
  lemma {:induction false} FocusEarliestDue(tasks: seq<Task>, now: int, b: Bucket, t: Task)
    requires IsFocus(tasks, now, b, t) && b != OverdueBucket
    ensures forall u :: u in PendingOf(tasks) && u.priority == t.priority ==> t.dueDate <= u.dueDate
  {
    var ts := BucketTasks(tasks, now, b);
    assert BucketKeys(ts, b) == EarlinessKeys(ts);
    var i :| IsStableHead(EarlinessKeys(ts), i) && ts[i] == t;
    EarlinessHead(ts, i);
    assert t in ts;
    forall u | u in PendingOf(tasks) && u.priority == t.priority
      ensures t.dueDate <= u.dueDate
    {
      assert u in ts;
    }
  }

  /** The head of a stable sort by descending key, found by one scan. */
  method StableSortHead(keys: seq<int>) returns (best: int)
    requires |keys| > 0
    ensures IsStableHead(keys, best)
  {
    best := 0;
    var i := 1;
    while i < |keys|
      invariant 1 <= i <= |keys| && 0 <= best < i
      invariant forall j :: 0 <= j < i ==> keys[j] <= keys[best]
      invariant forall j :: 0 <= j < best ==> keys[j] < keys[best]
    {
      if keys[i] > keys[best] {
        best := i;
      }
      i := i + 1;
    }
  }

  /** The bucket cascade with the sort-and-take-first of each branch. */
  method PickFocus(tasks: seq<Task>, now: int) returns (focus: Option<Line>)
    ensures focus.None? <==> PendingOf(tasks) == []
    ensures focus.Some? ==> focus.value.Focus? && IsFocus(tasks, now, focus.value.bucket, focus.value.task)
  {
    var b := FocusBucket(tasks, now);
    if b.None? {
      return None;
    }
    var ts := BucketTasks(tasks, now, b.value);
    var keys := BucketKeys(ts, b.value);
    var i := StableSortHead(keys);
    focus := Some(Focus(b.value, ts[i]));
  }

  /** The closing line chosen by the completion rate, if any. */
  function Closing(rate: nat, completed: nat): (l: Option<Line>)
    ensures l == Some(GreatJob) <==> rate >= 70
    ensures l == Some(GoodProgress) <==> 40 <= rate < 70
    ensures l == Some(GettingStarted) <==> rate < 40 && completed > 0
    ensures l.None? <==> rate < 40 && completed == 0
  {
    if rate >= 70 then Some(GreatJob)
    else if rate >= 40 then Some(GoodProgress)
    else if completed > 0 then Some(GettingStarted)
    else None
  }

  /** A line that is present only under a condition. */
  function When(c: bool, l: Line): (r: seq<Line>)
    ensures r == [] || r == [l]
    ensures l in r <==> c
  {
    if c then [l] else []
  }

  /** The tips for `pending` pending tasks, `high` of them of High priority,
      and `overdue` overdue ones: a header, the conditional tips in source
      order and the two fixed ones. */
  function TipsFor(pending: nat, high: nat, overdue: nat): seq<Line> {
    [TipsHeader]
      + When(pending > 0, PendingTip(pending))
      + When(high > 3, HighPriorityTip(high))
      + When(overdue > 0, OverdueTip(overdue))
      + [TimeBlockingTip, OneAtATimeTip]
  }

  ghost predicate TipsSection(tasks: seq<Task>, now: int, tips: seq<Line>) {
    tips == TipsFor(|PendingOf(tasks)|, |PendingWith(tasks, High)|, |OverdueOf(tasks, now)|)
  }

  /** The progress section for `total` tasks, `completed` and `pending` of
      them completed and pending and `overdue` overdue: the header, the
      counts, the overdue count when something is overdue, a blank line and
      the closing line, if any. */
  function ProgressFor(total: nat, completed: nat, pending: nat, overdue: nat): seq<Line> {
    var rate := RoundPercent(completed, total);
    [ProgressHeader, TotalLine(total), CompletedLine(completed, rate), PendingLine(pending)]
      + When(overdue > 0, OverdueLine(overdue))
      + [BlankLine]
      + (if Closing(rate, completed).Some? then [Closing(rate, completed).value] else [])
  }

  ghost predicate ProgressSection(tasks: seq<Task>, now: int, progress: seq<Line>) {
    progress == ProgressFor(|tasks|, |CompletedOf(tasks)|, |PendingOf(tasks)|, |OverdueOf(tasks, now)|)
  }

  /** The shape of the tips: the header first, the two fixed tips last,
      and between them at most the three conditional ones. */
  lemma {:induction false} TipsShape(pending: nat, high: nat, overdue: nat)
    ensures var tips := TipsFor(pending, high, overdue);
      && tips[0] == TipsHeader && tips[|tips| - 2..] == [TimeBlockingTip, OneAtATimeTip]
      && 3 <= |tips| <= 6
  {
    var tips := TipsFor(pending, high, overdue);
    var fixed := [TimeBlockingTip, OneAtATimeTip];
    assert tips == [TipsHeader] + When(pending > 0, PendingTip(pending)) + When(high > 3, HighPriorityTip(high))
      + When(overdue > 0, OverdueTip(overdue)) + fixed;
    assert tips[|tips| - 2..] == fixed;
  }

  /** What the tips say: each conditional tip appears exactly when its
      condition holds. */
  lemma {:induction false} TipsMeaning(pending: nat, high: nat, overdue: nat)
    ensures var tips := TipsFor(pending, high, overdue);
      && (PendingTip(pending) in tips <==> pending > 0)
      && (HighPriorityTip(high) in tips <==> high > 3)
      && (OverdueTip(overdue) in tips <==> overdue > 0)
  {
    var tips := TipsFor(pending, high, overdue);
    var a := When(pending > 0, PendingTip(pending));
    var b := When(high > 3, HighPriorityTip(high));
    var c := When(overdue > 0, OverdueTip(overdue));
    var fixed := [TimeBlockingTip, OneAtATimeTip];
    assert tips == [TipsHeader] + a + (b + c + fixed);
    assert tips == ([TipsHeader] + a) + b + (c + fixed);
    InConcat([TipsHeader], a, b + c + fixed, PendingTip(pending));
    InConcat([TipsHeader] + a, b, c + fixed, HighPriorityTip(high));
    InConcat([TipsHeader] + a + b, c, fixed, OverdueTip(overdue));
  }

  /** What the progress section says: it opens with the header and the
      counts, reports the overdue count exactly when something is overdue,
      and ends with the closing line or, without one, the blank line. */
  lemma {:induction false} ProgressMeaning(total: nat, completed: nat, pending: nat, overdue: nat)
    ensures var progress := ProgressFor(total, completed, pending, overdue);
      var closing := Closing(RoundPercent(completed, total), completed);
      && progress[..4] == [ProgressHeader, TotalLine(total),
                           CompletedLine(completed, RoundPercent(completed, total)), PendingLine(pending)]
      && (OverdueLine(overdue) in progress <==> overdue > 0)
      && progress[|progress| - 1] == (if closing.Some? then closing.value else BlankLine)
  {
    var progress := ProgressFor(total, completed, pending, overdue);
    var closing := Closing(RoundPercent(completed, total), completed);
    var head := [ProgressHeader, TotalLine(total), CompletedLine(completed, RoundPercent(completed, total)),
                 PendingLine(pending)];
    var o := When(overdue > 0, OverdueLine(overdue));
    var tail := if closing.Some? then [closing.value] else [];
    assert progress == head + o + ([BlankLine] + tail);
    assert progress[..4] == head;
    assert OverdueLine(overdue) !in [BlankLine] + tail;
    InConcat(head, o, [BlankLine] + tail, OverdueLine(overdue));
  }

  lemma {:induction false} InConcat(x: seq<Line>, y: seq<Line>, z: seq<Line>, l: Line)
    requires l !in x && l !in z
    ensures l in x + y + z <==> l in y
  {
    if l in y {
      var k :| 0 <= k < |y| && y[k] == l;
      assert (x + y + z)[|x| + k] == l;
    }
  }

  /** What the mock report contains: the "no tasks" template for an empty
      list; otherwise a focus line exactly when some task is pending, the
      tips and the progress section. */
  ghost predicate IsMockReport(tasks: seq<Task>, now: int, r: Suggestion) {
    if tasks == [] then r == NoTasksTemplate
    else
      && r.Analysis?
      && (r.focus.None? <==> PendingOf(tasks) == [])
      && (r.focus.Some? ==> r.focus.value.Focus? && IsFocus(tasks, now, r.focus.value.bucket, r.focus.value.task))
      && TipsSection(tasks, now, r.tips)
      && ProgressSection(tasks, now, r.progress)
  }

  /** The mock envelope: always successful, from the mock source, counting every task. */
  ghost predicate IsMockEnvelope(tasks: seq<Task>, now: int, e: Envelope) {
    && e.success && e.source == MockAi && e.data.None? && e.taskCount == Some(|tasks|)
    && e.suggestion.Some? && IsMockReport(tasks, now, e.suggestion.value)
  }

  /** The tips paragraph, appended line by line. */
  method BuildTips(tasks: seq<Task>, now: int) returns (tips: seq<Line>)
    ensures TipsSection(tasks, now, tips)
  {
    var pending := PendingOf(tasks);
    var high := PendingWith(tasks, High);
    var overdue := OverdueOf(tasks, now);
    tips := [TipsHeader];
    if |pending| > 0 {
      tips := tips + [PendingTip(|pending|)];
    }
    if |high| > 3 {
      tips := tips + [HighPriorityTip(|high|)];
    }
    if |overdue| > 0 {
      tips := tips + [OverdueTip(|overdue|)];
    }
    tips := tips + [TimeBlockingTip];
    tips := tips + [OneAtATimeTip];
  }

  /** The progress paragraph and closing line, appended line by line. */
  method BuildProgress(tasks: seq<Task>, now: int) returns (progress: seq<Line>)
    ensures ProgressSection(tasks, now, progress)
  {
    var pending := PendingOf(tasks);
    var overdue := OverdueOf(tasks, now);
    var completed := CompletedOf(tasks);
    var rate := RoundPercent(|completed|, |tasks|);
    progress := [ProgressHeader];
    progress := progress + [TotalLine(|tasks|)];
    progress := progress + [CompletedLine(|completed|, rate)];
    progress := progress + [PendingLine(|pending|)];
    if |overdue| > 0 {
      progress := progress + [OverdueLine(|overdue|)];
    }
    progress := progress + [BlankLine];
    var closing := Closing(rate, |completed|);
    if closing.Some? {
      progress := progress + [closing.value];
    }
  }

  /** getMockSuggestion: the "no tasks" template, or the analysis. */
  method GetMockSuggestion(tasks: seq<Task>, now: int) returns (e: Envelope)
    ensures IsMockEnvelope(tasks, now, e)
  {
    if tasks == [] {
      return Envelope(true, None, Some(NoTasksTemplate), MockAi, Some(0));
    }
    var focus := PickFocus(tasks, now);
    var tips := BuildTips(tasks, now);
    var progress := BuildProgress(tasks, now);
    e := Envelope(true, None, Some(Analysis(focus, tips, progress)), MockAi, Some(|tasks|));
  }

  /** getProductivitySuggestion, given the model's text for the productivity prompt. */
  method GetProductivitySuggestion(tasks: seq<Task>, now: int, text: Option<string>) returns (e: Envelope)
    ensures text.None? || text.value == [] ==> IsMockEnvelope(tasks, now, e)
    ensures text.Some? && text.value != [] ==> e == Envelope(true, None, Some(Text(text.value)), Gemini, Some(|tasks|))
  {
    if text.None? || text.value == [] {
      e := GetMockSuggestion(tasks, now);
      return;
    }
    e := Envelope(true, None, Some(Text(text.value)), Gemini, Some(|tasks|));
  }
}
