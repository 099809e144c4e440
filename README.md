# Task manager with AI assistance — a Dafny model

This project models a task manager with AI assistance. It has an Express/MongoDB
server and a React/Redux client. Users create tasks, each with:

- a title, a description and a due date;
- a priority (Low, Medium or High);
- a status (Pending or Completed).

Users filter and page the task list. They can also ask an AI service (Google
Gemini, with a built-in mock when no model answers) for several things:

- a productivity suggestion;
- a rewritten or broken-down task;
- task extraction from a free-text "brain dump";
- energy-based advice;
- a daily reflection.

The model covers these parts:

- **Server.**
  - The `Task` document: enumerations, required fields, trimming, defaults and timestamps (`TaskModel`).
  - The CRUD handlers with their 400/403/404/500 guards (`TaskController`). The task collection is a class whose map the handlers update.
  - The AI handlers (`AiController`).
  - The AI service layer (`GeminiService`):
    - the tolerant JSON extraction from model text;
    - the text extraction from a Gemini reply;
    - the three-outcome replies of the improve and breakdown capabilities;
    - the mock productivity report. Its focus-task choice is proved to be the head of a stable sort.
- **Client stores.** The three Redux slices for tasks, AI results and authentication (`TaskSlice`, `AiSlice`, `AuthSlice`). Each is a class whose reducers are methods.
- **Client components.**
  - The pagination strip (`TaskPagination`), proved against a reference page list.
  - The dashboard statistics (`Dashboard`).
  - The markdown clean-up and line classification shared by the energy and reflection panels (`TextFormat`).
  - The panels themselves (`EnergySuggestions`, `DailyReflection`, `AiAdvisor`, `BrainDump`).
  - The new-task form (`TaskForm`) and the registration form (`Register`).

Shared modules:

- `Wrappers`: `Option` and `Result`.
- `JsValue`: decoded JSON as JavaScript sees it:
  - truthiness;
  - optional property access;
  - ECMAScript `trim`;
  - `Math.round` of a percentage.
- `Seqs`: `Array.prototype.filter`.
- `Http`: a reply with its status code, and a settled promise.

The model makes these choices:

- **Parameters.** Time (`now`, `today`), the JSON grammar (`decode`), Mongoose's date cast (`castDate`), MongoDB queries (`find`, `lookup`) and the AI service functions are all parameters. A rejected promise is a `Rejected` value.
- **Strings** are sequences of code points.
- **Length.** Where the source compares a JavaScript `length`, the UTF-16 length is modelled explicitly (`Register.Utf16Length`).
- **Regular expressions.** The heading class `/^[…]/` in the panels has no `u` flag, so it compares UTF-16 code units. The model reads it that way (`TextFormat.HeadingMark`).

## Model

| member | source | states |
|---|---|---|
| JsValue.Trim | client/src/components/EnergySuggestions.jsx:81 | the trimmed string neither starts nor ends with white space, is empty iff the input is all white space, and holds only characters of the input |
| JsValue.TrimIdempotent | server/models/Task.js:8 | trimming an already trimmed string changes nothing |
| JsValue.RoundPercent | client/src/pages/Dashboard.jsx:20 | 0 when there is no task; otherwise the nearest whole percent of part over whole, halves rounded up, and at most 100 when part is at most whole |
| TaskModel.PriorityName | server/models/Task.js:15-19 | the stored name of every priority parses back to that priority |
| TaskModel.ParsePriority | server/models/Task.js:15-19 | a priority string is accepted iff it is one of Low, Medium, High |
| TaskModel.StatusName | server/models/Task.js:20-24 | the stored name of every status parses back to that status |
| TaskModel.ParseStatus | server/models/Task.js:20-24 | a status string is accepted iff it is Pending or Completed |
| TaskModel.StatusPartition | server/models/Task.js:20-24 | every task is pending or completed: the two groups together count every task |
| TaskModel.SchemaErrors | server/models/Task.js:5-33 | an error is reported iff its rule is broken: the title is required (blank after trimming counts as missing), so are the due date and the owner, and the enum checks apply when the field is given; no error iff all hold |
| TaskModel.RaisedExactly | server/models/Task.js:5-33 | the errors collected over all kinds are exactly the raised ones |
| TaskModel.NoneRaised | server/models/Task.js:5-33 | no error is raised iff every schema rule holds |
| TaskModel.Stored | server/models/Task.js:5-37 | the stored task is well formed; its title and description are trimmed, a missing description is "", missing enums take their defaults, the due date and owner are the given ones and both timestamps equal the creation time |
| TaskModel.StoredDefaults | server/models/Task.js:15-24 | an explicit "Medium" or "Pending" is stored as the same value the default gives |
| TaskModel.CreateDocument | server/models/Task.js:1-45 | creation succeeds iff there is no schema error, and all the errors are reported otherwise; on success the document is the stored task |
| TaskController.BuildTaskQuery | server/controllers/taskController.js:6-23 | the filter selects exactly the owner's tasks that match the status and priority given (non-empty) and, for a non-blank search, the trimmed pattern in the title or description; the sort is by due date iff `sortBy` is `dueDate` |
| TaskController.GetTasks | server/controllers/taskController.js:4-32 | a task is selected iff it is the requester's and matches the given status, priority and title/description search; the order is by due date iff `sortBy` is `dueDate`; 200 with the list and its count, or 500 "Failed to get tasks" when the query fails |
| TaskController.Toggled | server/controllers/taskController.js:160 | the toggled status differs from the old one |
| TaskController.ToggleInvolution | server/controllers/taskController.js:160 | toggling twice restores the status |
| TaskController.Patched | server/controllers/taskController.js:101-107 | each given field replaces the stored one, a given title and description trimmed as the schema's setters do; absent fields, the id, the owner and the creation time are kept; the update time is now |
| TaskController.PatchedWellFormed | server/models/Task.js:5-14 | a patch whose title (if given) is not blank after trimming keeps a well-formed task well formed: title non-blank and both texts trimmed |
| TaskController.EmptyPatchTouchesOnlyTimestamp | server/controllers/taskController.js:101-107 | an update with no fields changes only the update timestamp |
| TaskController.CreatedTaskOwnerAndDescription | server/controllers/taskController.js:60-74 | a created task belongs to the requester; a falsy description becomes "" |
| TaskController.CreatedTaskEnumDefaults | server/controllers/taskController.js:60-74 | a falsy priority becomes Medium and a falsy status Pending |
| TaskController.CreatedTaskTitle | server/controllers/taskController.js:60-74 | a created task's title is the body's title string, trimmed |
| TaskController.TaskStore.Guard | server/controllers/taskController.js:38-45 | 404 when the id is unknown, before 403 when the task belongs to someone else; passes iff the requester owns it |
| TaskController.TaskStore.GetTaskById | server/controllers/taskController.js:34-55 | 404, 403 "Not authorized to access this task", or 200 with the stored task |
| TaskController.TaskStore.CreateTask | server/controllers/taskController.js:58-85 | 400 when the title or due date is falsy; a failure leaves the store unchanged; success is 201 with the created document, stored under a fresh id; a valid request with a free id always succeeds |
| TaskController.TaskStore.UpdateTask | server/controllers/taskController.js:88-118 | a failed guard answers with its error and changes nothing; a title that is blank after trimming fails the required validator with the 500 and changes nothing; otherwise the patched task replaces the stored one and is returned; the store stays valid (every task well formed under its own id) |
| TaskController.TaskStore.constructor | server/models/Task.js:43 | the collection starts empty, hence valid |
| TaskController.TaskStore.DeleteTask | server/controllers/taskController.js:121-144 | a failed guard answers with its error and changes nothing; otherwise exactly that task is removed |
| TaskController.TaskStore.ToggleTaskCompletion | server/controllers/taskController.js:147-172 | a failed guard answers with its error; otherwise the status flips, the update time is now, and only that task changes |
| GeminiService.PromptRows | server/services/geminiServices.js:5-12 | one prompt row per task, in order, carrying its fields; a row is flagged overdue iff the task is pending and past due |
| GeminiService.IndexOf | server/services/geminiServices.js:40 | the first position of the character, or -1 when it is absent |
| GeminiService.LastIndexOf | server/services/geminiServices.js:41 | the last position of the character, or -1 when it is absent |
| GeminiService.BraceGuard | server/services/geminiServices.js:40-42 | the guard `start >= 0 && end > start` holds iff some `{` precedes some `}` |
| GeminiService.TryParseJsonObject | server/services/geminiServices.js:29-52 | null for a missing or empty text; the whole text when it decodes; otherwise the slice from the first `{` to the last `}` when there is one, else null |
| GeminiService.JoinTruthy | server/services/geminiServices.js:55 | absent parts contribute nothing: no parts or only absent parts give the empty text; a single part gives its own text |
| GeminiService.JoinTruthyAppend | server/services/geminiServices.js:55 | joining two runs of parts is joining each and concatenating, so every present part appears in order |
| GeminiService.ExtractGeminiText | server/services/geminiServices.js:54-61 | the result is never empty and is trimmed; the first candidate's joined text wins when it is not blank, then `result.text`, then null |
| GeminiService.CallGemini | server/services/geminiServices.js:63-84 | null without an API key or when the call throws; otherwise the extracted text |
| GeminiService.CapabilityReply | server/services/geminiServices.js:128-158 | always successful; the mock "not available" reply iff there was no text; the decoded data when it has the accepted shape; otherwise null data with the raw text as the suggestion |
| GeminiService.ImproveTaskWithAI | server/services/geminiServices.js:106-159 | data comes back only when it has a truthy `improvedTitle`, and only from the model |
| GeminiService.BreakdownTaskWithAI | server/services/geminiServices.js:162-208 | data comes back only when its `subtasks` is an array, and only from the model |
| GeminiService.OverdueOfIsOverdue | server/services/geminiServices.js:228-232 | the mock's overdue list is exactly the overdue tasks, in input order |
| GeminiService.PromptOverdueAgreesWithMock | server/services/geminiServices.js:11 | the overdue rows flagged in the prompt number as many as the mock's overdue tasks |
| GeminiService.PromptFlagsCount | server/services/geminiServices.js:11 | the overdue rows flagged in the prompt number as many as the overdue tasks |
| GeminiService.StableHeadUnique | server/services/geminiServices.js:239-243 | a stable sort has a single first element |
| GeminiService.UrgencyKeys | server/services/geminiServices.js:241-242 | one sort key per overdue task |
| GeminiService.EarlinessKeys | server/services/geminiServices.js:250 | one sort key per task of a priority bucket |
| GeminiService.BucketKeys | server/services/geminiServices.js:238-264 | one sort key per task of the chosen bucket |
| GeminiService.FocusBucket | server/services/geminiServices.js:238-264 | there is a focus bucket iff some task is pending |
| GeminiService.FocusUnique | server/services/geminiServices.js:238-264 | at most one task, from one bucket, is the focus |
| GeminiService.PendingWith | server/services/geminiServices.js:228-231 | a task is in a priority group iff it is pending and has that priority |
| GeminiService.OverdueOf | server/services/geminiServices.js:228-232 | a task is in the overdue group iff it is pending and due before now |
| GeminiService.FocusMostUrgent | server/services/geminiServices.js:236-241 | the focus taken from the overdue bucket has the highest priority among overdue tasks |
| GeminiService.FocusEarliestDue | server/services/geminiServices.js:247-258 | the focus taken from a priority bucket has the earliest due date in that bucket |
| GeminiService.FocusMeaning | server/services/geminiServices.js:238-264 | the focus is a pending task. From the overdue bucket it is an overdue task of highest priority. Otherwise nothing is overdue, and the focus has the highest pending priority and the earliest due date within it |
| GeminiService.StableSortHead | server/services/geminiServices.js:239-243 | one scan finds where a stable sort by descending key puts its first element |
| GeminiService.PickFocus | server/services/geminiServices.js:238-264 | no focus line iff nothing is pending; otherwise the focus line names the focus task and its bucket |
| GeminiService.Closing | server/services/geminiServices.js:299-305 | "great job" iff the rate is at least 70, "good progress" iff 40 to 69, "getting started" iff below 40 with something completed, and nothing otherwise |
| GeminiService.BuildTips | server/services/geminiServices.js:267-282 | the tips section is exactly the header, then the pending, high-priority and overdue tips each under its own condition, then the two fixed tips (the sequence `TipsFor` of the three counts) |
| GeminiService.TipsShape | server/services/geminiServices.js:267-282 | the header comes first and the two fixed tips last; three to six lines |
| GeminiService.TipsMeaning | server/services/geminiServices.js:269-279 | the pending tip is present iff something is pending, the high-priority tip iff more than three high-priority tasks are pending, the overdue tip iff something is overdue |
| GeminiService.BuildProgress | server/services/geminiServices.js:285-305 | the progress section is exactly the header, the total, completed-with-rate and pending lines, the overdue line when something is overdue, a blank line and the closing line chosen by the rate (the sequence `ProgressFor` of the counts) |
| GeminiService.ProgressMeaning | server/services/geminiServices.js:285-305 | the first four lines are the header and the three counts; the overdue line is present iff something is overdue; the last line is the closing line if there is one, the blank line otherwise |
| GeminiService.When | server/services/geminiServices.js:271-281 | an optional line is present iff its condition holds, and nothing else is added |
| GeminiService.GetMockSuggestion | server/services/geminiServices.js:211-313 | the "no tasks" template for an empty list, otherwise exactly the focus, tips and progress sections built from the list's pending, high-priority, overdue and completed counts; always successful, from the mock, counting every task |
| GeminiService.GetProductivitySuggestion | server/services/geminiServices.js:86-103 | without model text, the mock report; otherwise the text, from the model, counting every task |
| AiController.UserTasksQuery | server/controllers/aiController.js:15 | selects exactly the requester's tasks, newest first |
| AiController.PendingTasksQuery | server/controllers/aiController.js:105 | selects exactly the requester's pending tasks, earliest due first |
| AiController.SingleTaskRoute | server/controllers/aiController.js:29-51 | 400 without a truthy task id, 500 when the lookup fails, 404 when the task is missing, 403 when it is someone else's, 500 when the service fails; 200 with the service's result iff every guard passes and the service resolves |
| AiController.ServiceNotConsultedOnFailure | server/controllers/aiController.js:29-51 | when a guard fails, the answer does not depend on the service |
| AiController.ImproveTask | server/controllers/aiController.js:29-51 | the shared route with the improve capability; an owned task gets the improve reply for the model's text |
| AiController.BreakdownTask | server/controllers/aiController.js:53-75 | the shared route with the breakdown capability; an owned task gets the breakdown reply for the model's text |
| AiController.DoItForMe | server/controllers/aiController.js:119-141 | the shared route with the do-it-for-me service and its 500 message |
| AiController.ParseBrainDump | server/controllers/aiController.js:78-95 | 400 "Text is required" for falsy or blank text; 500 when the text is not a string (its `trim` throws) or parsing fails; 200 with the parsed result iff the text is a non-blank string and parsing resolves |
| AiController.EnergySuggestions | server/controllers/aiController.js:98-116 | 400 for a falsy energy level; 200 with the suggestions for the requester's pending tasks iff the query and the service resolve; 500 otherwise |
| AiController.ReflectionInputOf | server/controllers/aiController.js:146 | the three fields read from the body are present iff the body carries them, with their values |
| AiController.DailyReflection | server/controllers/aiController.js:144-158 | no input check; 200 with the reflection on the requester's tasks iff the query and the service resolve; 500 otherwise |
| AiController.GetSuggestion | server/controllers/aiController.js:13-26 | 500 when the task query fails; otherwise 200 with the productivity suggestion for the requester's tasks, the mock report when there is no model text |
| TaskSlice.InitialFilters | client/src/features/tasks/taskSlice.js:12-17 | the four filter keys, all empty except `sortBy`, which is `createdAt` |
| TaskSlice.Merge | client/src/features/tasks/taskSlice.js:29 | the keys of both; the overriding value wins; the other keys keep the base value |
| TaskSlice.Cleaned | client/src/features/tasks/taskSlice.js:32-34 | a key is kept iff its value is not `''`, null or undefined, and kept values are unchanged |
| TaskSlice.CleanQuery | client/src/features/tasks/taskSlice.js:32-34 | the loop that deletes empty values leaves exactly the cleaned filters |
| TaskSlice.UrlFor | client/src/features/tasks/taskSlice.js:36-37 | the bare `/tasks` path iff no parameter remains; otherwise it carries the remaining parameters |
| TaskSlice.GetTasksRequest | client/src/features/tasks/taskSlice.js:22-39 | the request carries the stored filters overridden by the argument, minus the empty values |
| TaskSlice.ExtractTasks | client/src/features/tasks/taskSlice.js:42 | `tasks` when present, else `data`, else the empty list |
| TaskSlice.ReplaceById | client/src/features/tasks/taskSlice.js:181-183 | same length; every entry with the payload's id becomes the payload, and the others are kept in place |
| TaskSlice.RemoveById | client/src/features/tasks/taskSlice.js:187 | the remaining entries are exactly those with another id |
| TaskSlice.RemoveKeepsOrder | client/src/features/tasks/taskSlice.js:187 | deleting distributes over concatenation, so relative order is kept |
| TaskSlice.RemoveAbsent | client/src/features/tasks/taskSlice.js:187 | deleting an id that is not listed changes nothing |
| TaskSlice.CreateThenDelete | client/src/features/tasks/taskSlice.js:168-172 | deleting a task just created under a fresh id restores the list |
| TaskSlice.ReplaceIdempotent | client/src/features/tasks/taskSlice.js:181-183 | replacing twice with the same payload is replacing once |
| TaskSlice.ReplaceThenRemove | client/src/features/tasks/taskSlice.js:187 | deleting after an update removes the same entries as deleting alone |
| TaskSlice.TaskState.constructor | client/src/features/tasks/taskSlice.js:5-18 | no tasks, no current task, cleared flags, the initial filters |
| TaskSlice.TaskState.Reset | client/src/features/tasks/taskSlice.js:130-135 | only the flags and the message are reset |
| TaskSlice.TaskState.SetFilters | client/src/features/tasks/taskSlice.js:136-138 | the payload's keys override the stored filters; nothing else changes |
| TaskSlice.TaskState.ClearFilters | client/src/features/tasks/taskSlice.js:139-146 | the filters return to their initial value; nothing else changes |
| TaskSlice.TaskState.Pending | client/src/features/tasks/taskSlice.js:151-153 | only the loading flag is set |
| TaskSlice.TaskState.Rejected | client/src/features/tasks/taskSlice.js:159-163 | loading stops and the error and its message are recorded; the list is kept |
| TaskSlice.TaskState.GetTasksFulfilled | client/src/features/tasks/taskSlice.js:154-158 | the list becomes the payload, or empty without one |
| TaskSlice.TaskState.CreateFulfilled | client/src/features/tasks/taskSlice.js:168-172 | a returned task goes to the front of the list |
| TaskSlice.TaskState.ReplaceFulfilled | client/src/features/tasks/taskSlice.js:179-195 | a returned task replaces the entries with its id; no payload changes nothing |
| TaskSlice.TaskState.DeleteFulfilled | client/src/features/tasks/taskSlice.js:186-188 | the entries with the deleted id are dropped; nothing else changes |
| AiSlice.SlotOf | client/src/features/ai/aiSlice.js:130-224 | the suggestion slot is shared by exactly the suggestion, improve and breakdown requests |
| AiSlice.AiState.constructor | client/src/features/ai/aiSlice.js:4-14 | the initial state: every slot null, flags cleared |
| AiSlice.AiState.Pending | client/src/features/ai/aiSlice.js:130-132 | only the loading flag is set |
| AiSlice.AiState.Fulfilled | client/src/features/ai/aiSlice.js:133-137 | the request's slot takes the payload; the other slots are kept; loading stops and success is set |
| AiSlice.AiState.Rejected | client/src/features/ai/aiSlice.js:138-142 | loading stops and the error and its message are recorded; no slot changes |
| AiSlice.AiState.ClearSuggestion | client/src/features/ai/aiSlice.js:97-103 | the suggestion slot, the flags and the message are cleared; the other slots are kept |
| AiSlice.AiState.ClearSlot | client/src/features/ai/aiSlice.js:104-115 | the named slot becomes null; everything else is kept |
| AiSlice.AiState.ClearAll | client/src/features/ai/aiSlice.js:116-126 | back to the initial state |
| AiSlice.SlotsApart | client/src/features/ai/aiSlice.js:130-224 | two different requests write the same slot only when both are among the suggestion, improve and breakdown requests, which share the suggestion slot |
| AuthSlice.TokenOrNull | client/src/services/authSlice.js:10 | a stored token is kept iff it is not empty |
| AuthSlice.CheckAuth | client/src/services/authSlice.js:17-36 | `/auth/me` is called iff a truthy user and a token are stored. Its answer is the payload, null otherwise. Storage is cleared iff the stored user is unparsable or the call fails, and then the payload is null |
| AuthSlice.AuthState.constructor | client/src/services/authSlice.js:5-15 | the stored truthy user and non-empty token, flags cleared |
| AuthSlice.AuthState.Reset | client/src/services/authSlice.js:86-91 | the flags and message are reset; the session is kept |
| AuthSlice.AuthState.Pending | client/src/services/authSlice.js:96-98 | only the loading flag is set |
| AuthSlice.AuthState.CheckAuthFulfilled | client/src/services/authSlice.js:99-108 | a truthy user keeps the session with the stored token; otherwise the session ends |
| AuthSlice.AuthState.CheckAuthRejected | client/src/services/authSlice.js:109-113 | the session ends |
| AuthSlice.AuthState.SignedIn | client/src/services/authSlice.js:118-123 | the session becomes the reply's user and token, with success set |
| AuthSlice.AuthState.SignInRejected | client/src/services/authSlice.js:124-128 | the error is recorded; the session is kept |
| AuthSlice.AuthState.LogoutFulfilled | client/src/services/authSlice.js:145-150 | the session ends and the success and error flags are cleared |
| TaskPagination.Window | client/src/components/TaskPagination.jsx:23-27 | the consecutive pages from `lo` to `hi` |
| TaskPagination.WindowExtend | client/src/components/TaskPagination.jsx:23-27 | a run of consecutive pages grows by its next page |
| TaskPagination.PushAll | client/src/components/TaskPagination.jsx:9-12 | with at most five pages every page from 1 to the last is pushed, in order |
| TaskPagination.PushWindow | client/src/components/TaskPagination.jsx:20-27 | when every page pushed so far lies below the window, the `includes` check never fires and the window is appended in order |
| TaskPagination.PushLast | client/src/components/TaskPagination.jsx:33-35 | when every page pushed so far lies below the last page, the last page is appended |
| TaskPagination.GetPageNumbers | client/src/components/TaskPagination.jsx:6-39 | the pushing loop with its `includes` checks yields exactly the reference page list |
| TaskPagination.SmallStrip | client/src/components/TaskPagination.jsx:9-12 | with at most five pages, every page is shown and nothing else |
| TaskPagination.LongStripPages | client/src/components/TaskPagination.jsx:14-35 | a long strip shows exactly page 1, the last page and the pages next to the current one |
| TaskPagination.LongStripShape | client/src/components/TaskPagination.jsx:14-35 | a long strip starts at page 1 and ends at the last page. An ellipsis follows page 1 iff the current page is above 3, and precedes the last page iff the current page is below `total - 2` |
| TaskPagination.StripInvariants | client/src/components/TaskPagination.jsx:6-39 | the numbered entries strictly increase, so none repeats; the strip has at most seven entries; an in-range current page is shown |
| TaskPagination.PrevTarget | client/src/components/TaskPagination.jsx:51 | never below page 1; one page back when there is one |
| TaskPagination.NextTarget | client/src/components/TaskPagination.jsx:81 | never past the last page; one page on when there is one |
| TaskPagination.TargetsInRange | client/src/components/TaskPagination.jsx:51-82 | from a page in range both buttons lead to pages in range, and an enabled button moves by exactly one |
| Dashboard.DashboardStats | client/src/pages/Dashboard.jsx:13-23 | the total is the list's length; completed, pending and overdue are the counts of completed tasks, pending tasks and pending tasks due before now; completed plus pending is the total; overdue is at most pending; the rate is 0 to 100, 0 for no tasks, and the completed share rounded half up |
| Dashboard.OverdueAgreesWithMock | client/src/pages/Dashboard.jsx:17-19 | the dashboard's overdue count equals the mock report's overdue count |
| Dashboard.EmptyStateHint | client/src/pages/Dashboard.jsx:61-63 | "try clearing filters" iff a status, priority or search filter is truthy |
| Dashboard.HintIgnoresSort | client/src/pages/Dashboard.jsx:61-63 | the sort order does not affect the hint |
| Dashboard.ClearedFiltersHint | client/src/pages/Dashboard.jsx:61-63 | after the filters are cleared the hint invites creating a first task |
| TextFormat.DropStarPairs | client/src/components/EnergySuggestions.jsx:75 | removing `**` pairs never lengthens the text or adds characters |
| TextFormat.DropChar | client/src/components/EnergySuggestions.jsx:76 | exactly the other characters remain |
| TextFormat.DropStars | client/src/components/EnergySuggestions.jsx:75-76 | no `*` remains, and nothing is added |
| TextFormat.DropStarsRemovesEvery | client/src/components/EnergySuggestions.jsx:75-76 | the two star passes together equal removing every `*` |
| TextFormat.HashCount | client/src/components/EnergySuggestions.jsx:77 | the length of the `#` run at the start |
| TextFormat.StripHeadings | client/src/components/EnergySuggestions.jsx:77 | removing heading markers never adds characters, and text without `#` is unchanged |
| TextFormat.KeptOffLineStart | client/src/components/EnergySuggestions.jsx:77 | away from a line start a character is kept, and a line terminator starts a new line |
| TextFormat.HeadingMarkerRemoved | client/src/components/EnergySuggestions.jsx:77 | a line-start run of `#` and the white space after it are removed |
| TextFormat.OneMarkerPerLine | client/src/components/EnergySuggestions.jsx:77 | only one marker run goes per line start: after a run of hashes and a space, a further `#` and the rest of the line are kept |
| TextFormat.SplitLines | client/src/components/EnergySuggestions.jsx:80 | at least one line, none holds a line break, and joining them gives back the text |
| TextFormat.SplitJoin | client/src/components/EnergySuggestions.jsx:80 | splitting undoes joining lines that hold no line break |
| TextFormat.SplitWithoutBreak | client/src/components/EnergySuggestions.jsx:80 | text without a line break is one line |
| TextFormat.DigitCount | client/src/components/EnergySuggestions.jsx:95 | the length of the digit run at the start |
| TextFormat.MarkLength | client/src/components/EnergySuggestions.jsx:96 | the bullet-mark prefix (`-` or `•` and the white space after it) is non-empty iff the line starts with a mark, and it stops at a non-space character or the end of the line |
| TextFormat.NumberLength | client/src/components/EnergySuggestions.jsx:96 | a numbered item has a non-empty number prefix: at least one digit, then `.` or `)`, then white space up to a non-space character or the end of the line |
| TextFormat.ItemStart | client/src/components/EnergySuggestions.jsx:96 | for a marked or numbered item the text shown starts after at least one character and within the line |
| TextFormat.ClassifyItem | client/src/components/EnergySuggestions.jsx:95-108 | a bullet iff the line is a marked or numbered item, showing the line after its mark and number; otherwise the line as a paragraph |
| TextFormat.Classify | client/src/components/EnergySuggestions.jsx:83-109 | a spacer iff the line is empty; a heading, showing the whole line, only under a heading mark; a bullet iff the line has no heading mark and is a marked or numbered item, showing the line after its mark and number; otherwise the whole line as a paragraph |
| TextFormat.ClassifyLines | client/src/components/EnergySuggestions.jsx:80-110 | one block per line, in order, each the classification of its line |
| TextFormat.ClassifyLineMeaning | client/src/components/EnergySuggestions.jsx:81-109 | a spacer iff the line is blank; a block shows only characters of its line |
| TextFormat.TrimNoop | client/src/components/EnergySuggestions.jsx:81 | trimming text with no white space at either end changes nothing |
| TextFormat.Cleaned | client/src/components/EnergySuggestions.jsx:74-78 | the cleaned text has no `*` and no white space at either end |
| TextFormat.Format | client/src/components/EnergySuggestions.jsx:71-111 | nothing is rendered iff the text is empty |
| TextFormat.FormatHasNoStars | client/src/components/EnergySuggestions.jsx:71-111 | no rendered block shows a `*` |
| TextFormat.PlainLineIsParagraph | client/src/components/EnergySuggestions.jsx:71-111 | one line of plain prose renders as a single paragraph of its trimmed text |
| TextFormat.OneLineOneBlock | client/src/components/EnergySuggestions.jsx:71-111 | a text whose cleaned form has no line break renders as one block |
| TextFormat.CleanedWithoutMarkup | client/src/components/EnergySuggestions.jsx:74-78 | text without `*` or `#` is only trimmed |
| TextFormat.PlainTrimmedLine | client/src/components/EnergySuggestions.jsx:81-109 | a trimmed line with no mark is a paragraph |
| TextFormat.NoPairsWithoutStars | client/src/components/EnergySuggestions.jsx:75 | text without `*` is untouched by the pair pass |
| TextFormat.DropCharAbsent | client/src/components/EnergySuggestions.jsx:76 | removing an absent character changes nothing |
| TextFormat.SkipOneSpace | client/src/components/EnergySuggestions.jsx:81 | one leading space is trimmed off |
| TextFormat.ReflectionHeadingsMisread | client/src/components/DailyReflection.jsx:42 | as written, a line opening with one of the listed emoji is not a heading, while a Cyrillic letter is |
| TextFormat.ReflectionDotNotBullet | client/src/components/DailyReflection.jsx:50 | as written, a `•` item is not a bullet |
| TextFormat.ReflectionCyrillicBullet | client/src/components/DailyReflection.jsx:50 | as written, a line opening with certain Cyrillic letters is a bullet |
| TextFormat.IntendedReflectionMarksSound | client/src/components/DailyReflection.jsx:42-50 | the intended classes take the same bullets as the energy panel and no Cyrillic letter; their headings are among the energy panel's; an emoji heading and a `•` bullet are recognised |
| TextFormat.FormatValue | client/src/components/EnergySuggestions.jsx:71-72 | nothing for a falsy value; a type error for a truthy non-string; otherwise the formatted blocks of the string |
| EnergySuggestions.Body | client/src/components/EnergySuggestions.jsx:32 | `data` when it is truthy, else the whole reply |
| EnergySuggestions.StructuredData | client/src/components/EnergySuggestions.jsx:29-40 | structured data is found iff the reply is truthy and its body (the `data` when truthy, else the reply) is an object with a tip or a task list; it is then that body |
| EnergySuggestions.SuggestionText | client/src/components/EnergySuggestions.jsx:43-68 | no text for a falsy or structured reply; a string reply is its own text; an object reply's text is the first that `FirstText` finds in `suggestion`, `data.suggestion`, a string `data`, `message`, `data.message` |
| EnergySuggestions.FirstText | client/src/components/EnergySuggestions.jsx:53-67 | nothing iff no place offers text; otherwise the offer of the first place that has one |
| EnergySuggestions.FirstTextOfSources | client/src/components/EnergySuggestions.jsx:53-67 | the search through the five places is the source's if-chain: `suggestion`, then `data.suggestion`, then a string `data`, then `message`, then `data.message` |
| EnergySuggestions.Sections | client/src/components/EnergySuggestions.jsx:114-167 | the tip is shown iff truthy, as it stands; the recommended and avoid lists are each the `ListSection` of their field, the recommended one reading each entry's title |
| EnergySuggestions.ListSection | client/src/components/EnergySuggestions.jsx:127-167 | a list is not shown iff it is absent or its `length` is not positive; it is shown with exactly its entries iff it is a non-empty array (without null entries when they are read); any other value with a positive length throws a TypeError |
| EnergySuggestions.StringListThrows | client/src/components/EnergySuggestions.jsx:127-133 | a recommended list given as a non-empty string throws, since strings have a length but no `map` |
| EnergySuggestions.EnergyPanel | client/src/components/EnergySuggestions.jsx:172-244 | the picker iff there is nothing to show. Its buttons are disabled iff loading or there are no tasks, and the hint shows iff there are no tasks. The structured view iff structured data exists, and then it shows the `Sections` of that data. Otherwise the formatted `SuggestionText`, a type error for a non-string text |
| EnergySuggestions.ClearedShowsPicker | client/src/components/EnergySuggestions.jsx:23-26 | after clearing, the picker is shown |
| EnergySuggestions.StringReplyIsFormatted | client/src/components/EnergySuggestions.jsx:50 | a non-empty string reply is formatted as it stands |
| EnergySuggestions.StructureWinsOverText | client/src/components/EnergySuggestions.jsx:32-47 | structured fields under `data` win over any text |
| EnergySuggestions.SuggestionBeforeMessage | client/src/components/EnergySuggestions.jsx:53-62 | a reply's `suggestion` is shown in preference to its `message` |
| DailyReflection.ReflectionText | client/src/components/DailyReflection.jsx:68 | the top-level reflection when truthy, else the one under `data` |
| DailyReflection.RequestBody | client/src/components/DailyReflection.jsx:15-18 | the posted body holds exactly `accomplishments`, `blockers` and `rating` |
| DailyReflection.FormAnswersLost | client/src/components/DailyReflection.jsx:15-18 | of the three answers the server receives only the blockers |
| DailyReflection.IntendedRequestBody | client/src/components/DailyReflection.jsx:15-18 | the body under the names the server reads |
| DailyReflection.IntendedAnswersArrive | server/controllers/aiController.js:146 | under the server's names all three answers arrive |
| DailyReflection.Stars | client/src/components/DailyReflection.jsx:119-133 | five stars; star `i + 1` is filled iff it is at most the rating |
| DailyReflection.CountTrue | client/src/components/DailyReflection.jsx:119-133 | the number of filled stars is at most the number of stars |
| DailyReflection.FilledStarsMatchRating | client/src/components/DailyReflection.jsx:119-133 | a rating from 1 to 5 fills exactly that many stars |
| DailyReflection.Panel | client/src/components/DailyReflection.jsx:91-151 | the form iff there is no truthy reflection, its submit disabled iff loading or the accomplishments are blank; otherwise the formatted reflection text (`FormatValue` of `ReflectionText`), a type error for a non-string |
| DailyReflection.TopLevelReflectionShown | client/src/components/DailyReflection.jsx:68 | a non-empty top-level reflection is shown whatever `data` holds |
| DailyReflection.ReflectionForm.constructor | client/src/components/DailyReflection.jsx:9-13 | empty answers and a rating of 3 |
| DailyReflection.ReflectionForm.EditAccomplishments | client/src/components/DailyReflection.jsx:98 | only the accomplishments change |
| DailyReflection.ReflectionForm.EditBlockers | client/src/components/DailyReflection.jsx:110 | only the blockers change |
| DailyReflection.ReflectionForm.Rate | client/src/components/DailyReflection.jsx:123 | the rating becomes the clicked star, and that many stars are filled |
| DailyReflection.ReflectionForm.Submit | client/src/components/DailyReflection.jsx:15-18 | the form goes out unchanged, and the server finds no `completedToday` in it |
| DailyReflection.ReflectionForm.Clear | client/src/components/DailyReflection.jsx:20-23 | the stored reflection is cleared, the other slots kept, and the form reset; the loading, error and success flags and the message are unchanged |
| AiAdvisor.WhenTruthy | client/src/components/AIAdvisor.jsx:27-29 | a value is kept iff it is truthy |
| AiAdvisor.Row | client/src/components/AIAdvisor.jsx:26-29 | a row shows the subtask's title, and its estimate iff truthy |
| AiAdvisor.Rows | client/src/components/AIAdvisor.jsx:21 | one row per subtask, in order |
| AiAdvisor.RenderBody | client/src/components/AIAdvisor.jsx:12-88 | nothing iff there is no suggestion. When `data.subtasks` has a length: the breakdown with one row per subtask iff it is an array without null entries, the type error otherwise. Otherwise the improvement iff `improvedTitle` is truthy, with the title, description and truthy reason taken from `data`. Otherwise the truthy `suggestion` text, else the whole envelope as JSON |
| AiAdvisor.BreakdownBeforeImprovement | client/src/components/AIAdvisor.jsx:16-38 | non-empty subtasks win over an improved title |
| AiAdvisor.EmptySubtasksFallThrough | client/src/components/AIAdvisor.jsx:16-38 | an empty subtask list falls through to the improvement |
| AiAdvisor.ZeroEstimateHidden | client/src/components/AIAdvisor.jsx:27-29 | a zero-minute estimate is hidden like a missing one |
| BrainDump.FinalsConcat | client/src/components/BrainDump.jsx:43-48 | the final transcripts of two runs concatenate |
| BrainDump.InterimIgnored | client/src/components/BrainDump.jsx:45 | interim results contribute nothing |
| BrainDump.FinalsKeepEveryFinal | client/src/components/BrainDump.jsx:43-48 | the transcript around a final result is the finals before it, its own text, then the finals after it: every final result is kept whole and in place |
| BrainDump.FinalsAround | client/src/components/BrainDump.jsx:43-48 | the finals of a run split around one result are the finals before it, that result's piece and the finals after it |
| BrainDump.FinalTranscript | client/src/components/BrainDump.jsx:41-48 | the loop collects the final transcripts from the result index on, in order |
| BrainDump.AppendTranscript | client/src/components/BrainDump.jsx:50-54 | an empty final changes nothing. Otherwise the old text is a prefix and the final a suffix, joined by ", " when both are non-empty, and no other character is added |
| BrainDump.ParsedTasks | client/src/components/BrainDump.jsx:148 | the tasks are exactly the array under `data.tasks` when there is one; a non-empty task list is always that array |
| BrainDump.Or | client/src/components/BrainDump.jsx:106-108 | the value when truthy, the fallback otherwise |
| BrainDump.NewTaskRequest | client/src/components/BrainDump.jsx:103-109 | the title as given; the description, priority and due date with their fallbacks "", "Medium" and today |
| BrainDump.RequestMeetsServerDefaults | client/src/components/BrainDump.jsx:103-109 | the request always has a due date; a truthy title stays truthy; the server's create fields take "" and "Medium" for a missing description or priority |
| BrainDump.Requests | client/src/components/BrainDump.jsx:116-125 | at most one request per task considered |
| BrainDump.RequestsCount | client/src/components/BrainDump.jsx:116-125 | one request per index not yet added |
| BrainDump.DistinctCard | client/src/components/BrainDump.jsx:110 | distinct indices number as many as the list |
| BrainDump.Indices | client/src/components/BrainDump.jsx:126 | the indices below `n`, `n` of them |
| BrainDump.SubsetCard | client/src/components/BrainDump.jsx:249 | a subset is no larger, and equal in size only when equal |
| BrainDump.AllAddedIffCountsMatch | client/src/components/BrainDump.jsx:249 | the "Add All" count test holds iff every task has been added |
| BrainDump.AddAllRequestCount | client/src/components/BrainDump.jsx:114-128 | "Add All" sends one request per task not yet added |
| BrainDump.View | client/src/components/BrainDump.jsx:148-293 | the task list iff tasks were extracted. There, an item's button is disabled iff it was added, and "Add All" iff the counts match. Otherwise the input: parsing disabled iff loading or blank text, Clear shown iff there is text, the AI's text shown iff there is a suggestion but no data |
| BrainDump.BrainDumpPanel.constructor | client/src/components/BrainDump.jsx:11-12 | empty text and nothing added |
| BrainDump.BrainDumpPanel.Edit | client/src/components/BrainDump.jsx:11 | only the text changes |
| BrainDump.BrainDumpPanel.OnVoiceResult | client/src/components/BrainDump.jsx:40-57 | the event's final transcripts are appended to the text |
| BrainDump.BrainDumpPanel.Parse | client/src/components/BrainDump.jsx:95-101 | blank text is refused; otherwise the untrimmed text is sent |
| BrainDump.BrainDumpPanel.AddTask | client/src/components/BrainDump.jsx:103-112 | the request for that task is sent and its index recorded; the added list stays distinct and in range |
| BrainDump.BrainDumpPanel.AddAll | client/src/components/BrainDump.jsx:114-128 | a request for every task not yet added, in order; then every index is recorded |
| BrainDump.BrainDumpPanel.Clear | client/src/components/BrainDump.jsx:130-134 | the stored result is cleared, the other slots kept, the text emptied and the added list reset; the loading, error and success flags and the message are unchanged |
| TaskForm.EmptyForm | client/src/components/TaskForm.jsx:9-14 | empty fields with priority Medium |
| TaskForm.RequestBody | client/src/components/TaskForm.jsx:23 | the four fields as strings, without a status |
| TaskForm.AcceptedPassesServerCheck | client/src/components/TaskForm.jsx:21 | whatever the form accepts passes the server's 400 check and gets a non-empty stored title |
| TaskForm.BlankTitleRefused | client/src/components/TaskForm.jsx:21 | a title of spaces is refused by the form though the server's truthiness check would take it |
| TaskForm.TaskFormState.constructor | client/src/components/TaskForm.jsx:8-14 | the empty form, hidden |
| TaskForm.TaskFormState.Open | client/src/components/TaskForm.jsx:36 | the form is shown with its data unchanged |
| TaskForm.TaskFormState.Change | client/src/components/TaskForm.jsx:16 | only the named field changes |
| TaskForm.TaskFormState.Submit | client/src/components/TaskForm.jsx:18-26 | sent iff the title is not blank and a due date is set. When sent, the data goes unchanged and the form is reset and hidden. Otherwise nothing changes |
| TaskForm.TaskFormState.Cancel | client/src/components/TaskForm.jsx:28-31 | the form is reset and hidden |
| Register.Utf16Length | client/src/pages/Register.jsx:32 | between the code-point count and twice it |
| Register.BmpLength | client/src/pages/Register.jsx:32 | within the Basic Multilingual Plane the two lengths agree |
| Register.ThreeEmojiAreSixUnits | client/src/pages/Register.jsx:32 | three emoji pass the six-character minimum |
| Register.Validate | client/src/pages/Register.jsx:28-35 | the mismatch message iff the passwords differ; the length message iff they match but are under six units; no error iff they match and are long enough |
| Register.MismatchReportedFirst | client/src/pages/Register.jsx:28-35 | a mismatch is reported even when the password is also too short |
| Register.RegisterForm.constructor | client/src/pages/Register.jsx:8-9 | empty fields and no error |
| Register.RegisterForm.Change | client/src/pages/Register.jsx:20-23 | only the named field changes, and the error is cleared |
| Register.RegisterForm.Submit | client/src/pages/Register.jsx:25-39 | the details without the confirmation are sent iff validation passes; otherwise the validation message is shown; the fields are kept |

## Left out

- **Outside systems.** The Gemini SDK call, the network, MongoDB, Express, axios and `localStorage` are outside the model. Their results are parameters: `reply`, `find`, `lookup`, the service functions, the stored user and token. A JSON text's decoding is the parameter `decode`.
- **Prompt text and wording.** The prompt wording and the human-readable lines of the mock report are left out. The report's lines are a datatype of their own.
- **Services not modelled.** `parseBrainDumpWithAI`, `getEnergyBasedSuggestions`, `doTaskForMe` and `getDailyReflection` in geminiServices.js are not part of this model. The handlers take them as parameters.
- **Dates and time.** `new Date()`, `toISOString` and the locale are left out. `now` (milliseconds) and `today` (the date string) are parameters. Due dates are milliseconds, and Mongoose's date cast is the parameter `castDate`.
- **MongoDB queries.** The `$regex` matching is the parameter `regex`. The sort is named by a value and not carried out.
- **Update validation.** Of `runValidators` on update, only the title's required check after the trim setter is modelled. The enumeration and date casts are not: `UpdateTask` takes a typed patch. A CastError on a malformed id is a 404 in the model.
- **Non-string create fields.** A non-string title or enumeration in a create body is treated as absent instead of cast.
- **Floating-point rounding.** `GeminiService.BuildProgress` and `Dashboard.DashboardStats` round the completion rate exactly, half up. Float error in `(completed / total) * 100` (for example 29 of 200 giving 14) is not modelled.
- `TextFormat.StripHeadings`: a `#` run preceded by white space on a line is not a heading, as in the source. The proved contract says only that no character is added and that text without `#` is unchanged.
- `BrainDump.ParsedTasks`: a truthy `data.tasks` that is not an array is read as no tasks. In the source, `.length` or `.map` on it would misbehave or throw.
- `BrainDump.NewTaskRequest`: a task entry that is not an object gives absent fields. In the source, reading `title` of null throws.
- `EnergySuggestions.Sections`: an object whose `length` property is neither a number nor `true` (a numeric string, say) is read as having no positive length, though JavaScript's `>` would coerce it. `EnergySuggestions.LengthPositive` says so.
- `EnergySuggestions.Sections`: React's refusal to render an object as a child (an avoid entry, a title or a reason that is an object) is not modelled; such entries are listed.
- `AiAdvisor.RenderBody`: the only entries modelled as throwing are null ones. Reading a property of another primitive gives undefined, as modelled by `Field`.
- **Panels as written.** `DailyReflection.Panel` and `DailyReflection.ReflectionForm.Submit` keep the source as written: the garbled character classes and the mismatched field names. The corrected definitions are given beside them (see Findings).
- **React.** Rendering, toasts, timers, effects, routing and navigation are left out. That includes the redirect after registration and the toast on a failed extraction. The speech API's start, stop and error handlers are also left out; `onresult` is modelled.
- **Buttons that only dispatch.** The energy-level buttons only set the selected level and dispatch the request. Only the request's pending, fulfilled and rejected cases are modelled, in `AiSlice.AiState`.
- **HTML form attributes.** The form's `required`, `min` and `minLength` attributes are not modelled. Only the JavaScript checks are.
- **Missing reducers.** The pending and rejected cases of update, delete and toggle have no reducer in taskSlice.js. The model has none either.
- **Client toggle.** The toggle thunk's follow-up toast and its status checks are not modelled.

## Findings

| source | as written | input that shows it | evidently intended | confidence | as-written member | corrected member |
|---|---|---|---|---|---|---|
| client/src/components/DailyReflection.jsx:42,50 | the heading class and the bullet class hold the emoji list and `•` re-decoded as Cyrillic text (mojibake) | a reflection line "🎯 Focus" is a paragraph, not a heading; "• Walk" is not a bullet; "ў п" is a bullet | the emoji headings and the `-`/`•` bullets of the energy panel | high, not executed | TextFormat.ReflectionHeadingsMisread, TextFormat.ReflectionDotNotBullet, TextFormat.ReflectionCyrillicBullet | TextFormat.IntendedReflectionMarksSound |
| client/src/components/DailyReflection.jsx:15-18 | the form posts `accomplishments`, `blockers`, `rating`, while the server reads `completedToday`, `blockers`, `productivityRating` (server/controllers/aiController.js:146) | any submitted form: the server sees only the blockers | the body under the server's field names | high, not executed | DailyReflection.FormAnswersLost | DailyReflection.IntendedAnswersArrive |
