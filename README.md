# PERT dashboard client core, in Dafny

This project models the client-side logic of a PERT planning dashboard. The PERT analysis engine and the push socket run elsewhere; this is the code around them. There are eight units:

- **Comparison normaliser** (`ComparisonNormalizer`). `comparePert` turns a non-ok response into an error. Any parsed body becomes the canonical comparison result, and each missing field takes its default.
  - `??` defaults only absent values.
  - The percentage is guarded by `&&`, so a zero counts as absent there.
- **Socket lifecycle** (`SocketLifecycle`). `useWebSocket` holds three pieces of state: the connection flag, the current-socket ref and the reconnect-timer ref. They are driven by:
  - the open, close and error handlers;
  - the 5000 ms reconnect timer;
  - the effect's cleanup.

  The class `Hook` has one method per handler. Each method is proved against `Step`, a function on the abstract `HookState`, and the lemmas are stated over `Step` and `Run`. The browser's side is explicit: the status of every socket created, and the timers that have been scheduled but neither fired nor cleared.
- **Task list editing** (`TaskManager`): append, replace-by-id and delete-by-id; the ids handed to the add and edit forms; and the save and analysis buttons, with their empty-list guards and busy flags.
- **Task form** (`TaskForm`): the blank-id rejection (JavaScript `trim` white space), append-and-reset of the draft, and the dependency toggle.
- **Histogram** (`Histogram`): 30 equal-width bins between the smallest and the largest duration, labelled by their centres. Durations are counted in place in an array.
- **Critical tasks** (`ResultsPanel`): the zero-slack filter, and the per-row "Critical" badge it must agree with.
- **Comparison view** (`ComparisonView`):
  - the compare handler, with its empty-list guard and busy flag;
  - the difference and percentage difference, with JavaScript's division by zero made explicit;
  - the "+" prefixes and the interpretation sentence.
- **Real-time updates card** (`RealtimeUpdates`): the type-string classifier behind the icon and the badge, the message fallback, and the card's placeholder and "Clear All" logic.

`Common` and `PertTypes` hold the shared value types (`Option`, `Result`, thrown values, toasts, and the records of `src/app/config.ts`).

What the socket model shows about the code as written:

- Within one mount, at most one socket is alive and at most one reconnect timer is pending (`AtMostOneTimerPending`). So the unguarded overwrite of the timer ref never loses a pending timer.
- Cleanup does not end reconnection (`TeardownDoesNotStopReconnect`):
  1. The socket it closes still delivers its close event.
  2. That handler schedules a new timer.
  3. The timer opens a new socket after teardown.
- An open event does not clear the timer ref.

Nothing in the cleanup (`src/app/hooks/useWebSocket.ts:48-55`) stops the closing socket's own `onclose` (lines 23-31) from scheduling another reconnect, and nothing in `onopen` (lines 18-21) touches the timer ref.

`std_dev` (`src/app/config.ts:102-103`) defaults each operand of `p90 - p10/2` to 0 on its own, so a missing `p10` gives `std_dev = p90` (`StdDevWithoutP10`).

## Model

| member | source | states |
|---|---|---|
| Common.CaughtMessage | src/app/component/TaskManger.tsx:68-73 | a caught `Error` shows its own message; any other thrown value shows the handler's fallback text |
| ComparisonNormalizer.Normalize | src/app/config.ts:95-119 | the critical path is always empty and the comparison always present; mean and p50 are always equal; `std_dev` plus half the (defaulted) p10 is p90 |
| ComparisonNormalizer.ComparePert | src/app/config.ts:85-122 | a result comes back exactly when the response arrived with ok set, and it is `Normalize` of that response's body; a non-ok response throws `Error("Failed to compare PERT methods")`; a rejected fetch propagates what it threw |
| ComparisonNormalizer.CopiedFieldsDefaultToZero | src/app/config.ts:97-110 | project duration, mean, p90 and difference are the response's field when present and 0 when absent; a present 0 stays 0 |
| ComparisonNormalizer.StdDevWithoutP10 | src/app/config.ts:102-103 | with p10 missing, `std_dev` equals p90, because each operand is defaulted on its own |
| ComparisonNormalizer.PercentageDiffMeaning | src/app/config.ts:111-117 | the percentage is non-zero iff both the difference and the expected duration are truthy (present and not 0); then percentage × expected = difference × 100 |
| ComparisonNormalizer.EmptyBodyNormalizesToZeros | src/app/config.ts:95-119 | the empty body normalises to all zeros with an empty critical path and a present comparison |
| ComparisonNormalizer.WorkedExample | src/app/config.ts:95-119 | expected 10, mean 12, p90 18, p10 6 and difference 2 give std_dev 15, p50 12 and percentage 20 |
| SocketLifecycle.AfterConnect | src/app/hooks/useWebSocket.ts:12-43 | without a throw, a new connecting socket is appended and recorded; with one, the flag drops and the recorded socket stays; the timers are untouched either way |
| SocketLifecycle.Step | src/app/hooks/useWebSocket.ts:12-55 | the flag moves exactly as `FlagEffect` says (up on open, down on close, error or a failed `connect`); no event but a close adds a timer or moves the timer ref |
| SocketLifecycle.Init | src/app/hooks/useWebSocket.ts:7-10 | a fresh hook is disconnected, with no socket and no timer recorded |
| SocketLifecycle.ConnectRecordsNewSocket | src/app/hooks/useWebSocket.ts:12-43 | `connect` records a socket that did not exist before, leaving the flag and timers alone; when creation throws, the flag drops and the recorded socket is kept |
| SocketLifecycle.OpenRaisesFlag | src/app/hooks/useWebSocket.ts:18-21 | an open event raises the flag and touches neither the timer ref nor the pending timers |
| SocketLifecycle.ErrorLowersFlag | src/app/hooks/useWebSocket.ts:33-36 | an error event lowers the flag and schedules nothing |
| SocketLifecycle.CloseSchedulesOneTimer | src/app/hooks/useWebSocket.ts:23-31 | a close event lowers the flag and adds exactly one new 5000 ms timer, which the ref then names whatever it named before |
| SocketLifecycle.TimerFireReconnects | src/app/hooks/useWebSocket.ts:28-30 | a firing timer is consumed and, unless creation throws, the current-socket ref moves to a new connecting socket |
| SocketLifecycle.TeardownReleasesRecorded | src/app/hooks/useWebSocket.ts:48-55 | cleanup cancels the recorded timer and starts closing the recorded socket, leaving no timer pending |
| SocketLifecycle.StepKeepsInv | src/app/hooks/useWebSocket.ts:12-55 | every deliverable event preserves the invariant: only the recorded socket can be alive, only the recorded timer can be pending, never both at once |
| SocketLifecycle.RunKeepsInv | src/app/hooks/useWebSocket.ts:12-55 | every run of deliverable events from a fresh hook keeps the invariant |
| SocketLifecycle.InvBoundsResources | src/app/hooks/useWebSocket.ts:9-10 | under the invariant at most one socket is alive and at most one timer is pending, and a pending timer means no live socket |
| SocketLifecycle.AtMostOneTimerPending | src/app/hooks/useWebSocket.ts:23-31 | during one mount, for any order of events, at most one reconnect timer is pending and at most one socket is alive |
| SocketLifecycle.FlagFollowsLastEvent | src/app/hooks/useWebSocket.ts:18-42 | after any events the flag is the effect of the most recent event that moves it, or its initial value if none does |
| SocketLifecycle.ConnectedOnlyAfterOpen | src/app/hooks/useWebSocket.ts:7-42 | from a fresh hook, the flag is up iff the most recent flag-moving event was an open |
| SocketLifecycle.TeardownDoesNotStopReconnect | src/app/hooks/useWebSocket.ts:23-55 | after cleanup, the closed socket's own close event schedules a timer, and that timer opens a new socket |
| SocketLifecycle.Hook.constructor | src/app/hooks/useWebSocket.ts:7-10 | the first render's state is `Init` |
| SocketLifecycle.Hook.Connect | src/app/hooks/useWebSocket.ts:12-43 | the new state is `AfterConnect` of the old |
| SocketLifecycle.Hook.Mount | src/app/hooks/useWebSocket.ts:45-46 | the effect connects once on a fresh hook and establishes the invariant |
| SocketLifecycle.Hook.OnOpen | src/app/hooks/useWebSocket.ts:18-21 | the new state is `Step` on an open event, and the invariant is kept |
| SocketLifecycle.Hook.OnClose | src/app/hooks/useWebSocket.ts:23-31 | the new state is `Step` on a close event, and the invariant is kept |
| SocketLifecycle.Hook.OnError | src/app/hooks/useWebSocket.ts:33-36 | the new state is `Step` on an error event, and the invariant is kept |
| SocketLifecycle.Hook.OnTimer | src/app/hooks/useWebSocket.ts:28-30 | the new state is `Step` on a timer firing, and the invariant is kept |
| SocketLifecycle.Hook.Cleanup | src/app/hooks/useWebSocket.ts:48-55 | the new state is `Step` on teardown, and the invariant is kept |
| TaskManager.Ids | src/app/component/TaskManger.tsx:158 | one id per task, in list order |
| TaskManager.AddTask | src/app/component/TaskManger.tsx:40 | the old list is kept as a prefix, with the new task appended once |
| TaskManager.UpdateTask | src/app/component/TaskManger.tsx:46-48 | same length; every task with the updated id is replaced, every other task is unchanged and in place |
| TaskManager.DeleteTask | src/app/component/TaskManger.tsx:54 | a task is kept iff it was there and has a different id |
| TaskManager.IdsForAddForm | src/app/component/TaskManger.tsx:158 | one id per task, in list order; an id is offered iff some task has it |
| TaskManager.IdsForEditForm | src/app/component/TaskManger.tsx:167-169 | an id is offered iff some task has it and it is not the edited task's id |
| TaskManager.DeleteDistributes | src/app/component/TaskManger.tsx:54 | deleting from a concatenation deletes from each part, so the kept tasks keep their order |
| TaskManager.DeleteAbsentIsIdentity | src/app/component/TaskManger.tsx:54 | deleting an id that no task has leaves the list unchanged |
| TaskManager.DeleteRemovesId | src/app/component/TaskManger.tsx:54 | no task with the id is left, and deleting twice is deleting once |
| TaskManager.DeleteUndoesAdd | src/app/component/TaskManger.tsx:39-56 | adding a task with a new id and then deleting that id restores the list |
| TaskManager.UpdateKeepsIds | src/app/component/TaskManger.tsx:46-48 | replacing never changes the list's ids |
| TaskManager.UpdateIdempotent | src/app/component/TaskManger.tsx:46-48 | replacing twice with the same task is replacing once |
| TaskManager.DeleteAfterUpdate | src/app/component/TaskManger.tsx:45-56 | once the id is deleted, a replacement under that id is invisible |
| TaskManager.Panel.constructor | src/app/component/TaskManger.tsx:29-37 | the panel starts with the parent's list, no open form, no busy flag |
| TaskManager.Panel.FormIds | src/app/component/TaskManger.tsx:154-171 | each form gets ids only while it is open: the add form gets `IdsForAddForm` of the list, the edit form `IdsForEditForm` of the list and the edited task, which never contains that task's own id |
| TaskManager.Panel.OpenAddForm | src/app/component/TaskManger.tsx:113 | "Add New Task" opens the add form |
| TaskManager.Panel.CancelAdd | src/app/component/TaskManger.tsx:157 | cancel closes the add form |
| TaskManager.Panel.StartEditing | src/app/component/TaskManger.tsx:177 | the list's edit button opens the edit form on that task |
| TaskManager.Panel.CancelEdit | src/app/component/TaskManger.tsx:166 | cancel closes the edit form |
| TaskManager.Panel.HandleAddTask | src/app/component/TaskManger.tsx:39-43 | the list becomes `AddTask` of the old, the add form closes, one success toast names the task |
| TaskManager.Panel.HandleUpdateTask | src/app/component/TaskManger.tsx:45-51 | the list becomes `UpdateTask` of the old, the edit form closes, one success toast names the task |
| TaskManager.Panel.HandleDeleteTask | src/app/component/TaskManger.tsx:53-56 | the list becomes `DeleteTask` of the old, and one error-styled toast names the id |
| TaskManager.Panel.BeginSave | src/app/component/TaskManger.tsx:58-64 | an empty list gives an error toast and no request, and the flag is left as it was; otherwise the panel is busy and the list is sent |
| TaskManager.Panel.FinishSave | src/app/component/TaskManger.tsx:65-76 | the flag is cleared on success and on failure; the toast confirms or shows the caught message |
| TaskManager.Panel.BeginRun | src/app/component/TaskManger.tsx:79-85 | an empty list gives an error toast and no request; otherwise the panel is busy and the list is sent |
| TaskManager.Panel.FinishRun | src/app/component/TaskManger.tsx:86-98 | the flag is cleared either way; a result reaches `onPertResult`, and a failure leaves the previous result and shows the caught message |
| TaskForm.TrimStart | src/app/components/TaskForm.tsx:30 | a suffix of the input that starts with a visible character; everything dropped is white space |
| TaskForm.TrimEnd | src/app/components/TaskForm.tsx:30 | a prefix of the input that ends with a visible character; everything dropped is white space |
| TaskForm.TrimEmptyIffBlank | src/app/components/TaskForm.tsx:30 | `trim` gives the empty string iff every character is JavaScript white space |
| TaskForm.Trim | src/app/components/TaskForm.tsx:30 | a contiguous slice of the input, starting where `TrimStart` stops, that is empty or starts and ends with a visible character; everything before and after the slice is white space |
| TaskForm.RemoveAll | src/app/components/TaskForm.tsx:66 | an entry is kept iff it was there and differs from the removed one |
| TaskForm.Toggle | src/app/components/TaskForm.tsx:62-69 | an absent dependency is appended at the end; a present one is removed everywhere by `RemoveAll`, the other entries keeping their order; so the toggled dependency is in the result iff it was not in the input |
| TaskForm.RemoveAllDistributes | src/app/components/TaskForm.tsx:66 | removing from a concatenation removes from each part, so the other entries keep their order |
| TaskForm.RemoveAbsentIsIdentity | src/app/components/TaskForm.tsx:66 | removing an absent dependency changes nothing |
| TaskForm.ToggleTwiceRestoresAbsent | src/app/components/TaskForm.tsx:65-67 | toggling an absent dependency twice gives back the original list |
| TaskForm.ToggleTwiceMovesPresentToEnd | src/app/components/TaskForm.tsx:65-67 | toggling a present dependency twice removes all its copies and appends one at the end |
| TaskForm.Form.constructor | src/app/components/TaskForm.tsx:20-27 | the form starts with no tasks and the empty draft |
| TaskForm.Form.EditId | src/app/components/TaskForm.tsx:80 | only the draft's id changes |
| TaskForm.Form.EditEstimate | src/app/components/TaskForm.tsx:87-107 | only the edited estimate of the draft changes |
| TaskForm.Form.HandleAddTask | src/app/components/TaskForm.tsx:29-41 | adds iff the id is not blank. A blank id gives one alert and no other change. Otherwise a copy of the draft is appended, the new list is published once, and the draft is reset |
| TaskForm.Form.ToggleDependency | src/app/components/TaskForm.tsx:62-69 | only the draft's dependencies change, to their `Toggle` |
| Histogram.Min | src/app/component/MonteCarloCharts.tsx:30 | an element of the durations that is at most every duration |
| Histogram.Max | src/app/component/MonteCarloCharts.tsx:31 | an element of the durations that is at least every duration |
| Histogram.BinIndex | src/app/component/MonteCarloCharts.tsx:41-44 | bin j starts at or before the duration (`min + j*binSize <= d`) and, unless the duration was clamped into bin 29, bin j+1 starts after it; the index is at most 29, and at least 0 for a duration not below the minimum |
| Histogram.EmptyBins | src/app/component/MonteCarloCharts.tsx:35-38 | exactly 30 bins |
| Histogram.BinsAfter | src/app/component/MonteCarloCharts.tsx:40-46 | counting keeps exactly 30 bins |
| Histogram.BuildHistogram | src/app/component/MonteCarloCharts.tsx:29-49 | the in-place counting loop over the array yields `HistogramOf` the durations |
| Histogram.HistogramOf | src/app/component/MonteCarloCharts.tsx:29-49 | NaN labels iff there are no durations; a throw iff the minimum equals the maximum; otherwise the bins after counting every duration |
| Histogram.LabelsAreCentres | src/app/component/MonteCarloCharts.tsx:35-46 | bin i stays labelled `min + i*binSize + binSize/2` however many durations are counted |
| Histogram.FrequencyIsCount | src/app/component/MonteCarloCharts.tsx:40-46 | bin b's frequency is the number of durations whose index is b |
| Histogram.TotalOfIncrement | src/app/component/MonteCarloCharts.tsx:45 | one increment raises the sum of the frequencies by exactly one |
| Histogram.CountsAreConserved | src/app/component/MonteCarloCharts.tsx:40-46 | the frequencies add up to the number of durations |
| Histogram.ExtremesLandInEndBins | src/app/component/MonteCarloCharts.tsx:41-44 | when max > min, the minimum's index is 0 and the maximum's is 29, thanks to the clamp |
| Histogram.CountedWhenPresent | src/app/component/MonteCarloCharts.tsx:40-46 | every duration is counted in its own bin |
| Histogram.ZeroWidthIffAllEqual | src/app/component/MonteCarloCharts.tsx:30-33 | the bin width is 0 iff every duration is equal |
| Histogram.HistogramShape | src/app/component/MonteCarloCharts.tsx:29-49 | no durations give NaN labels; all-equal durations throw. Otherwise there are 30 bins labelled by their centres, their frequencies add up to the count of durations, and the first and last bins are both occupied |
| ResultsPanel.CriticalTasks | src/app/component/ResultsPanel.tsx:48 | a timing is kept iff it is in the input and its slack is 0 |
| ResultsPanel.Rows | src/app/component/ResultsPanel.tsx:152-166 | one row per timing, in input order, flagged iff its slack is 0 |
| ResultsPanel.Render | src/app/component/ResultsPanel.tsx:28-48 | the empty state is shown iff there is no result; otherwise the critical tasks are `CriticalTasks` of the timings, the rows are `Rows` of the timings, and the count is the number of critical tasks |
| ResultsPanel.CriticalTasksDistribute | src/app/component/ResultsPanel.tsx:48 | filtering a concatenation filters each part, so critical tasks keep their order |
| ResultsPanel.AllCriticalKept | src/app/component/ResultsPanel.tsx:48 | when every slack is 0, the filter keeps every timing, in order |
| ResultsPanel.CountMatchesFlags | src/app/component/ResultsPanel.tsx:48-166 | the displayed critical count equals the number of rows with the "Yes" badge |
| ResultsPanel.FlagAgreesWithFilter | src/app/component/ResultsPanel.tsx:48-166 | a row is flagged iff its timing is among the critical tasks |
| ComparisonView.Divide | src/app/component/ComparisonView.tsx:103 | a non-zero divisor gives the exact quotient; a zero divisor gives +Infinity, -Infinity or NaN according to the dividend's sign |
| ComparisonView.Difference | src/app/component/ComparisonView.tsx:101-102 | the classical duration plus the difference is the Monte Carlo mean |
| ComparisonView.Times100 | src/app/component/ComparisonView.tsx:103 | finite values are scaled by 100; infinities and NaN pass through; the sign is kept |
| ComparisonView.IsPositive | src/app/component/ComparisonView.tsx:277 | `> 0` on a JavaScript number: the comparison for finite values, true for +Infinity, false for -Infinity and NaN |
| ComparisonView.PercentageDiff | src/app/component/ComparisonView.tsx:101-103 | the percentage is finite iff the classical duration is not 0; then percentage × duration = difference × 100 |
| ComparisonView.SignPrefix | src/app/component/ComparisonView.tsx:262-277 | "+" iff the JavaScript number is positive (`IsPositive`), otherwise nothing |
| ComparisonView.Interpret | src/app/component/ComparisonView.tsx:301-316 | "longer" iff the difference is positive, otherwise "earlier"; the magnitude shown is never negative |
| ComparisonView.Summarize | src/app/component/ComparisonView.tsx:61-103 | the prompt is shown iff there is no result. Otherwise the classical duration plus the shown difference is the mean, the percentage is `PercentageDiff`, each "+" is shown iff its value is positive, and the interpretation is `Interpret` of the difference |
| ComparisonView.InterpretationRecoversDifference | src/app/component/ComparisonView.tsx:301-316 | the chosen word and the magnitude give back the signed difference, so the magnitude is the absolute difference |
| ComparisonView.PrefixesAgree | src/app/component/ComparisonView.tsx:262-277 | with a non-negative classical duration, the two "+" prefixes agree, even when the percentage is an infinity or NaN |
| ComparisonView.PrefixesDisagreeBelowZero | src/app/component/ComparisonView.tsx:262-277 | with a negative classical duration and a non-zero difference, the prefixes disagree |
| ComparisonView.View.constructor | src/app/component/ComparisonView.tsx:35 | the view starts idle, with no toast and nothing delivered |
| ComparisonView.View.ButtonEnabled | src/app/component/ComparisonView.tsx:78-116 | the button is enabled iff no comparison is running and either a result is shown or there are tasks |
| ComparisonView.View.BeginCompare | src/app/component/ComparisonView.tsx:37-43 | an empty list gives an error toast and no request; otherwise the view is busy and the list is sent |
| ComparisonView.View.FinishCompare | src/app/component/ComparisonView.tsx:44-58 | the flag is cleared either way; a `ComparePert` success is delivered with a confirmation, and a failure shows the caught message and delivers nothing |
| RealtimeUpdates.Classify | src/app/component/RealTimeUpdate.tsx:36-64 | a type string is informational iff it is none of the four recognised ones |
| RealtimeUpdates.UpdateIcon | src/app/component/RealTimeUpdate.tsx:36-49 | the icon stands for the kind `Classify` gives |
| RealtimeUpdates.UpdateBadge | src/app/component/RealTimeUpdate.tsx:51-64 | the badge is the variant and caption of its kind: Default "Complete", Secondary "Updated", Destructive "Error", Outline "Progress", and Outline "Info" for anything else; its caption stands for the kind `Classify` gives |
| RealtimeUpdates.IconAndBadgeAgree | src/app/component/RealTimeUpdate.tsx:36-64 | for every type string, the icon and the badge show the same kind |
| RealtimeUpdates.MessageText | src/app/component/RealTimeUpdate.tsx:125 | never empty: the message when it has text, "Update received" when it is absent or empty |
| RealtimeUpdates.RenderEntry | src/app/component/RealTimeUpdate.tsx:112-141 | the icon and badge are those of the update's type string and show its kind; the text is `MessageText` of the message, never empty; timestamp, details and data are shown iff truthy |
| RealtimeUpdates.Render | src/app/component/RealTimeUpdate.tsx:71-151 | the disconnected notice is shown iff disconnected. "Clear All" is shown iff there are updates, and the placeholder iff it is not. The placeholder text depends on the connection. Entries follow the updates one for one, in order |

## Left out

- Network I/O: the `fetch` calls of `setTasks`, `runPertAnalysis`, `updateTask` and `comparePert` are parameters. A request is a value handed out, and its outcome is a value handed back.
- TaskForm's `handleSubmitAll` (src/app/components/TaskForm.tsx:43-60) is a fetch followed by an alert. It holds no logic beyond the I/O.
- The socket's `onmessage`, `lastMessage` and `JSON.parse`: message payloads are not modelled. The `onopen`, `onerror` and `onclose` handlers that `createWebSocket` installs are overwritten by the hook, and they only log; its `onmessage`, which parses JSON and hands the payload to the hook, is left out with the message payloads.
- React's development double mount: the model's effect runs once per hook, on a fresh hook.
- `console` logging, the real passage of time (the 5000 ms delay is a constant), and event-loop interleavings below one handler.
- IEEE-754 rounding and signed zero: numbers are exact reals. Division by zero in the comparison view is modelled explicitly, as infinities and NaN. In the histogram, the NaN cases are modelled as outcomes (`NaNLabelled`, `ZeroWidthThrows`) rather than as values.
- A response body whose fields are not numbers, or that is not an object, is not modelled. The normaliser's input is a record of optional numbers.
- Rendering: markup, icons' colours, `toFixed`, `toLocaleTimeString`, the chart projections, and the buttons' disabled states in the task panel.
- The `UpdateMessage` type is imported from `src/app/page.tsx`, which does not define it. The model uses the five fields the card reads.
- RealtimeUpdates.RenderEntry: `details` and `data` are kept as their serialised text. Their truthiness is modelled as present and non-empty, which does not distinguish `0`, `false` or `null` payloads.
- The capped update feed and the message-envelope normaliser are not part of this model. They do not appear in the source.
- Commented-out code in `src/app/component/ResultsPanel.tsx`, the duplicate fetching `ResultsPanel` and `ComparisonPanel` under `src/app/components/`, and the pure presentation files.
