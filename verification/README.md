# golife core, modelled in Dafny

golife is a Go process-lifecycle manager with a small browser dashboard. This
project models the sequential logic at its core and proves properties of it.
Locks, goroutines, channels and OS processes are abstracted away. The model covers:

- the dashboard renderer of `web/app.js`;
- the lifecycle manager of `internal/lifecycle.go` and `internal/utils.go`.
  This is its registries of processes, stages, events and channels, the base
  stage graph init → execute → end → init, and the `SetCurrentStage` /
  `StartLifecycle` transition rules;
- the three stage types of `internal/routines/taskz/stage/stage.go`,
  `internal/stage.go` and `internal/components/types/stage_managed.go`;
- both IPC line protocols (`internal/ipc.go`, `ipc.go`), over a finite list of input lines;
- the type-check summary scoring of `components/types/result.go`;
- the priority-keyed event tables of `components/types/layer.go` and
  `internal/layers/layer_access.go`, and the validator sets of `components/types/valitators.go`;
- the worker slot arrays of `internal/routines/workers/workerpool.go`,
  `components/workers/pool.go` and `internal/routines/workers/manager.go`;
- actions, jobs and the serial Taskz pipeline (`internal/routines/taskz/...`);
- the keyed registries:
  - the component managers and component lifecycle;
  - `gWebLifeCycle`;
  - property metadata and listeners, in both property packages;
  - channel sub-channel maps;
  - the process input;
  - email extra fields;
  - both process-config variants;
  - the worker-limit validator and the pid file name.

## How Go is rendered

Go `error` results become `Outcome` (`Pass` or `Fail(msg)`) or
`Result<T>` (`Ok` or `Err(msg)`). Error messages are kept verbatim wherever
they are constant strings. A Go `panic` (a failed type assertion, a nil map
write, a nil dereference) becomes `Run<T>`, which is `Returns(value)` or
`Panics(reason)`. Methods that mutate their receiver become functions that
return the updated record.

Go's map iteration order is never fixed. Where a result depends on it, the
order is an extra `seq` parameter, required to enumerate exactly the
map's keys (`Seqs.IsOrderOf`, `Checks.Ranges`). Every property is then
stated for all such orders.

Go function values cannot be compared. Handlers, hooks, validators and
process actions are therefore modelled by an identity. What a call
returns comes in as a parameter (`eval`, `step`, `stop`, `par`).

The two process-config files, `internal/components/types/process_config.go`
and `components/process_input/process_config.go`, have the same
logic. One module, `ProcessConfig`, models both.

Where the code does something its authors evidently did not intend, the
model has two versions. The `...AsWritten` member follows the code, with a
lemma that shows the consequence. The corrected member is the one the rest
of the model uses. See "## Findings".

## Model

| member | source | states |
|---|---|---|
| Dashboard.Rows | web/app.js:22-26 | an updater appends exactly one row per item, in item order, the i-th row being the region's row for the i-th item |
| Dashboard.Update | web/app.js:20-63 | an updater clears its region; a missing or non-array argument then throws with the region empty; otherwise the region gets one row per element up to the first `null`, where the callback throws; it throws iff the argument is not an array or holds `null`; no other region changes |
| Dashboard.OnMessage | web/app.js:10-18 | a payload that `JSON.parse` rejects throws before any region is touched |
| Dashboard.UpdateFromSpec | web/app.js:10-63 | running the updaters in the fixed order stages, workers, queues, metrics, notifications: every region up to the first updater that throws shows the rows of its elements before any `null` (none when not an array), later regions keep their rows, and the run throws iff some collection is missing, not an array, or holds `null` |
| Dashboard.OnMessageSpec | web/app.js:10-18 | every region after the handler equals the independent reference `Expected`, and the handler throws iff some collection is missing, not an array, or holds `null` |
| Dashboard.CompleteMessageRendersRows | web/app.js:20-63 | with every collection an array without `null`, each region holds one row per element in element order, with the exact text "Stage: {name}, Status: {status}", "Worker: …", "Queue: {name}, Length: {length}", "Metric: {name}, Value: {value}" in `li`, and "Notification: {message}" in `div` |
| Dashboard.CompleteMessageReplacesAll | web/app.js:20-63 | after a complete message the regions do not depend on what they showed before |
| Dashboard.ThrowsIff | web/app.js:11-22 | the handler throws exactly when the payload is malformed or some collection is missing, not an array, or holds a `null` element |
| Dashboard.EmptyCollectionEmptiesRegion | web/app.js:20-27 | an empty array empties its region once the updater runs, and otherwise the region keeps its rows |
| Dashboard.NullElementStopsRegion | web/app.js:20-27 | when the earlier regions render, a `null` at position k of a region's array makes the handler throw with exactly the rows of the k elements before it in that region, and later regions unchanged |
| Dashboard.HandleTwiceSameAsOnce | web/app.js:10-63 | handling the same message twice gives the same regions and the same throw as handling it once |
| Ipc.ParseAll | internal/ipc.go:93-96 | each line is whitespace-trimmed and classified independently, one command per line |
| Ipc.Parse | internal/ipc.go:93-97 | a line selects START, STOP, RESTART or STATUS exactly when its white-space-trimmed text equals that keyword; every other line is the default case |
| Ipc.ParseKeyword | internal/ipc.go:93-124 | a keyword sent alone on a newline-terminated line selects that command |
| Ipc.Reply | internal/ipc.go:96-135 | no reply is written exactly when a Start/Stop/Restart call returns an error; otherwise the reply line answers the same command, and a status reply carries the text Status() returned |
| Ipc.Session | internal/ipc.go:78-88 | a first line that does not trim to the token gets exactly the denial reply and nothing else |
| Ipc.CommandsInOrder | internal/ipc.go:92-136 | when no action and no `conn.Write` fails, every command gets its reply, in input order, one per line |
| Ipc.CommandsStopAtFailure | internal/ipc.go:96-135 | at the first command after which the loop returns, the earlier commands are all answered; a failing Start/Stop/Restart gets no reply, and a failed write is the last reply handed over |
| Ipc.LoopAnswersAll | internal/ipc.go:92-136 | over lines classified by any parser, the loop answers every line in order when no Start/Stop/Restart and no write fails |
| Ipc.LoopStopsAtFailure | internal/ipc.go:96-135 | over lines classified by any parser, the loop answers the lines before the first failing action or write; the failing action gets no reply, the failed write is the last one |
| Ipc.AuthenticatedSessionAnswersAll | internal/ipc.go:78-136 | after the right token, every command line is answered in order when the actions and writes succeed: START, STOP, RESTART, STATUS ("Status: " + status) and anything else ("Comando desconhecido") |
| Ipc.AuthenticatedSessionStopsAtFailure | internal/ipc.go:98-135 | after the right token, replies stop just before the first line whose action returns an error, or just after the first reply whose write fails |
| Ipc.LoopAfterFirstStops | internal/ipc.go:92-135 | over the lines after the token, classified by any parser, the loop stops at the first failing action (no reply) or failed write (its reply last), every earlier line answered |
| Ipc.PaddingIgnored | internal/ipc.go:93-96 | white space around a command does not change its dispatch |
| Ipc.TestValidTokenStatus | internal/ipc_test.go:35-45 | the valid-token case: STATUS after the token gets one status line (the test's intent over its finite input) |
| Ipc.TestInvalidToken | internal/ipc_test.go:47-57 | the invalid-token case: the only reply is the denial (the test's intent over its finite input) |
| Ipc.TestUnknownCommand | internal/ipc_test.go:59-69 | the unknown-command case: the reply is "Comando desconhecido" (the test's intent over its finite input) |
| Ipc.TestStartCommand | internal/ipc_test.go:71-81 | the START case: START is answered "Processos iniciados" when Start succeeds and gets no reply when it fails (the test's intent over its finite input) |
| Ipc.RootSession | ipc.go:31-50 | the tokenless handler answers every line, in order, whatever the actions return, with status "Running" |
| Ipc.RootReply | ipc.go:35-50 | the tokenless handler always answers, with the line the authenticated handler writes when the action succeeds and Status() is "Running" |
| Ipc.RootMatchesAuthenticated | ipc.go:29-52 | the tokenless handler replies as the authenticated one does after the right token when every action and write succeeds and Status() is "Running" |
| Ipc.LoopAtRoot | ipc.go:35-50 | with every action and write succeeding and status "Running", the authenticated loop answers each line as the tokenless handler does |
| Ipc.RootIgnoresWriteFailure | ipc.go:35-50 | the tokenless handler ignores write errors while internal/ipc.go returns on them: a write failing at line k cuts the authenticated session to the first k + 1 tokenless replies, strictly fewer when more lines follow |
| Ipc.LoopCutAtRoot | internal/ipc.go:96-135 | over lines classified by any parser, with actions succeeding and status "Running", a write failing at line k leaves exactly k + 1 replies, each the tokenless one |
| Lifecycle.GetProcess | internal/lifecycle.go:209-218 | the lookup succeeds exactly for a registered name and returns that process |
| Lifecycle.AddProcess | internal/lifecycle.go:219-229 | an existing name is refused with "process '{name}' already exists" and nothing changes; otherwise exactly that name is added; no other registry changes |
| Lifecycle.RemoveProcess | internal/lifecycle.go:248-262 | a missing name is refused with nothing changed; otherwise only that key is deleted |
| Lifecycle.GetStage | internal/lifecycle.go:263-280 | the lookup succeeds exactly for a registered name |
| Lifecycle.AddStage | internal/lifecycle.go:281-305 | a nil stage or an empty name is refused; a registered name is kept as stored and the call still succeeds; otherwise the stage is added |
| Lifecycle.RemoveStage | internal/lifecycle.go:376-391 | a missing name is refused with nothing changed; otherwise only that key is deleted |
| Lifecycle.SetCurrentStage | internal/lifecycle.go:327-375 | the current stage's own name returns it unchanged; a name outside its PossibleNext is refused before existence is checked; an unregistered name is refused; success makes the named stage current; a refusal changes nothing and only the current stage ever changes |
| Lifecycle.StartLifecycle | internal/lifecycle.go:537-570 | no stages gives "no stages available to start lifecycle" with nothing changed; a refused "init" gives the wrapped init error with nothing changed; a refused "execute" gives the wrapped execute error and leaves "init" current; success means both moves succeeded, and only the current stage changes |
| Lifecycle.GetEvent | internal/lifecycle.go:392-401 | the lookup succeeds exactly for a registered name |
| Lifecycle.AddEvent | internal/lifecycle.go:402-412 | a duplicate is refused with the map unchanged; otherwise the event is added |
| Lifecycle.RemoveEvent | internal/lifecycle.go:413-423 | an unknown name is refused with the map unchanged; otherwise only that key is deleted |
| Lifecycle.TriggerEvent | internal/lifecycle.go:424-437 | errors exactly for an unknown name; the registry is untouched |
| Lifecycle.GetChannelAsWritten | internal/lifecycle.go:438-455 | as written, every lookup fails: a registered name with "failed to cast channel", any other with "does not exist" |
| Lifecycle.AddChannelAsWritten | internal/lifecycle.go:473-497 | as written, a nil channel or empty name is refused and anything else is stored, overwriting a registered name |
| Lifecycle.RemoveChannelAsWritten | internal/lifecycle.go:498-513 | as written, every removal is refused with nothing changed |
| Lifecycle.GetChannel | internal/lifecycle.go:438-455 | corrected: the lookup succeeds exactly for a registered name |
| Lifecycle.AddChannel | internal/lifecycle.go:473-497 | corrected: a nil channel or empty name is refused; a registered name is kept; otherwise the channel is added |
| Lifecycle.RemoveChannel | internal/lifecycle.go:498-513 | corrected: a missing name is refused; otherwise only that key is deleted |
| Lifecycle.DefaultBufferSizes | internal/utils.go:131-133 | the small, medium and large sizes are strictly increasing (they are 2, 5 and 10) |
| Lifecycle.InitializeChannels | internal/utils.go:22-41 | exactly the nine names chanCtl … chanMessage are registered, each channel named after its key with the small, medium or large buffer shown in the source; other entries are untouched |
| Lifecycle.InitializeProcess | internal/utils.go:42-88 | a running main input or an already registered name is refused; otherwise exactly one process is added under the input's name and recorded as current |
| Lifecycle.BaseStages | internal/utils.go:134-218 | the base stages are exactly init, execute and end, each named after its key |
| Lifecycle.InitializeStages | internal/utils.go:89-117 | each base stage whose name is absent is inserted; already registered names are left untouched |
| Lifecycle.BaseEvents | internal/utils.go:219-225 | the base events are exactly "start" and "stop" |
| Lifecycle.InitializeEvents | internal/utils.go:118-130 | "start" and "stop" are added through AddEvent, duplicates are only logged, so the call always succeeds and keeps existing events |
| Lifecycle.Initialize | internal/lifecycle.go:123-194 | a nil input, nil mutexes or nil logger are refused in that order; existing controllers are refused; otherwise the registries are created and filled; it fails only when the main input is already running, with "error initializing process: " and the controllers left in place; success marks the manager initialized |
| Lifecycle.Snapshot | internal/lifecycle.go:195-207 | the text is "Lifecycle [{name}]: Processes: {p}, Stages: {s}, Events: {e}, Channels: {c}" where the four fields are decimal numerals without leading zeros, as `%d` prints them, whose values are the process, stage, event and channel counts |
| Lifecycle.SnapshotDeterminesCounts | internal/lifecycle.go:195-207 | two managers with the same name print the same snapshot exactly when their four registries have the same sizes |
| Strings.NumeralIsCanonical | internal/lifecycle.go:199-206 | a numeral without leading zeros is the `%d` rendering of its value, so the Snapshot contracts fix the text exactly |
| Lifecycle.BaseGraph | internal/utils.go:134-218 | init.next=[execute]; execute.next=[end], prev=[init]; end.next=[init], prev=[execute]; init and execute carry a "start" event and end does not; CanTransitionTo among base stages holds exactly along init→execute→end→init |
| Lifecycle.InitializeContents | internal/lifecycle.go:170-189 | after a successful Initialize: one process under the input's name (also current), the three base stages, no events (initializeEvents is never called), the nine channels and no current stage |
| Lifecycle.InitializeTwiceFails | internal/lifecycle.go:142-148 | once the controllers exist every later Initialize fails with "lifecycle manager controllers already initialized" |
| Lifecycle.StartFromBase | internal/lifecycle.go:545-566 | from the base stages with no current stage, StartLifecycle succeeds and leaves "execute" current |
| Lifecycle.StartFromExecuteRefused | internal/lifecycle.go:549-551 | with "execute" current, starting again is refused because execute cannot transition to init |
| Lifecycle.StartLifecycleOutcome | internal/lifecycle.go:537-570 | over any registry keyed by stage name: start succeeds exactly when there are stages, "init" can be entered and "execute" is registered and follows the init stage entered; success leaves the registered "execute" stage current and nothing else changed |
| Lifecycle.StartAfterInitialize | internal/lifecycle.go:537-570 | starting a freshly initialised manager ends in "execute", and a second start is refused at "init" |
| Lifecycle.InitializeCounts | internal/lifecycle.go:170-189 | a freshly initialised manager has 1 process, 3 stages, 0 events and 9 channels |
| Lifecycle.SnapshotOfCounts | internal/lifecycle.go:199-206 | registries of sizes 1, 3, 0, 9 print as "Processes: 1, Stages: 3, Events: 0, Channels: 9" |
| Lifecycle.SnapshotAfterInitialize | internal/lifecycle.go:195-207 | the snapshot of a freshly initialised manager is exactly "Lifecycle [{name}]: Processes: 1, Stages: 3, Events: 0, Channels: 9" |
| Lifecycle.InitializeEventsIdempotent | internal/utils.go:118-130 | running initializeEvents twice gives the same registry as running it once |
| Lifecycle.AddThenRemoveProcess | internal/lifecycle.go:219-262 | adding a fresh name and removing it restores the registry |
| Lifecycle.AddThenRemoveStage | internal/lifecycle.go:263-391 | a stage added under a fresh non-empty name is read back; adding again under that name passes and keeps the first stage; removing it restores the registry and the lookup fails again |
| Lifecycle.AddThenRemoveEvent | internal/lifecycle.go:392-437 | an unknown event cannot be triggered; once added it is read back and triggers, a second add is refused with "event '{name}' already exists", and removing it restores the registry |
| Lifecycle.RemoveChannelNeverSucceeds | internal/lifecycle.go:498-513 | as written, "chanCtl" is registered after Initialize yet its removal is refused; the corrected removal succeeds |
| Lifecycle.AddChannelOverwrites | internal/lifecycle.go:473-497 | as written, AddChannel replaces a registered channel; the corrected one keeps it |
| Checks.FailedExactly | internal/components/types/lifecycle.go:222-235 | a check's line appears in the report exactly when that check is one of the ranged checks and fails |
| Checks.Failed | internal/components/types/lifecycle.go:222-235 | every reported line names one of the ranged checks, and that check fails; the report has at most one line per ranged check |
| Checks.Aggregate | internal/components/types/process_input.go:142-168 | the result is valid iff every ranged check holds; a valid result carries the fixed message and no error; an invalid one carries the header, one line per failed check in range order, and an error wrapping that text |
| ComponentLifecycle.NewLifeCycle | internal/components/types/lifecycle.go:37-47 | every field is set: the given input and logger, fresh components, a control channel, mutexes, a reference and empty metadata |
| ComponentLifecycle.ValidateLifecycle | internal/components/types/lifecycle.go:198-249 | panics exactly when the components are nil (the manager checks dereference them); otherwise valid iff all nine checks hold, with "Lifecycle is valid" and no error, and otherwise the header, the failed checks' lines and the wrapped "lifecycle validation failed" error |
| ComponentLifecycle.Initialize | internal/components/types/lifecycle.go:125-149 | a nil input is refused with the fixed message; it succeeds exactly when the input is set and every validation check holds; a failure leaves the lifecycle unchanged; success only defaults the logger and metadata |
| ComponentLifecycle.GetComponent | internal/components/types/lifecycle.go:86-99 | without components the lookup misses; otherwise the components bundle answers |
| ComponentLifecycle.StartLifecycle | internal/components/types/lifecycle.go:252-278 | the outcome is Initialize's, because the later "processManager" lookup can never hit |
| ComponentLifecycle.StopLifecycle | internal/components/types/lifecycle.go:152-195 | no manager lookup Shutdown makes can hit, so stopping always succeeds and changes nothing |
| ComponentLifecycle.RestartLifecycle | internal/components/types/lifecycle.go:288-296 | a restart behaves exactly as a start |
| ComponentLifecycle.StatusLifecycle | internal/components/types/lifecycle.go:299-305 | "Lifecycle não está inicializado" iff there is no input, "Lifecycle em execução" iff there is one |
| ComponentLifecycle.ValidateConfig | internal/components/types/lifecycle.go:308-313 | an error, with the fixed message, iff there is no input |
| ComponentLifecycle.ConstructedNeverInitializes | internal/components/types/components.go:36-51 | no lifecycle built by newLifeCycle initialises or restarts: the signal manager newComponents never sets is reported as missing |
| ComponentLifecycle.CompleteLifecycleValid | internal/components/types/lifecycle.go:198-249 | a lifecycle with every field and every manager set validates with "Lifecycle is valid" and initialises |
| WebLifecycle.RegisterProcess | internal/life_cycle.go:175-184 | always succeeds and stores the registration under the name, replacing any earlier one, touching nothing else |
| WebLifecycle.RegisterEventAsWritten | internal/life_cycle.go:185-198 | as written, appends one bundle handling the event whose reported name is "", because the constructor never sets it |
| WebLifecycle.RegisterEvent | internal/life_cycle.go:185-198 | corrected: the appended bundle reports the event's own name |
| WebLifecycle.EventNames | internal/events.go:65-70 | one reported name per bundle, in list order |
| WebLifecycle.RemoveEvent | internal/life_cycle.go:199-210 | succeeds iff some bundle reports the event name and then removes exactly the first such bundle, keeping the others in order; otherwise "evento … não encontrado em {stage}" and nothing changes |
| WebLifecycle.Trigger | internal/life_cycle.go:44-54 | a handler is called iff the stage is registered and has one for the event, and it is that handler |
| WebLifecycle.Receive | internal/life_cycle.go:83-93 | the registered stage's data, or nil for an unknown stage |
| WebLifecycle.DefineStage | internal/life_cycle.go:55-58 | a fresh stage named and described by the name, of type "stage", with no handlers, no pool and no possible transition |
| WebLifecycle.StopAll | internal/life_cycle.go:240-254 | succeeds iff every process stops, leaving none; the first failure is returned at once, with only the processes visited before it removed |
| WebLifecycle.RegisteredEventNotRemovable | internal/life_cycle.go:185-210 | as written, an event registered under a non-empty name can never be removed by that name |
| WebLifecycle.RegisterThenRemove | internal/life_cycle.go:185-210 | corrected: removing an event just registered under a fresh name restores the list |
| WebLifecycle.RegisterProcessReplaces | internal/life_cycle.go:175-184 | registering a name twice keeps only the later registration |
| Taskz.NewTaskz | internal/routines/taskz/taskz_manager.go:33-39 | a runner holding the request and no handlers |
| Taskz.Then | internal/routines/taskz/taskz_manager.go:44-50 | appends one serial handler and changes nothing else |
| Taskz.Parallel | internal/routines/taskz/taskz_manager.go:52-57 | appends one parallel handler and changes nothing else |
| Taskz.ExecSerial | internal/routines/taskz/taskz_manager.go:67-75 | succeeds iff every serial handler succeeds on the request its predecessors left, ending with their combined effect; otherwise it returns the first error together with what that handler did to the request |
| Taskz.StateAfterPrefix | internal/routines/taskz/taskz_manager.go:44-50 | appending a handler leaves the requests its predecessors produce unchanged |
| Taskz.ThenRunsLast | internal/routines/taskz/taskz_manager.go:44-75 | after Then, every serial handler succeeds iff the earlier ones do and the new one succeeds on the request they leave |
| Taskz.FirstFailUnique | internal/routines/taskz/taskz_manager.go:67-75 | a serial run that does not pass everywhere stops at exactly one first failing handler, so the serial outcome is determined by the handlers and the request |
| Taskz.Join2 | internal/routines/taskz/taskz_manager.go:98-101 | the joined error is nil iff both are nil |
| Taskz.JoinAllLines | internal/routines/taskz/taskz_manager.go:79-103 | the parallel error is nil iff every handler returned nil; otherwise its text is every message in arrival order, one per line |
| Taskz.LinesCons | internal/routines/taskz/taskz_manager.go:61 | joining one error before a list of lines puts its message on the first line and the others after it, as nested errors.Join prints |
| Taskz.Result | internal/routines/taskz/taskz_manager.go:59-63 | the parallel handlers run on the request the serial ones left, even after a serial error; with no serial error, the error is nil iff every parallel error is, and otherwise lists their messages one per line; when a serial handler fails, the request is what the parallel step made of the request that handler left, and the error text is its message followed, one per line, by the parallel messages |
| Channels.NewChannelBase | internal/components/types/channels.go:27-42 | a base of the given name and element type whose channel is empty with capacity equal to its recorded buffer count, which is the given count when positive and the large default (10) otherwise |
| Channels.SetBuffers | internal/components/types/channels.go:76-82 | a negative count panics; otherwise the count is recorded and an empty channel of that capacity replaces the old one, keeping name and element type |
| Channels.SetChannel | internal/components/types/channels.go:70-75 | whatever channel is passed, the result is a fresh empty channel of the recorded capacity |
| Channels.DefaultChannelsMap | internal/components/types/channels.go:409-427 | exactly done (bool, small), ctl (string, medium) and condition (small), plus metrics and monitor exactly when metrics are on |
| Channels.InitChannelsMap | internal/components/types/channels.go:393-408 | exactly done, ctl and condition, plus telemetry and monitor exactly when metrics are on; done holds one value though it records the small count |
| Channels.Ensured | internal/components/types/channels.go:199-206 | a nil map is replaced by initChannelsMap's; a present one is left alone, and nothing else changes |
| Channels.NewChannelCtl | internal/components/types/channels.go:134-151 | an empty main channel of the large capacity, a recorded count of 0 and the default map without metrics |
| Channels.NewChannelCtlWithProperty | internal/components/types/channels.go:154-173 | the main channel holds 3 values when no count is given, and the given count otherwise; a negative count panics; the flag shapes the map but is not stored |
| Channels.GetSubChannels | internal/components/types/channels.go:199-206 | the map after lazy initialisation; the controller is otherwise untouched |
| Channels.SetSubChannels | internal/components/types/channels.go:207-221 | every supplied entry is inserted or overwritten and every other entry of the initialised map stays |
| Channels.SetSubChannelByName | internal/components/types/channels.go:235-247 | the name is bound to the given value (or to nil) and never errors; other names keep their entries |
| Channels.GetSubChannelByNameAsWritten | internal/components/types/channels.go:222-234 | as written, a name is found exactly when its entry is a base of element type any |
| Channels.GetSubChannelByName | internal/components/types/channels.go:222-234 | corrected: a name is found exactly when its entry is any channel base, with that base and its element type |
| Channels.GetSubChannelBuffersByName | internal/components/types/channels.go:259-269 | (0, false) for a missing name; a present entry that is not a base of element type any panics; otherwise its buffer count and true |
| Channels.SetSubChannelBuffersByName | internal/components/types/channels.go:270-281 | (0, nil) and no change for a missing name; panics on an entry that is not a base of element type any; otherwise that base is resized as SetBuffers does and stored back |
| Channels.DefaultSubChannelsHidden | internal/components/types/channels.go:222-269 | as written, every sub-channel a controller is built with reads as missing by name and asking for its buffers panics |
| Channels.DefaultSubChannelsVisible | internal/components/types/channels.go:222-234 | corrected: every default sub-channel is found by name with the buffer count it was built with |
| Channels.SetThenGetSubChannel | internal/components/types/channels.go:222-247 | a channel stored by name is read back by name with its element type, and other names read as before |
| Channels.SetThenGetSubChannelBuffers | internal/components/types/channels.go:259-281 | after resizing a stored sub-channel of element type any, the buffer accessor reports the new count |
| Channels.SetSubChannelsIdempotent | internal/components/types/channels.go:207-221 | merging the same map in twice is the same as merging it once |
| ProcessInput.NewProcessInput | internal/components/types/process_input.go:60-85 | logger, mutexes and reference set; a "system" configuration that is not running, waiting or restarting, with empty metadata; no control channel and no system part |
| ProcessInput.Validate | internal/components/types/process_input.go:129-169 | panics exactly when the system part or the configuration is nil; otherwise valid iff all seven checks hold, with "ProcessInput is valid", and otherwise the header, the failed lines and the wrapped "ProcessInput validation failed" error |
| ProcessInput.Send | internal/components/types/process_input.go:172-195 | no channel gives "channel is not initialized"; a full buffer gives "channel buffer full, message not sent" and changes nothing; otherwise the message is enqueued at the back, a func(string) callback is called with it, and a callback of another type is an error after the enqueue |
| ProcessInput.FreshInputCannotSendOrValidate | internal/components/types/process_input.go:60-85 | a freshly built input cannot send, having no control channel, and its validation panics, having no system part |
| ProcessInput.SendKeepsCapacity | internal/components/types/process_input.go:179-184 | a channel within its capacity stays within it after a send, and its capacity does not change |
| ProcessInput.CompleteInputValid | internal/components/types/process_input.go:129-169 | an input with every field set validates with "ProcessInput is valid" and no error |
| ProcessInput.EmptyCommandReported | internal/components/types/process_input.go:133-135 | an empty command fails validation and "Command is empty" is among the reported lines |
| ProcessConfig.NewProcessConfig | internal/components/types/process_config.go:30-48 | the name, flags, type and metadata (possibly nil) are copied; the process is not running and no logger is stored |
| ProcessConfig.GetMetadata | internal/components/types/process_config.go:80-89 | (nil, false) on a nil map; otherwise the stored value and true exactly for a present key, "" included |
| ProcessConfig.SetMetadata | internal/components/types/process_config.go:92-100 | a nil map is created first; the key is bound to the value; nothing else changes |
| ProcessConfig.GetAfterSet | components/process_input/process_config.go:71-91 | a value set is read back and every other key reads as before, even when the map was nil |
| ProcessConfig.FreshNilMetadataEmpty | components/process_input/process_config.go:29-44 | a configuration built with nil metadata reports every key missing |
| EmailFields.GetData | email/common.go:22-28 | the stored value with no error exactly for a present key; otherwise the zero value and "key not found: {key}" |
| EmailFields.SetData | email/common.go:30-33 | a nil map panics; otherwise the key is bound to the value and nil is returned |
| EmailFields.GetAllData | email/common.go:35-37 | the whole map, nil included |
| EmailFields.SetAllData | email/common.go:39-42 | the map is replaced by the given one and nil is returned |
| EmailFields.DeleteData | email/common.go:44-47 | the key is absent afterwards and every other entry is kept; a nil map stays nil; never errors |
| EmailFields.SetThenGet | email/common.go:22-33 | after a successful set the key reads back its value and every other key reads as before |
| EmailFields.DeleteThenGet | email/common.go:22-28 | after deleting a key it reads as missing, other keys read as before, and deleting twice is deleting once |
| EmailFields.SetAllThenGetAll | email/common.go:35-42 | reading the whole map after replacing it gives exactly the map supplied |
| ComponentUtils.ValidateWorkerLimit | internal/components/utils/utils.go:13-22 | nil exactly for a non-negative int; "worker limit cannot be negative" for a negative int; "invalid type for worker limit" for anything else |
| ComponentUtils.GetBootID | internal/components/utils/utils.go:66-72 | the file content with surrounding white space removed, or the read error |
| ComponentUtils.GenerateProcessFileName | internal/components/utils/utils.go:24-31 | "" exactly when the boot id cannot be read; otherwise "{name}_{pid}_{bootid}.pid" over the trimmed boot id |
| ComponentUtils.PidFileNamesDistinct | internal/components/utils/utils.go:24-31 | within one process name and one boot, different pids get different pid-file names |
| ComponentUtils.PaddingIgnored | internal/components/utils/utils.go:66-72 | white space around the boot id in the file does not change the pid-file name |
| Action.NewActionAsWritten | internal/routines/taskz/actions/action.go:69-108 | as written, every construction panics, because its first property is built by property.NewProperty with a non-nil value |
| Action.NewAction | internal/routines/taskz/actions/action.go:69-108 | corrected: a nil data pointer panics; otherwise an idle action with no errors or results, exactly the channels cancel, result, error and done of capacity 10, an empty exported property map and the four private properties |
| Action.CanExecute | internal/routines/taskz/actions/action.go:180-184 | an action can execute exactly when it is not running |
| Action.GetStatus | internal/routines/taskz/actions/action.go:150-157 | "Unknown" without a status property, otherwise that property's value as text |
| Action.Execute | internal/routines/taskz/actions/action.go:189-211 | a running action is refused with "action already running" and left alone; a missing data property panics; otherwise the task's outcome is returned, the action is left running, a task error is appended to the errors and nothing else changes |
| Action.ExecuteAsWritten | internal/routines/taskz/actions/action.go:189-211 | as written, for a concrete data type: a running action is refused and left alone, and every other call panics, on the pointer assertion when the data property exists and on a nil interface otherwise |
| Action.Cancel | internal/routines/taskz/actions/action.go:216-224 | never errors and leaves the action not running, with nothing else changed |
| Action.SafeSend | internal/routines/taskz/actions/action.go:367-377 | an unknown channel gives "channel … not found", a nil one "channel … is closed", and otherwise the channel's own send decides |
| Action.SafeReceive | internal/routines/taskz/actions/action.go:388-405 | a value comes back exactly from a known, non-nil channel of type chan any; otherwise "not found", "is closed" or "is not of type chan any" |
| Action.FreshChannels | internal/routines/taskz/actions/action.go:77-103 | on a fresh action the four channel names accept sends and receives and every other name is refused |
| Action.FreshAction | internal/routines/taskz/actions/action.go:150-211 | a fresh action reports "Unknown", can execute, and its first Execute panics because the exported data property was never set |
| Action.ExecuteIsOneShot | internal/routines/taskz/actions/action.go:189-224 | after one Execute the action cannot execute again and a second Execute is refused, until Cancel makes it executable |
| Action.CancelIdempotent | internal/routines/taskz/actions/action.go:216-224 | cancelling twice is cancelling once |
| Action.ExecuteAsWrittenPanics | internal/routines/taskz/actions/action.go:199-201 | an idle action with its data property set runs its task as intended, and panics as written |
| Action.StatusStaysUnknown | internal/routines/taskz/actions/action.go:150-224 | an action without a status property keeps reporting "Unknown" through Execute and Cancel, since nothing fills the exported property map |
| Job.NewJob | internal/routines/taskz/jobs/ijob.go:41-64 | a job that is not running, with no results or errors of its own, holding the action; a nil cancel or done channel becomes one of capacity 2 |
| Job.GetResults | internal/routines/taskz/jobs/ijob.go:90-97 | a copy with exactly the action's result keys and values |
| Job.Execute | internal/routines/taskz/jobs/ijob.go:130-144 | a running job, or one whose action cannot execute, returns nil unchanged; otherwise the action's own Execute decides the outcome and the new action state; the job's running flag never changes |
| Job.Cancel | internal/routines/taskz/jobs/ijob.go:217-232 | succeeds exactly for a running job, which stops running; otherwise "job is not running" and nothing changes |
| Job.NewJobNeverCancels | internal/routines/taskz/jobs/ijob.go:41-64 | a job built by NewJob can never be cancelled, even after executing, because nothing sets its running flag |
| Job.SecondExecuteSkipped | internal/routines/taskz/jobs/ijob.go:130-144 | a job runs its action at most once: a second Execute is skipped with nil |
| ComponentManagers.NewEventManager | internal/components/types/event_manager.go:13-15 | an empty event registry |
| ComponentManagers.GetEvent | internal/components/types/event_manager.go:18-24 | found exactly for a registered name; otherwise "event {name} not found" |
| ComponentManagers.AddEvent | internal/components/types/event_manager.go:25-32 | a registered name is refused with nothing changed; otherwise exactly that entry is added |
| ComponentManagers.TriggerEvent | internal/components/types/event_manager.go:33-42 | errors exactly for an unregistered name; the registry never changes |
| ComponentManagers.RemoveEvent | internal/components/types/event_manager.go:43-50 | a missing name is refused with nothing changed; otherwise only that key is removed |
| ComponentManagers.NewStageManager | internal/components/types/stage_manager.go:12-14 | an empty stage registry |
| ComponentManagers.GetStage | internal/components/types/stage_manager.go:18-23 | found exactly for a registered name; otherwise "stage {name} not found" |
| ComponentManagers.AddStage | internal/components/types/stage_manager.go:25-28 | always succeeds, binding the name and overwriting any earlier entry |
| ComponentManagers.FirstInOrder | internal/components/types/stage_manager.go:30-35 | the first entry a range over the map meets, which is nil exactly for an empty map and otherwise one of its values |
| ComponentManagers.CurrentStage | internal/components/types/stage_manager.go:30-35 | nil exactly when no stage is registered; otherwise one of the registered stages |
| ComponentManagers.SetCurrentStage | internal/components/types/stage_manager.go:37-39 | a pure lookup: found exactly for a registered name, and nothing becomes current |
| ComponentManagers.RemoveStage | internal/components/types/stage_manager.go:41-44 | always nil; the name is absent afterwards and every other entry stays |
| ComponentManagers.NewProcessManager | internal/components/types/process_manager.go:15-17 | an empty process registry |
| ComponentManagers.AddProcess | internal/components/types/process_manager.go:23-33 | a nil property or one holding nil is refused with the fixed message and nothing changes; otherwise the value is bound to the name, replacing any entry |
| ComponentManagers.GetProcess | internal/components/types/process_manager.go:35-40 | found exactly for a stored name; otherwise "process {name} not found" |
| ComponentManagers.CurrentProcess | internal/components/types/process_manager.go:42-47 | nil exactly when nothing is stored; otherwise one of the stored inputs |
| ComponentManagers.RemoveProcess | internal/components/types/process_manager.go:49-52 | always nil; the name is absent afterwards and every other entry stays |
| ComponentManagers.StartProcess | internal/components/types/process_manager.go:54-78 | an unknown name gives its lookup error; for a stored name, send and receive errors, a nil object and a string are only logged and the result is nil, while a received object of any other type panics on the assertion to string |
| ComponentManagers.NewComponents | internal/components/types/components.go:36-51 | the process, stage and event registries, all empty, and no signal manager |
| ComponentManagers.GetComponent | internal/components/types/components.go:57-70 | exactly the four snake_case names are recognised, each giving its field even when that field is nil; any other name gives (nil, false) |
| ComponentManagers.AddThenRemoveEvent | internal/components/types/event_manager.go:25-50 | a fresh name, once added, triggers, refuses a second add, and its removal restores the registry |
| ComponentManagers.RemovalsIdempotent | internal/components/types/stage_manager.go:41-44 | removing a stage or a process twice is removing it once |
| ComponentManagers.AddThenGetStage | internal/components/types/stage_manager.go:18-44 | after AddStage the stage is what GetStage and SetCurrentStage return and CurrentStage is non-nil; a later AddStage under the name replaces it; after RemoveStage the lookup fails, and for a fresh name the registry is restored |
| ComponentManagers.AddThenGetProcess | internal/components/types/process_manager.go:23-78 | a stored process is read back and makes CurrentProcess non-nil; starting it succeeds when a string comes back and panics when an int does |
| ComponentManagers.LifecycleLookupsMiss | internal/components/types/components.go:57-70 | the camelCase names the lifecycle asks for are never recognised, while "signal_manager" is reported present on fresh components although it is nil |
| TaskStage.NewStage | internal/routines/taskz/stage/stage.go:139-168 | a stage with the given name, description and type, the given data or the zero value for nil, empty transition lists, tags and meta, no-op hooks, no worker pool, no event handler and no possible transition |
| TaskStage.CanTransitionTo | internal/routines/taskz/stage/stage.go:107-114 | true exactly when the target is among the stage's possible next stages |
| TaskStage.GetEvent | internal/routines/taskz/stage/stage.go:117-124 | a handler comes back exactly when one is registered for the event, and it is that handler |
| TaskStage.OnEvent | internal/routines/taskz/stage/stage.go:73-77 | the event gains a handler and nothing else about the stage changes |
| TaskStage.OnEnter | internal/routines/taskz/stage/stage.go:61-65 | the entry hook is replaced and nothing else changes |
| TaskStage.OnExit | internal/routines/taskz/stage/stage.go:67-71 | the exit hook is replaced and nothing else changes |
| TaskStage.Dispatch | internal/routines/taskz/stage/stage.go:96-104 | errors exactly when the stage has no worker pool, with "WorkerPool not initialized for stage {name}" |
| TaskStage.AutoScale | internal/routines/taskz/stage/stage.go:79-93 | the stage itself is returned unchanged |
| TaskStage.OnEventThenGet | internal/routines/taskz/stage/stage.go:73-135 | a handler set for an event is reported as existing and read back, and other events read as before |
| TaskStage.SettersKeepTransitions | internal/routines/taskz/stage/stage.go:61-114 | setting a handler or a hook never changes where the stage may transition |
| InternalStage.NewStage | internal/stage.go:93-104 | a stage with the given id, name, description and type, no handlers, hooks or pool, and no possible transition |
| InternalStage.CanTransitionTo | internal/stage.go:70-77 | true exactly when the target is among the possible next stages |
| InternalStage.GetEvent | internal/stage.go:78-83 | a handler comes back exactly when one is registered for the event, and it is that handler |
| InternalStage.OnEvent | internal/stage.go:52-55 | the event gains a handler and nothing else changes |
| InternalStage.OnEnter | internal/stage.go:44-47 | the entry hook is set and nothing else changes |
| InternalStage.OnExit | internal/stage.go:48-51 | the exit hook is set and nothing else changes |
| InternalStage.AutoScale | internal/stage.go:56-60 | a negative size panics when the task channel is made; otherwise a worker pool of that size is installed and nothing else changes |
| InternalStage.Dispatch | internal/stage.go:61-69 | errors exactly when there is no worker pool, with "WorkerPool não inicializado para o estágio {name}"; with a pool of size 0 the send on the unbuffered channel, which no worker goroutine reads, never returns; with a larger pool nil is returned |
| InternalStage.OnEventThenGet | internal/stage.go:52-92 | a handler set for an event is reported as existing and read back, and other events read as before |
| InternalStage.DispatchNeedsAutoScale | internal/stage.go:56-104 | a fresh stage cannot dispatch; once AutoScale(size) has installed a pool, dispatch returns nil for a positive size and never returns for size 0 |
| ManagedStage.NewStage | internal/components/types/stage_managed.go:278-321 | nil exactly for an empty name or type; otherwise a stage with that name and type, the data or the zero value, a control channel, no worker pool, and no events, transitions, meta or tags |
| ManagedStage.GetType | internal/components/types/stage_managed.go:48-59 | the stage's type, or "" for a nil stage |
| ManagedStage.GetStageType | internal/components/types/stage_managed.go:117-128 | the stage's type, or "" for a nil stage |
| ManagedStage.RegisterTransition | internal/components/types/stage_managed.go:220-226 | always succeeds; the source stage now maps to the target and every other transition is kept |
| ManagedStage.Initialize | internal/components/types/stage_managed.go:326-337 | succeeds exactly when data, control channel and worker pool are all set; otherwise the first missing one is named, in that order |
| ManagedStage.DefaultEventMap | internal/components/types/stage_managed.go:339-392 | the stage's events become exactly onStart, onStop, onComplete, onError and ctl; only onError reports invalid, and ctl reports "Retomada acionada" |
| ManagedStage.TypeAccessorsAgree | internal/components/types/stage_managed.go:48-128 | GetType and GetStageType always agree |
| ManagedStage.FreshStageFailsInitialize | internal/components/types/stage_managed.go:278-337 | a freshly built stage exists for non-empty name and type and fails Initialize with "workerPool is nil" |
| ManagedStage.LaterTransitionWins | internal/components/types/stage_managed.go:220-226 | registering two transitions from one stage keeps only the later target |
| Metadata.Get | internal/property/property.go:107-117 | the empty key returns the whole map, and reports false when that map is empty; any other key returns its value and whether it is present |
| Metadata.Set | internal/property/property.go:118-123 | the key is bound to the value and every other entry is kept |
| Metadata.GetAfterSet | internal/types/property.go:273-290 | a non-empty key set is read back, and other non-empty keys read as before |
| Metadata.WholeAfterSet | internal/types/property.go:273-290 | after a set the empty key returns the whole updated map |
| TypeCheck.Quo | components/types/result.go:215 | Go's integer division: the remainder has the dividend's sign (or is zero) and is smaller than the divisor in magnitude, and for non-negative operands it agrees with Euclidean division |
| TypeCheck.Penalty | components/types/result.go:197-203 | no status costs more than 250 points (a critical error) |
| TypeCheck.Fold | components/types/result.go:205-213 | the score loop never raises the score |
| TypeCheck.AnalyzePackage | components/types/result.go:161-187 | a detail for the package with status "Success", code 200 and "OK", the error "Package too small" exactly when it has fewer than 10 lines, no warnings, "Analysis completed", and no penalty |
| TypeCheck.UpdateSummary | components/types/result.go:189-223 | the package count and line total of the details, zero successes and errors, a score between 0 and 1000 that equals 1000 less the total penalty, clamped at 0, the truncated average of lines per package, and the resume text of those numbers |
| TypeCheck.UpdateSummaryRun | components/types/result.go:215 | the update panics exactly on an empty detail list (the average divides by zero) |
| TypeCheck.NewTypeCheckResult | components/types/result.go:115-159 | no details, a score of 100, no packages, an empty resume and duration "0s" |
| TypeCheck.GenerateFinalResult | components/types/result.go:225-233 | panics exactly when there are no details; otherwise the details appear twice and the summary is recomputed over the doubled list; the duration is kept |
| TypeCheck.ProcessPackages | components/types/result.go:298-321 | always panics, because the result it summarises has no details |
| TypeCheck.FoldClosedForm | components/types/result.go:197-216 | clamping at zero after every step gives the same score as subtracting the total penalty once and clamping |
| TypeCheck.FullScoreIff | components/types/result.go:189-223 | the score is 1000 exactly when no detail carries a penalised status |
| TypeCheck.SumPenaltyZeroIff | components/types/result.go:197-213 | the total penalty is zero exactly when every detail's penalty is |
| TypeCheck.SumsOfConcat | components/types/result.go:197-216 | line totals and penalty totals add up over concatenated detail lists |
| TypeCheck.FinalResultDoubles | components/types/result.go:225-233 | the final result counts every package twice and twice its lines, and its score is 1000 less twice the original penalties, clamped at 0 |
| TypeCheck.AnalyzedPackagesScoreFull | components/types/result.go:161-223 | a summary of freshly analysed packages scores 1000 |
| Layer.NewLayer | components/types/layer.go:27-44 | a layer with the scope and object, no events, nil listeners and a valid state with "Access layer initialized successfully" |
| Layer.NewAccessLayer | internal/layers/layer_access.go:28-45 | the same layer without an object |
| Layer.AddLayerEvent | components/types/layer.go:59-80 | a nil event changes nothing; an event whose name and priority are both taken changes nothing; otherwise it is stored under its own priority, keeping every other entry of that name and every other name |
| Layer.GetLayerEvents | components/types/layer.go:82-94 | nil exactly for an unknown name; otherwise that name's table |
| Layer.RemoveLayerEvent | components/types/layer.go:96-113 | an unknown name changes nothing; otherwise that priority is removed, and the name disappears when no priority is left |
| Layer.FirstRunnable | components/types/layer.go:138-150 | (false, nil) when no entry met has a function; otherwise exactly the call of the first entry, in iteration order, that has one |
| Layer.ExecuteLayerEvent | components/types/layer.go:115-152 | an unknown name gives false and a "not found" result; a name whose entries all lack a function gives (false, nil); otherwise the outcome is the call of the first entry met that has a function: (result != nil, result) |
| Layer.Snapshot | components/types/layer.go:247-257 | "Layer {scope} (valid|invalid): {n} events, {m} listeners. ", where n and m are decimal numerals without leading zeros, as `%d` prints them, whose values are the number of event names and of listeners (none for a nil map) |
| Layer.AddKeepsWf | components/types/layer.go:59-80 | adding keeps every entry under its own priority and no inner table empty |
| Layer.RemoveKeepsWf | components/types/layer.go:96-113 | removing keeps the same invariant |
| Layer.SortByPriorityKeepsKeyedTable | components/types/layer.go:259-286 | on a table where every entry sits under its own priority, the priority rebuild gives back exactly that table |
| Layer.AddThenRemove | components/types/layer.go:59-113 | adding an event under a fresh name and removing its priority restores the layer |
| Layer.NoOverwrite | components/types/layer.go:66-72 | a second event at a taken priority is ignored and the first stays |
| Layer.SingleRunnableDecides | components/types/layer.go:138-150 | when exactly one entry has a function, every iteration order runs that entry, so the outcome does not depend on map order |
| Layer.AddThenExecute | components/types/layer.go:79-150 | an event with a function added under a new name is the one executing that name calls |
| Layer.SnapshotDeterminesCounts | components/types/layer.go:247-256 | for the same scope and validity, two snapshots are equal exactly when the event-name counts and the listener counts are equal |
| Layer.NewLayerSnapshot | components/types/layer.go:247-257 | a fresh layer's snapshot is "Layer {scope} (valid): 0 events, 0 listeners. " |
| Validation.NewValidation | components/types/valitators.go:68-75 | not valid, no validators, validation inactive |
| Validation.CheckIfWillValidate | components/types/valitators.go:77-97 | the flag becomes true exactly when some validator is stored, and nothing else changes |
| Validation.AddValidator | components/types/valitators.go:147-170 | nil validation, a nil function, a negative priority and a taken priority are refused in that order, with nothing stored; otherwise the validator is stored under its priority and validation becomes active |
| Validation.RemoveValidator | components/types/valitators.go:172-185 | refused exactly for nil validation or an absent priority; otherwise only that priority goes and the flag says whether any validator is left |
| Validation.RunAll | components/types/valitators.go:35-66 | the validity flag becomes true exactly when every stored validator accepts the value, and the validators stay under the same priorities |
| Validation.Validate | components/types/valitators.go:100-145 | true exactly when there is an argument, validation is active, the first argument has the type parameter and every validator accepts it; otherwise nothing runs and nothing changes |
| Validation.RunAllAsWritten | components/types/valitators.go:35-65 | the run as written panics exactly when some validator is stored, because its write-back compares two structs that hold a function; an empty set returns valid |
| Validation.ValidateAsWritten | components/types/valitators.go:100-145 | as written, every call that gets past the early refusals panics, and the others return false with nothing changed |
| Validation.IsValid | components/types/valitators.go:254-267 | true exactly for a non-nil validation with validators whose last run succeeded |
| Validation.OperationsKeepWf | components/types/valitators.go:147-185 | adding and removing keep every stored validator non-nil and under its own priority |
| Validation.AddThenRemove | components/types/valitators.go:147-185 | adding a validator to a fresh validation activates it, and removing it deactivates it again |
| Validation.FreshNeverValid | components/types/valitators.go:68-145 | a fresh validation never validates and is never valid |
| Validation.ValidateAsWrittenPanics | components/types/valitators.go:52-59 | with one accepting validator and a well-typed argument, the corrected validation reports valid while the code as written panics |
| Validation.ValidateAgreesWithoutValidators | components/types/valitators.go:100-145 | the written and corrected validation agree exactly on the calls that stop before reaching a stored validator |
| Property.NewPropertyAsWritten | internal/property/property.go:52-72 | as written: a nil pointer gives an empty property; a value of a concrete type panics on the assertion to a pointer; for an interface type a non-nil value is refused by the type check, the error is dropped and the property stays empty, while a nil value panics |
| Property.NewProperty | internal/property/property.go:52-72 | corrected: the name, type and value are kept, with empty metadata and listeners |
| Property.AddListener | internal/property/property.go:215-256 | always errors: a taken name is refused with nothing changed; for a fresh name the type comparison always fails, a nil listener still leaves a wrapper under the name and a non-nil one is never stored |
| Property.AddChainedListener | internal/property/property.go:307-343 | succeeds exactly when the new name is free and the base name exists, and then only the new name is added; otherwise the error names the clash or the missing base and nothing changes |
| Property.RemoveListener | internal/property/property.go:346-352 | succeeds exactly for a registered name, which alone is deleted; otherwise "listener with name … does not exist" |
| Property.RemoveAllListeners | internal/property/property.go:354-360 | no listener is left and nothing else changes |
| Property.SetMetadata | internal/property/property.go:118-123 | the key is then present in the metadata and nothing else about the property changes |
| Property.GetMetadata | internal/property/property.go:107-116 | "" yields the whole map exactly when it is non-empty; any other key is found exactly when present, with its stored value |
| Property.OnlyNilWrappersFromAddListener | internal/property/property.go:215-256 | through AddListener alone, only nil-listener wrappers can ever be registered |
| Property.ChainThenRemove | internal/property/property.go:307-352 | a chained listener can be removed again, restoring the registry |
| Property.NothingLeftAfterRemoveAll | internal/property/property.go:307-360 | after RemoveAllListeners, removing any name fails and chaining onto any base fails |
| TypesProperty.NewProperty | internal/types/property.go:212-222 | the name, type and value are kept, with empty metadata, validators and listeners |
| TypesProperty.FirstFailure | internal/types/property.go:431-439 | no error exactly when every validator accepts the value; otherwise one validator's error |
| TypesProperty.SetValueAsWritten | internal/types/property.go:431-442 | as written, a nil value panics, a pointer or a value of another type is a type-mismatch error, and a value of the right type panics exactly when every validator accepts it; no call returns success |
| TypesProperty.SetValue | internal/types/property.go:303-326 | corrected: anything but a value of the property's type is refused with nothing changed; a validator error is returned with nothing changed; otherwise the value is stored and the callback's outcome returned |
| TypesProperty.SetDefaultValue | internal/types/property.go:346-357 | nil gives "value cannot be nil"; a value of the right type panics on the same assertion; no call returns success |
| TypesProperty.AddValidator | internal/types/property.go:359-365 | nil gives "validator cannot be nil"; a validator is accepted only when the property's type is the validator's function type, and is then appended; a refusal changes nothing |
| TypesProperty.AddListener | internal/types/property.go:373-404 | succeeds exactly for a free name, which is then registered; a taken name is refused with nothing changed |
| TypesProperty.SetMetadata | internal/types/property.go:285-290 | the key is then present in the metadata and nothing else about the property changes |
| TypesProperty.GetMetadata | internal/types/property.go:271-282 | "" yields the whole map exactly when it is non-empty; any other key is found exactly when present, with its stored value |
| TypesProperty.GetValueAsWritten | internal/types/property.go:297-300 | as written, asserting what GetValue returns to the value type panics whatever the property holds, since it returns the boxed pointer |
| TypesProperty.ValidatorsNeverAttach | internal/types/property.go:359-365 | as written, no validator ever attaches to an int or string property |
| TypesProperty.WellTypedSetPanics | internal/types/property.go:431-442 | as written, setting a well-typed value on a property without validators panics |
| TypesProperty.SetThenGet | internal/types/property.go:303-326 | corrected: a value every validator accepts is what the property then holds, and the callback's outcome is returned |
| TypesProperty.ListenerNamesUnique | internal/types/property.go:373-380 | a second listener under the same name is refused |
| WorkerPool.NewWorkerPoolAsWritten | internal/routines/workers/workerpool.go:32-83 | as written, construction always panics, because storing each integer property goes through the internal/types SetValue |
| WorkerPool.NewWorkerPool | internal/routines/workers/workerpool.go:32-83 | corrected: a negative limit panics (the slot array cannot be made); otherwise exactly limit empty slots, the given limit, a count of 0, 100 buffers and the three properties |
| WorkerPool.GetWorkerCount | internal/routines/workers/workerpool.go:102-107 | the number of slots, filled or not |
| WorkerPool.GetWorkerLimit | internal/routines/workers/workerpool.go:154-159 | corrected: the limit is exactly the largest slice length SetWorkerPool accepts |
| WorkerPool.GetWorkerLimitAsWritten | internal/routines/workers/workerpool.go:154-159 | as written, reading the limit panics with "interface {} is *int, not int" |
| WorkerPool.NewWorkerPoolValidatorAsWritten | internal/routines/workers/workerpool.go:62-79 | with the SetValue panic repaired, the constructor still panics on a negative limit and otherwise returns nil, because the limit validator never attaches |
| WorkerPool.GetWorker | internal/routines/workers/workerpool.go:162-170 | an id outside the slots gives "worker ID out of range"; otherwise that slot, possibly nil |
| WorkerPool.GetJobQueue | internal/routines/workers/workerpool.go:129-143 | succeeds exactly for an id in range whose slot holds a worker with a job queue, returning that worker's queue; out of range and an empty slot have their own errors |
| WorkerPool.GetWorkerChannel | internal/routines/workers/workerpool.go:172-190 | panics exactly on an empty slot in range; out of range is refused; otherwise the worker's job or result channel |
| WorkerPool.SendToWorker | internal/routines/workers/workerpool.go:212-224 | panics exactly on an empty slot in range; out of range is refused; otherwise the worker's own send decides |
| WorkerPool.AddWorker | internal/routines/workers/workerpool.go:276-285 | succeeds exactly for an id in range; then that slot alone is overwritten and the slot count stays; otherwise "worker ID out of range" and nothing changes |
| WorkerPool.SetWorkerLimit | internal/routines/workers/workerpool.go:287-298 | corrected: a negative limit is refused with nothing changed; otherwise only the limit changes |
| WorkerPool.SetWorkerPool | internal/routines/workers/workerpool.go:300-312 | succeeds exactly for a non-nil slice no longer than the limit, which then replaces the slots; nil and an over-long slice have their own errors and change nothing |
| WorkerPool.SetWorkerPoolAsWritten | internal/routines/workers/workerpool.go:299-311 | as written, nil is refused and every other slice panics on the limit read |
| WorkerPool.AddListener | internal/routines/workers/workerpool.go:239-257 | always errors, with "event … not found" even when the listener was just stored |
| WorkerPool.RemoveListener | internal/routines/workers/workerpool.go:259-274 | panics exactly for a known event (the property's RemoveListener is unimplemented); otherwise "event … not found" |
| WorkerPool.FreshPoolSlots | internal/routines/workers/workerpool.go:32-170 | every slot of a fresh pool is in range and empty and every other id is refused |
| WorkerPool.AddThenGet | internal/routines/workers/workerpool.go:162-285 | a worker written into a slot is read back from it, and the slot count stays |
| WorkerPool.SetWorkerPoolRespectsLimit | internal/routines/workers/workerpool.go:287-312 | an accepted slice fits under the limit, and raising the limit accepts it again |
| WorkerPool.OperationsKeepWf | internal/routines/workers/workerpool.go:239-312 | no operation adds or removes one of the constructor's properties |
| WorkerPool.BoxedLimitReads | internal/routines/workers/workerpool.go:154-159 | on a fresh pool the intended limit read and a fitting slice succeed, while as written both panic |
| WorkerPool.ValidatorBranchReturnsNil | internal/routines/workers/workerpool.go:62-79 | for every non-negative limit, the constructor with SetValue repaired returns nil, while the intended one returns a pool |
| ComponentPool.NewWorkerPool | components/workers/pool.go:33-107 | a negative limit panics; otherwise exactly limit empty slots and the properties workerLimit, workerCount 0 and buffers 10 |
| ComponentPool.GetWorkerCount | components/workers/pool.go:126-131 | the number of slots |
| ComponentPool.GetWorkerLimitAsWritten | components/workers/pool.go:179-190 | as written, 0 whenever the limit is stored, and a panic when it is not |
| ComponentPool.GetWorkerLimit | components/workers/pool.go:179-190 | corrected: the stored limit, or 0 without one |
| ComponentPool.SetWorkerLimitAsWritten | components/workers/pool.go:330-344 | as written, a negative limit is refused; a stored limit makes the call a successful no-op; without one it panics |
| ComponentPool.SetWorkerLimit | components/workers/pool.go:330-344 | corrected: a negative limit is refused with nothing changed; otherwise the limit is stored and read back |
| ComponentPool.ReplaceSlots | components/workers/pool.go:354-362 | the slots are replaced exactly when the slice is no longer than the limit; otherwise "worker pool exceeds worker limit" and nothing changes |
| ComponentPool.SetWorkerPoolAsWritten | components/workers/pool.go:346-365 | as written, nil is refused; with a stored limit the length is checked against 0; without one it panics |
| ComponentPool.SetWorkerPool | components/workers/pool.go:346-365 | corrected: succeeds exactly for a non-nil slice no longer than the stored limit, which then replaces the slots |
| ComponentPool.GetWorker | components/workers/pool.go:192-200 | refused exactly for an id outside the slots; otherwise that slot |
| ComponentPool.GetJobQueue | components/workers/pool.go:153-167 | always errors: out of range, "worker not found" for an empty slot, and "failed to get job queue" otherwise |
| ComponentPool.GetWorkerChannel | components/workers/pool.go:202-221 | nil error exactly for an id in range; otherwise "worker ID out of range" |
| ComponentPool.SendToWorker | components/workers/pool.go:248-261 | nil exactly for an id in range; otherwise "worker ID out of range" |
| ComponentPool.AddWorker | components/workers/pool.go:319-328 | succeeds exactly for an id in range; then that slot alone is overwritten |
| ComponentPool.AddListener | components/workers/pool.go:282-317 | always "event … not found" |
| ComponentPool.GetPoolChannel | components/workers/pool.go:133-151 | always an error: "failed to get job channel" or "failed to get result channel" |
| ComponentPool.ConstructedPoolAsWritten | components/workers/pool.go:179-190 | as written, a constructed pool reports limit 0, refuses every non-empty slice, accepts the empty one, and SetWorkerLimit changes nothing |
| ComponentPool.ConstructedPoolAsIntended | components/workers/pool.go:179-190 | corrected: a constructed pool reports its limit, accepts a slice exactly when it fits, and reads back a new limit |
| ComponentPool.AddThenGet | components/workers/pool.go:192-328 | a worker written into a slot is read back and the slot count stays |
| WorkerManager.NewWorkerManager | internal/routines/workers/manager.go:29-57 | corrected: status "Stopped", workerCount 0, monitorInterval 500, exactly those three properties, no workerLimit of its own, and the given pool |
| WorkerManager.AddWorkerObj | internal/routines/workers/manager.go:83-107 | nil is refused; a missing workerLimit panics; at or over the limit it is refused; it succeeds exactly below both the manager's limit and the pool's, appending the worker and setting workerCount to the new slot count; a refusal changes nothing |
| WorkerManager.AddWorker | internal/routines/workers/manager.go:59-81 | a missing workerLimit panics; at or over the limit nothing is added; it succeeds exactly when workerCount indexes a slot, writing a new worker with that id there |
| WorkerManager.RemoveWorker | internal/routines/workers/manager.go:109-121 | corrected: succeeds exactly for an id in range; that slot is cut out, the rest keep their order, workerCount follows the length and the pool limit stays |
| WorkerManager.AddValidator | internal/routines/workers/manager.go:123-133 | an unknown property gives "property … does not exist"; otherwise the property's own AddValidator decides |
| WorkerManager.SetWorkerLimit | internal/routines/workers/manager.go:135-150 | corrected: succeeds exactly for a positive limit not below the slot count, and then only the pool's limit changes; each refusal has its own message |
| WorkerManager.ValidatePool | internal/routines/workers/manager.go:252-258 | an error, "worker count exceeds worker limit", exactly when the pool has more slots than its limit |
| WorkerManager.ReadOwnLimitAsWritten | internal/routines/workers/manager.go:68 | as written, reading the manager's own limit always panics: on a nil property when it is missing, on the boxed pointer when present |
| WorkerManager.AddWorkerObjAsWritten | internal/routines/workers/manager.go:83-106 | as written, nil is refused and every worker panics on the limit read |
| WorkerManager.AddWorkerAsWritten | internal/routines/workers/manager.go:59-80 | as written, every call panics on the limit read before anything is added |
| WorkerManager.ValidatePoolAsWritten | internal/routines/workers/manager.go:252-257 | as written, every call panics on the pool's limit read |
| WorkerManager.FreshManagerPanicsOnAdd | internal/routines/workers/manager.go:48-53 | a fresh manager cannot take a worker: the limit it reads was never created |
| WorkerManager.AddValidatorAlwaysFails | internal/routines/workers/manager.go:123-133 | no validator can be attached to any of the manager's properties |
| WorkerManager.OperationsKeepPoolValid | internal/routines/workers/manager.go:83-150 | adding, removing and re-limiting keep a valid pool valid |
| WorkerManager.AddObjThenRemove | internal/routines/workers/manager.go:83-121 | appending a worker and removing the last slot restores the slots, with workerCount in step |
| WorkerManager.BoxedLimitReadsPanic | internal/routines/workers/manager.go:59-106 | a manager with room takes a worker and passes validation as intended, while the same three calls panic as written |
| WorkerManager.NewWorkerManagerAsWritten | internal/routines/workers/manager.go:48-49 | as written, construction always panics on the first SetValue, so no manager is ever returned |

## Left out

- Goroutines, channels used for concurrency, and locks. Mutexes are no-ops, and the nesting of `MuLock` in `SetCurrentStage` with `MuRLock` in `CurrentStage` (internal/lifecycle.go:333-336) is not modelled, so its deadlock is not modelled either.
- Worker start/stop loops, `MonitorWorkers`, `MonitorPool` and `listenStdin`/`handleSignal`: they are goroutine and signal plumbing.
- Taskz.ExecParallel: the goroutine fan-out is abstracted. The joined result of the parallel step comes in as the `par` parameter.
- Listener side effects and notifications, and logging: these are calls into code outside the core and do not affect any result that is modelled.
- The call of the "start" event handler when `SetCurrentStage` enters a stage: the handler is an opaque function value; only the stage change is modelled.
- `DefineStage` in internal/life_cycle.go calls a four-argument `NewStage` that internal/stage.go does not declare. It is modelled as building a fresh, unregistered stage from the name.
- Validation.Validate: the model relies on the validator set's invariant, because the ranging loop of the source stops after its first entry.
- A validator that returns a nil result is not modelled: validator results come in as values.
- UUID generation in `NewAction`: identifiers are parameters.
- Action.ExecuteAsWritten: only a concrete data type is modelled. For an interface type that `*T` satisfies, such as `any`, the assertion at action.go:200 succeeds and the task runs on the pointer rather than on the value; that case is not modelled.
- Action.GetStatus: `GetValue` of the internal/property property returns a `*T` (internal/property/property.go:136-145), and `%v` prints that pointer (an address for a plain type), not the status text. The model returns the stored text, as evidently intended. No reachable action has a status property anyway (`Action.StatusStaysUnknown`).
- `SetProperty`/`GetProperty`: they act only on entries of the exported property map, which nothing fills.
- Job: `CancelTime`, clock reads and the plain getters. Time is not modelled.
- gWebLifeCycle `Start`, `Stop`, `Restart`, `Status`, `StartAll`, `StartProcess`, `StopEvents`, `Send`, `ListenForSignals` and its constructors: they start OS processes or goroutines. `StopAll` takes the stop outcome as a parameter.
- Lifecycle shutdown paths that `Send` on channels.
- ProcessInput `Receive`, `Serialize`/`Deserialize`, `SaveToFile`/`LoadFromFile` and `NewProcessInputFromConfig`: channel reads, encoding and file I/O.
- ProcessInput command building: `BuildCmd` is reduced to a boolean "command built". components/types/process_system.go is not part of this model.
- `GetDefaultBufferSizes` is folded into the constants (2, 5, 10) used by `Lifecycle.InitializeChannels` and `Channels`.
- `ChannelBase` `Close`/`Clear` and the `ChannelCtl` getters and `With...` setters are left out. A `reflect.Type` is an opaque `Elem` value.
- `createProcessFile`/`removeProcessFile` and the macOS and Windows boot-time readers: they do file and OS I/O. The boot id is an input.
- Layer listener operations (`AddLayerListener`, `GetLayerListeners`, `RemoveLayerListener`, `ExecuteLayerListeners`, `NotifyLayerListeners`): `NewLayer` never allocates the listener map, so they only write into a nil map.
- internal/property `SetValue`, `SetDefaultValue` and `AddValidator`: only the metadata and the listener registry of that package are modelled, together with the constructor's first `SetValue`.
- The "implement me" methods of internal/components/types/stage_managed.go, and internal/routines/taskz/stage.go, which does not compile.
- Telemetry and all floating point. A metric value on the dashboard is an opaque string.
- The IPC read loop after end of input: the model takes a finite list of lines. At end of input `ReadString` returns "", which the loop answers with "Comando desconhecido" until a write fails, so with writes that never fail the Go handler does not return. The write outcome of each reply is an input (`Ipc.Effect`).
- Report, debug and logger accessors.
- TaskStage.AutoScale: the model states that the stage is returned unchanged. It does not model the worker that a present pool is asked to add.
- TypeCheck: Go's 64-bit `int` overflow in the sums is not modelled. Integers are unbounded.
- Dashboard: a missing collection is not defaulted to an empty one. `web/app.js` calls `forEach` on it and throws, and the model follows the code (`Dashboard.ThrowsIff`).

## Findings

| source | as written | input that shows it | evidently intended | confidence | as-written member | corrected member |
|---|---|---|---|---|---|---|
| internal/lifecycle.go:447-455 | `GetChannel` asserts the stored value to the struct `ChannelCtl[any]`, but `AddChannel` stores a pointer, so every lookup misses | remove "chanCtl" from a freshly initialised manager: the removal fails although the channel is registered (`Lifecycle.RemoveChannelNeverSucceeds`) | lookup of the pointer, so a registered channel is found and removed | not executed | Lifecycle.RemoveChannelAsWritten | Lifecycle.RemoveChannel |
| internal/lifecycle.go:473-496 | the duplicate check in `AddChannel` goes through the same failing lookup, so an existing channel is overwritten | add "chanCtl" again to an initialised manager: it succeeds and replaces the channel (`Lifecycle.AddChannelOverwrites`) | a duplicate name is refused | not executed | Lifecycle.AddChannelAsWritten | Lifecycle.AddChannel |
| internal/types/property.go:431-442 | `validateAndSet` checks that the value is a `T`, then asserts it to `*T`, which panics | any property of `int` with no validators, set to 5 (`TypesProperty.WellTypedSetPanics`) | store the `T` value | not executed | TypesProperty.SetValueAsWritten | TypesProperty.SetValue |
| components/types/valitators.go:52-59 | the validator run writes each result back with `CompareAndSwap`, which compares two `ValidationFunc` structs; they hold a function, so Go panics | one validator accepting 1, then `Validate(1)` panics (`Validation.ValidateAsWrittenPanics`) | each validator's result is stored and the run reports whether all accepted | not executed | Validation.ValidateAsWritten | Validation.Validate |
| internal/routines/workers/workerpool.go:53-60 | the constructor's `SetValue` calls go through `validateAndSet` and panic | `NewWorkerPool(4)` panics before returning | a pool with 4 empty slots, limit 4, buffers 100 | not executed | WorkerPool.NewWorkerPoolAsWritten | WorkerPool.NewWorkerPool |
| internal/routines/workers/workerpool.go:62-79 | attaching `ValidateWorkerLimit` to the `int` workerLimit property always fails, and that branch resets the limit and returns nil | `NewWorkerPool(4)` with `SetValue` repaired returns nil (`WorkerPool.ValidatorBranchReturnsNil`) | a pool of 4 empty slots | not executed | WorkerPool.NewWorkerPoolValidatorAsWritten | WorkerPool.NewWorkerPool |
| internal/routines/workers/workerpool.go:154-159 | `GetValue()` of an internal/types property returns the boxed `*int` (internal/types/property.go:297-300), and `GetWorkerLimit` asserts it to `int`, which panics | a fresh pool of 4 slots: `GetWorkerLimit()` panics (`WorkerPool.BoxedLimitReads`) | the stored limit, 4 | not executed | WorkerPool.GetWorkerLimitAsWritten | WorkerPool.GetWorkerLimit |
| internal/routines/workers/workerpool.go:299-311 | `SetWorkerPool` compares the slice length with the same `.(int)` read, so every non-nil slice panics | a fresh pool of 4 slots, `SetWorkerPool` with one slot (`WorkerPool.BoxedLimitReads`) | a slice within the limit replaces the slots | not executed | WorkerPool.SetWorkerPoolAsWritten | WorkerPool.SetWorkerPool |
| internal/routines/workers/manager.go:48-49 | the constructor's first `SetValue`, of "Stopped", panics in `validateAndSet` | `NewWorkerManager` with any pool | status "Stopped", workerCount 0, monitorInterval 500 | not executed | WorkerManager.NewWorkerManagerAsWritten | WorkerManager.NewWorkerManager |
| internal/routines/workers/manager.go:83-106 | `AddWorkerObj` reads the manager's limit with `GetValue().(int)` (line 96), which panics on the boxed `*int`, or on a nil property when it is missing | a manager with limit 4, pool limit 4 and no slots, adding a worker (`WorkerManager.BoxedLimitReadsPanic`) | the worker is appended and workerCount becomes 1 | not executed | WorkerManager.AddWorkerObjAsWritten | WorkerManager.AddWorkerObj |
| internal/routines/workers/manager.go:59-80 | `AddWorker` makes the same read first (line 68) | the same manager, `AddWorker()` (`WorkerManager.BoxedLimitReadsPanic`) | a worker is written into slot workerCount | not executed | WorkerManager.AddWorkerAsWritten | WorkerManager.AddWorker |
| internal/routines/workers/manager.go:252-257 | `ValidatePool` compares with the pool's limit through the same `.(int)` read | the same manager, `ValidatePool()` (`WorkerManager.BoxedLimitReadsPanic`) | nil, as the slots fit the limit | not executed | WorkerManager.ValidatePoolAsWritten | WorkerManager.ValidatePool |
| internal/property/property.go:398-409 | `NewProperty` with a non-nil value of a concrete type `T` stores it through a `*T` assertion on a `T`, which panics | `NewProperty[string]("status", &s)` | a property holding `s` | not executed | Property.NewPropertyAsWritten | Property.NewProperty |
| internal/routines/taskz/actions/action.go:88-91 | `NewAction` builds its properties with non-nil values, so it always panics | any `NewAction` call | an action with status "Pending" | not executed | Action.NewActionAsWritten | Action.NewAction |
| internal/routines/taskz/actions/action.go:199-201 | `Execute` asserts the `*T` that the data property's `GetValue` returns to `T`, which panics for a concrete `T` | an idle `Action[int]` whose data property holds 5, then `Execute()` (`Action.ExecuteAsWrittenPanics`) | the task runs on 5 and its error is returned | not executed | Action.ExecuteAsWritten | Action.Execute |
| components/workers/pool.go:179-189 | `GetWorkerLimit` tests `!ok` where it means `ok`, so it answers 0 whenever the limit is stored | a constructed pool: `GetWorkerLimit()` gives 0 (`ComponentPool.ConstructedPoolAsWritten`) | the stored limit | not executed | ComponentPool.GetWorkerLimitAsWritten | ComponentPool.GetWorkerLimit |
| components/workers/pool.go:346-364 | `SetWorkerPool` reads the limit through the same inverted test, so it refuses every non-empty slice | a constructed pool with limit 4 and one worker | slices up to the limit are accepted (`ComponentPool.ConstructedPoolAsIntended`) | not executed | ComponentPool.SetWorkerPoolAsWritten | ComponentPool.SetWorkerPool |
| components/workers/pool.go:330-343 | `SetWorkerLimit` updates the limit only through the inverted lookup, so it has no effect on a constructed pool | a constructed pool, `SetWorkerLimit(8)` | the limit becomes 8 | not executed | ComponentPool.SetWorkerLimitAsWritten | ComponentPool.SetWorkerLimit |
| internal/life_cycle.go:185-210 | `RegisterEvent` builds its bundle with `NewManagedProcessEvents` (internal/events.go:259-272), which never sets `Name`, so `Event()` is "" and `RemoveEvent` can never find it | `RegisterEvent("start", "init")` then `RemoveEvent("start", "init")` fails (`WebLifecycle.RegisteredEventNotRemovable`) | removal by the registered name succeeds (`WebLifecycle.RegisterThenRemove`) | not executed | WebLifecycle.RegisterEventAsWritten | WebLifecycle.RegisterEvent |
| internal/components/types/channels.go:222-234 | `GetSubChannelByName` asserts to `IChannelBase[any]`, which the default bool and string sub-channels do not implement | `NewChannelCtl("x")`, then ask for "done" (`Channels.DefaultSubChannelsHidden`) | the default sub-channel is returned (`Channels.DefaultSubChannelsVisible`) | not executed | Channels.GetSubChannelByNameAsWritten | Channels.GetSubChannelByName |
