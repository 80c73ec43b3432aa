# CodePipeline monitor and its notification record, in Dafny

This project models the core of a GitHub Action. The action starts an AWS
CodePipeline execution and follows it until the execution reaches a final
status. While it waits, it keeps a `slack` record (a colour and a map of
messages keyed by time) and posts that record to a notification sink.

- `wrappers.dfy` (module `Wrappers`): `Option` and `Result`.
- `aws.dfy` (module `Aws`) models `src/aws.js`:
  - `pipelineTrigger` is `Trigger`; `pipelineGetNewestExecutionId` is `NewestExecutionId`.
  - The status `switch` is `Classify`.
  - One call of `pipelineMonitor` up to its nested call is `TurnOf`. Its `catch` block is `Catch`.
  - The whole recursion, with one `try` per level, is the function `Monitor`.
  - The method `PipelineMonitor` runs the same recursion as a loop over (execution id, tick). It keeps an explicit stack of the calls whose `try` blocks are still open. When an error escapes, it unwinds that stack. Its postcondition is that it returns exactly `Monitor`'s run.
- `monitor_properties.dfy` (module `MonitorProperties`): what the monitor promises about its outcome, its events and its commands, stated of `Monitor`.
- `index.dfy` (module `Action`) models `src/index.js`:
  - The `slack` object is the class `Action.Slack`, changed in place.
  - The logger callback is `Slack.Log`. The final-outcome block is `Slack.Succeed` together with `MonitorAndReport`.
  - The whole action from the trigger on is `RunAction`.
  - Each method is proved against a value-level function: `Logged`, `Replay`, `Updates`, `Monitored` and `Perform`.
- `index_properties.dfy` (module `ActionProperties`): what the logger callback and the final block do to the record and to the posts.

The CodePipeline client is a scripted oracle, `Aws.Script`:
- the replies to the GetPipelineExecution commands, in the order they are sent;
- the replies to the ListPipelineExecutions commands;
- the map of notification updates the sink rejects, with their error messages. Logger call number k performs update k.

A logger call is awaited in the source, so a rejected update throws inside `pipelineMonitor`. The one exception is line 66, whose call is not awaited. When the script has no reply for the next command, the run ends with `ScriptEnded`, and nothing is claimed about it.

`Date.now()` is a parameter `clock: nat -> nat`: its k-th reading is `clock(k)`. The clock is not assumed to be increasing. Two logger calls that read the same time therefore write the same key (`ActionProperties.KeyCollision`).

The case label `PipelineExecutionStatus.Stopping || PipelineExecutionStatus.Stopped` (src/aws.js:114) is a JavaScript `||` on two non-empty strings, so it is the label `"Stopping"` alone. A `Stopped` status therefore reaches the `default` branch and logs "Unexpected pipeline status: Stopped". The model follows the code (`MonitorProperties.StoppedLabelQuirk`). Both branches return false after one error event, so the outcome is the same; only the message differs.

## Model

| member | source | states |
|---|---|---|
| Aws.Trigger | src/aws.js:23-33 | the start reply's execution id is returned exactly when it is present and non-empty; otherwise "No Execution ID" is thrown, and a client failure is passed on |
| Aws.Truthy | src/aws.js:28 | the `!x` tests on an optional string: present and non-empty; used by Trigger, TurnOf and NewestExecutionId |
| Aws.Or | src/aws.js:114 | the JavaScript "or" of two strings: the first when it is non-empty, else the second; so the case label of line 114 is "Stopping" alone (StoppedLabelQuirk) |
| Aws.ErrorMessage | src/aws.js:29-159 | the `message` of each error: "No Execution ID", "Newest pipeline execution of '…' has no ID", "No Pipeline executions found", or the client's or sink's own message; it is what `setFailed` reports for an aborted run |
| Aws.Dots | src/aws.js:72 | `".".repeat(n)`: exactly n characters, every one a dot |
| Aws.Text | src/aws.js:66-128 | the wording of the ten messages the monitor logs; InProgressTurn states the "running" message with its dots |
| Aws.ResolverRequest | src/aws.js:141-144 | the resolver asks for the executions of the named pipeline with at most one result |
| Aws.NewestExecutionId | src/aws.js:140-160 | the first summary's id when it is non-empty; "Newest pipeline execution of '…' has no ID" when that id is missing; "No Pipeline executions found" when the summaries are absent or empty; a client failure passed on |
| Aws.Classify | src/aws.js:70-123 | InProgress (and only it) keeps polling; Cancelled (and only it) follows the newest execution; a concluded status is true exactly for Succeeded and Superseded, and exactly when its event is not an error; a non-concluding status logs at info |
| Aws.TurnOf | src/aws.js:57-123 | one call's try block up to its nested call; a call that recurses on a resolved id has used a list reply; what a turn does is stated by TurnOfShape and TurnOfReplies |
| Aws.Catch | src/aws.js:124-130 | the catch block: when the body threw, one error event naming the pipeline and the call's execution, then the same error again unless that event's update is rejected; MonitorStep and Unwound state it |
| Aws.Monitor | src/aws.js:45-131 | pipelineMonitor as nested calls, each inside its caller's try block; every MonitorProperties lemma is stated of it, and PipelineMonitor is proved equal to it |
| Aws.Continue | src/aws.js:62-130 | a call once its turn is known: the nested call if any, then the call's own catch block; MonitorStep states the split |
| Aws.TurnOfShape | src/aws.js:57-123 | one call sends a single poll, possibly followed by one resolver request; it logs at most two events; it returns a value only after one event whose level tells the value; InProgress recurses on the same id with tick+1 after "running" with `tick` dots; Cancelled recurses on the resolved newest id with tick 0 after the two info events |
| Aws.TurnOfReplies | src/aws.js:62-123 | which reply gives which turn: a failed poll throws the client's error with nothing logged; a missing status returns false after its event whatever the sink does; an awaited logger call whose update is rejected throws the sink's error right after its event (the status event, or the new-id event on Cancelled); a resolver failure is thrown after the cancellation event; a resolver request is sent exactly when the status is Cancelled and its event's update is accepted |
| Aws.CloseCatch | src/aws.js:62-130 | entering a nested call inside the caller's try block pushes the caller onto the stack of open catch blocks, without changing the run |
| Aws.ResumeIsMonitor | src/aws.js:45-131 | the loop over (execution id, tick) with an explicit stack of open try blocks produces exactly the run of the nested recursive calls |
| Aws.Unwound | src/aws.js:124-130 | leaving one catch block logs its error event naming that call's execution; the logger's own rejection replaces the error |
| Aws.Poll | src/aws.js:57-123 | one poll, its classification, its events and the resolver call, as TurnOf describes them |
| Aws.Rethrow | src/aws.js:124-130 | the catch blocks of all open calls run innermost first, each logging and rethrowing |
| Aws.Follow | src/aws.js:45-123 | the polling loop stops at the first call that makes no nested call, leaving exactly the right calls' try blocks open |
| Aws.PipelineMonitor | src/aws.js:45-131 | the iterative monitor returns exactly the events, commands and outcome of the recursive pipelineMonitor |
| MonitorProperties.MonitorStep | src/aws.js:62-130 | a call's run is its own turn followed by its nested call's run; when an error escapes, that call's catch event comes after them |
| MonitorProperties.ConcludingStatuses | src/aws.js:102-122 | Succeeded returns true after an info event; Superseded returns true after a warning event; Failed and every unnamed status return false after an error event |
| MonitorProperties.StoppedLabelQuirk | src/aws.js:114-122 | Stopping logs "pipeline: stopped"; Stopped falls to the default branch as an unexpected status; both return false |
| MonitorProperties.InProgressTurn | src/aws.js:71-79 | InProgress logs "pipeline: running" followed by exactly `tick` dots at info, then polls the same execution with tick+1 |
| MonitorProperties.ConcludeTurn | src/aws.js:102-122 | a terminal status logs the switch's one event and returns its value without another poll |
| MonitorProperties.ReturnedLastEvent | src/aws.js:65-123 | a monitor that returns a value has logged at least one event, and the last one is an error exactly when the value is false |
| MonitorProperties.ThrewTrail | src/aws.js:62-130 | when an error escapes, the run ends with one catch event per poll made, innermost first, the last naming the execution the monitor started with |
| MonitorProperties.InProgressThenConclude | src/aws.js:71-79 | n InProgress replies then a terminal one: n "running" events with 0, 1, … dots, then the terminal event; n+1 polls of the same id; the terminal value |
| MonitorProperties.CancelledSwitches | src/aws.js:81-99 | Cancelled logs the cancellation, asks for one summary, logs the new id, and polls the new id from tick 0 inside the caller's try block |
| MonitorProperties.CancelledUnresolvable | src/aws.js:81-89 | Cancelled with no executions left throws "No Pipeline executions found" after the catch block has logged; nothing more is polled |
| MonitorProperties.MissingStatus | src/aws.js:65-68 | no execution, no status or an empty status logs "pipeline: unable to fetch status" at error and returns false with no further poll, even when the sink rejects |
| MonitorProperties.ClientErrorRethrown | src/aws.js:124-130 | a client error logs the event naming the pipeline and execution, then is rethrown unchanged |
| MonitorProperties.SinkRejectionRethrown | src/aws.js:103-130 | a rejected update of an awaited logger call throws the sink's error after that event and the catch event, with no further poll; the catch event's own rejection replaces it |
| MonitorProperties.SucceededButRejected | src/aws.js:102-104 | Succeeded whose event's update is rejected throws the sink's error instead of returning true |
| MonitorProperties.ResolverFailureRethrown | src/aws.js:81-89 | any resolver failure (client error, no summaries, an empty list, a summary without an id) is thrown after the cancellation event and the catch event, with no further poll |
| MonitorProperties.Escaping | src/aws.js:62-130 | follows the nested calls to the one that stops and takes the error it throws from its try block; without rejected updates that error is never the sink's |
| MonitorProperties.InnermostErrorEscapes | src/aws.js:124-130 | the monitor throws exactly when some nested call throws from its try block, and that call's error gets out of every enclosing call unchanged unless a catch block's update is rejected |
| MonitorProperties.NoRejectionNoSinkFailure | src/aws.js:124-130 | with no rejected update, what the monitor throws is the innermost call's client or resolver error, never the sink's |
| MonitorProperties.NestedClientError | src/aws.js:71-79 | InProgress then a failed poll: one "running" event, two catch events naming the execution, and the client's error thrown unchanged |
| MonitorProperties.IdChangesOnlyAfterResolve | src/aws.js:73-99 | the first poll is of the starting id, and two consecutive polls name the same execution unless a resolver request lies between them |
| MonitorProperties.RequestsNamePipeline | src/aws.js:57-60 | every command names the monitored pipeline, and every resolver request asks for a single result |
| MonitorProperties.PollsBoundedByScript | src/aws.js:45-131 | the monitor polls at most once per scripted reply |
| Action.ColorFor | src/index.js:60-75 | info gives grey, error red, warning yellow, each exactly; any other level leaves the colour unchanged |
| Action.TriggerText | src/index.js:39-41 | the trigger message "pipeline: '…' triggered, executionId: …"; NoWaiting and Posts state it is the record's only message before monitoring |
| Action.Keys | src/index.js:58 | the clock readings of the logger calls, one per call, the k-th being reading 1+k; reading 0 is the trigger message's and reading 1+n the "Successful" entry's |
| Action.Logged | src/index.js:57-75 | one logger call on the record: its message under its time and the colour of its level; ReplayLastWrite, ReplayColor and ReplayKeepsIds state what it does |
| Action.Replay | src/index.js:57-78 | the record after the logger calls in order; stated by ReplayColor, ReplayKeys, ReplayUntouched, ReplayLastWrite and ReplayKeepsIds |
| Action.Updates | src/index.js:77 | one update per logger call, each carrying the changed record; stated by UpdateAfterEachCall and UpdatesKeepId |
| Action.Monitored | src/index.js:49-87 | the monitor with the logger callback, then the final block; stated by Posts, UnsuccessfulIsRed and SuccessIsGreen |
| Action.Perform | src/index.js:10-97 | the action from the trigger on; stated by NoWaiting, NoExecutionIdAborts, CreateRejected, Posts and IdNotTracked |
| Action.Slack.constructor | src/index.js:11 | the record starts grey with no messages and no pipeline fields |
| Action.Slack.Record | src/index.js:39-41 | writes one message under its key and changes nothing else |
| Action.Slack.Track | src/index.js:44-45 | records the pipeline name and the triggered execution id and changes nothing else |
| Action.Slack.Open | src/index.js:46 | posts the record as it is, as the created message |
| Action.Slack.Log | src/index.js:57-78 | stores the message under the current time, sets the colour of the event's level, then posts one update carrying the changed record |
| Action.Slack.LogAll | src/index.js:57-78 | the logger callback once per event, in order: the record becomes Replay of the events and exactly one update per event is posted |
| Action.Slack.Succeed | src/index.js:84-86 | green, a "Successful" entry under the current time, and one more update |
| Action.MonitorAndReport | src/index.js:49-87 | monitoring on the record ends, sends and posts exactly as the value-level Monitored says, and a completed run outputs the record |
| Action.RunAction | src/index.js:10-97 | the whole action on a fresh record ends, sends and posts exactly as Perform says, and a completed run outputs the record |
| ActionProperties.ReplayColor | src/index.js:60-75 | after the logger calls the colour is the one the last call's level gives |
| ActionProperties.ReplayKeys | src/index.js:58 | the record's keys are the old keys plus the time of every logger call |
| ActionProperties.ReplayUntouched | src/index.js:58 | a key no logger call writes keeps its message |
| ActionProperties.ReplayLastWrite | src/index.js:58 | a logger call's message is kept unless a later call has the same time |
| ActionProperties.KeyCollision | src/index.js:58 | two calls at the same time leave only the second message and add one entry |
| ActionProperties.ReplayKeepsIds | src/index.js:44-45 | the logger callback never changes the recorded pipeline or execution |
| ActionProperties.UpdateAfterEachCall | src/index.js:77 | the i-th update carries the record after the first i+1 logger calls |
| ActionProperties.LastUpdate | src/index.js:77 | the last update carries the record after all the calls |
| ActionProperties.UpdatesKeepId | src/index.js:44-45 | every update names the execution the record started with |
| ActionProperties.NoWaiting | src/index.js:39-46 | without wait_completion nothing is posted, the monitor sends nothing, and the record is grey with only the trigger message and no pipeline fields |
| ActionProperties.NoExecutionIdAborts | src/index.js:35 | a start without an id aborts with "No Execution ID" before anything is recorded or posted |
| ActionProperties.CreateRejected | src/index.js:43-46 | a rejected create aborts with the sink's message; the create was sent with the grey tracked record, and the monitor sends nothing |
| ActionProperties.Posts | src/index.js:43-87 | the created message carries the grey record with the trigger message and the triggered execution; then one update per logger call follows, plus one more exactly when the monitor returned true |
| ActionProperties.IdNotTracked | src/index.js:44-45 | every post and the output name the triggered execution, even after the monitor switched to a newer one |
| ActionProperties.UnsuccessfulIsRed | src/index.js:81-82 | a false outcome fails with "Execution was unsuccessful." and leaves the record red, exactly as the last update carried it |
| ActionProperties.FalseOnlyFails | src/index.js:81-82 | after a false outcome the end is "Execution was unsuccessful." with the record the logger calls left, and the posts are exactly their updates |
| ActionProperties.MonitoredFailure | src/index.js:81-82 | from any record, a false outcome only fails the action: the output is the record the logger calls left, red, carried by the last update, and nothing more is posted |
| ActionProperties.MonitoredSuccess | src/index.js:83-86 | from any record, a run that completes without failure came from a true outcome, is green with "Successful" at the time after the last logger call, and its last post carries that record |
| ActionProperties.SuccessIsGreen | src/index.js:81-87 | a completed run without failure came from a true outcome and leaves the record green, with "Successful" at the time after the last logger call; the last post carries that record |

## Left out

- src/slack.js is not part of this model. Creating and updating the message are opaque sink calls, and the model records the record each call sent. Whether the create fails is a parameter; which updates fail comes from the script. Credential validation and message formatting are not modelled.
- The 20-second wait before each poll (src/aws.js:52-55) is wall-clock timing. Each nested call is one poll.
- The AWS SDK client and its command objects are replaced by the scripted replies.
- Polling is unbounded in the source. Here it stops when the script runs out (`ScriptEnded`, or `Unfinished` for the action), and no termination of the source is claimed.
- async/await is not modelled. `MonitorAndReport` applies the logger calls after the monitor has returned. This is sound because the monitor's control flow does not read the record; it depends only on which updates the sink rejects, and the script fixes those.
- @actions/core is not modelled: input reading, console logging, `setOutput`, the token/channel check at src/index.js:19-21 and credential validation at lines 23-26. `setFailed` is the `failure` or `Aborted` message of `Action.End`.
- `Date.now()` is the `clock` parameter; real time is not modelled.
- Aws.TurnOf: its own contract states only what Continue needs; what a turn does is stated by Aws.TurnOfShape and Aws.TurnOfReplies.
- The logger call at src/aws.js:66 is not awaited. If its update is rejected, the rejection is unhandled, and on Node 15 or later with default settings the process ends with an error after the monitor has returned false. The model ignores that rejection: the monitor returns false, and the action ends `Completed(Some("Execution was unsuccessful."), …)`.
