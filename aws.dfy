/** The CodePipeline side of the action (src/aws.js): triggering a pipeline,
    resolving its newest execution, and monitoring one execution until it
    reaches a terminal status.

    The CodePipeline client is a scripted oracle: the replies to the
    GetPipelineExecution commands, in the order they are sent, the replies to
    the ListPipelineExecutions commands, and the set of message updates that
    the notification sink rejects (logger call number k performs update k). */
module Aws {
  import opened Wrappers

  /** The logger levels of src/aws.js:9. */
  datatype Level = Info | Error | Warning | Debug

  /** The messages pipelineMonitor logs; Text gives their wording. */
  datatype Note =
    | Running(progressTick: nat)
    | CanceledTryingNewest
    | WaitingFor(newExecutionId: string)
    | PipelineSucceeded
    | PipelineSuperseded
    | PipelineFailed
    | PipelineStopped
    | UnexpectedStatus(status: string)
    | UnableToFetchStatus
    | PollingError(pipelineName: string, pipelineExecutionId: string)

  /** One call of the logger callback: `logger(Text(note), level)`. */
  datatype Event = Event(note: Note, level: Level)

  /** What a call can throw. */
  datatype Error =
    | ClientFailure(reason: string)        // client.send rejected
    | SinkFailure(reason: string)          // the notification update rejected
    | NoExecutionId                        // src/aws.js:29
    | NewestHasNoId(pipelineName: string)  // src/aws.js:151-153
    | NoExecutionsFound                    // src/aws.js:159

  /** The commands sent to the CodePipeline client. */
  datatype Request =
    | StartExecution(name: string)
    | GetExecution(pipelineName: string, pipelineExecutionId: string)
    | ListExecutions(pipelineName: string, maxResults: nat)

  /** Replies of the client to each kind of command. */
  datatype StartReply = StartFailed(reason: string) | Started(pipelineExecutionId: Option<string>)
  datatype Execution = Execution(status: Option<string>)
  datatype GetReply = GetFailed(reason: string) | Got(pipelineExecution: Option<Execution>)
  datatype Summary = Summary(pipelineExecutionId: Option<string>)
  datatype ListReply = ListFailed(reason: string) | Listed(pipelineExecutionSummaries: Option<seq<Summary>>)

  /** The scripted environment of one monitoring session. */
  datatype Script = Script(polls: seq<GetReply>, lists: seq<ListReply>, failedUpdates: map<nat, string>)

  /** How a call of pipelineMonitor ends: a boolean, a thrown error, or the
      script has no reply for the next command (nothing is claimed then). */
  datatype Outcome = Returned(ok: bool) | Threw(error: Error) | ScriptEnded

  /** The logger calls and client commands of a run, in order, and its outcome. */
  datatype Run = Run(events: seq<Event>, requests: seq<Request>, outcome: Outcome)

  /** JavaScript truthiness of an optional string. */
  predicate Truthy(s: Option<string>) {
    s.Some? && s.value != ""
  }

  /** A poll reply with an execution whose status is truthy (src/aws.js:65). */
  predicate HasStatus(reply: GetReply) {
    reply.Got? && reply.pipelineExecution.Some? && Truthy(reply.pipelineExecution.value.status)
  }

  /** JavaScript `a || b` on two strings. */
  function Or(a: string, b: string): (r: string)
    ensures r == a || r == b
    ensures r == "" ==> a == "" && b == ""
  {
    if a != "" then a else b
  }

  // The values of the SDK's PipelineExecutionStatus enumeration.
  const InProgress := "InProgress"
  const Cancelled := "Cancelled"
  const Succeeded := "Succeeded"
  const Superseded := "Superseded"
  const Failed := "Failed"
  const Stopping := "Stopping"
  const Stopped := "Stopped"

  /** The case label `Stopping || Stopped` of src/aws.js:114. */
  const StoppedLabel := Or(Stopping, Stopped)


  /** `".".repeat(n)` */
  function Dots(n: nat): (r: string)
    ensures |r| == n
    ensures forall i | 0 <= i < |r| :: r[i] == '.'
  {
    if n == 0 then "" else Dots(n - 1) + "."
  }

  /** The text of each message (src/aws.js:66, 72, 83, 91, 103, 107, 112, 115, 119, 126). */
  function Text(note: Note): string {
    match note
    case Running(progressTick) => "pipeline: running" + Dots(progressTick)
    case CanceledTryingNewest => "pipeline: canceled. Trying to get new execution ID."
    case WaitingFor(newExecutionId) => "pipeline: waiting for new executionId: '" + newExecutionId + "'"
    case PipelineSucceeded => "pipeline: succeeded"
    case PipelineSuperseded => "pipeline: superseded. Skip rest of the execution"
    case PipelineFailed => "pipeline: failed"
    case PipelineStopped => "pipeline: stopped"
    case UnexpectedStatus(status) => "Unexpected pipeline status: " + status
    case UnableToFetchStatus => "pipeline: unable to fetch status"
    case PollingError(pipelineName, pipelineExecutionId) =>
      "An error occurred while getting the status of pipeline '" + pipelineName
      + "' execution: '" + pipelineExecutionId + "'."
  }

  /** The `message` of each error. */
  function ErrorMessage(e: Error): string {
    match e
    case ClientFailure(reason) => reason
    case SinkFailure(reason) => reason
    case NoExecutionId => "No Execution ID"
    case NewestHasNoId(pipelineName) => "Newest pipeline execution of '" + pipelineName + "' has no ID"
    case NoExecutionsFound => "No Pipeline executions found"
  }

  /** The event a call's catch block logs before rethrowing. */
  function CatchEvent(pipelineName: string, pipelineExecutionId: string): Event {
    Event(PollingError(pipelineName, pipelineExecutionId), Error)
  }

  /** pipelineTrigger: the id of the started execution, or "No Execution ID". */
  function Trigger(reply: StartReply): (r: Result<string, Error>)
    ensures r.Success? <==> reply.Started? && Truthy(reply.pipelineExecutionId)
    ensures r.Success? ==> reply.pipelineExecutionId == Some(r.value) && r.value != ""
    ensures reply.StartFailed? ==> r == Failure(ClientFailure(reply.reason))
    ensures reply.Started? && !Truthy(reply.pipelineExecutionId) ==> r == Failure(NoExecutionId)
  {
    match reply
    case StartFailed(reason) => Failure(ClientFailure(reason))
    case Started(id) => if Truthy(id) then Success(id.value) else Failure(NoExecutionId)
  }

  /** The command pipelineGetNewestExecutionId sends: at most one summary. */
  function ResolverRequest(pipelineName: string): (q: Request)
    ensures q.ListExecutions? && q.pipelineName == pipelineName && q.maxResults == 1
  {
    ListExecutions(pipelineName, 1)
  }

  /** pipelineGetNewestExecutionId, given the client's reply to ResolverRequest. */
  function NewestExecutionId(pipelineName: string, reply: ListReply): (r: Result<string, Error>)
    ensures reply.ListFailed? ==> r == Failure(ClientFailure(reply.reason))
    ensures reply.Listed? && (reply.pipelineExecutionSummaries == None || reply.pipelineExecutionSummaries == Some([])) ==>
              r == Failure(NoExecutionsFound)
    ensures reply.Listed? && reply.pipelineExecutionSummaries.Some? && |reply.pipelineExecutionSummaries.value| > 0 ==>
              var first := reply.pipelineExecutionSummaries.value[0].pipelineExecutionId;
              r == if Truthy(first) then Success(first.value) else Failure(NewestHasNoId(pipelineName))
  {
    match reply
    case ListFailed(reason) => Failure(ClientFailure(reason))
    case Listed(summaries) =>
      if summaries.Some? && |summaries.value| > 0 then
        var executionId := summaries.value[0].pipelineExecutionId;
        if Truthy(executionId) then Success(executionId.value)
        else Failure(NewestHasNoId(pipelineName))
      else Failure(NoExecutionsFound)
  }

  /** What the status switch of pipelineMonitor decides for one status. */
  datatype Decision =
    | KeepPolling(event: Event)          // log, then poll the same execution with the next tick
    | FollowNewest(event: Event)         // log, resolve the newest execution, log it, poll it from tick 0
    | Conclude(event: Event, ok: bool)   // log, then return ok

  /** The `switch (pipelineExecution.status)` of src/aws.js:70-123. */
  function Classify(status: string, progressTick: nat): (d: Decision)
    ensures d.KeepPolling? <==> status == InProgress
    ensures d.FollowNewest? <==> status == Cancelled
    ensures d.Conclude? ==> (d.ok <==> status == Succeeded || status == Superseded)
    ensures d.Conclude? ==> (d.ok <==> d.event.level != Error)
    ensures d.event.level != Debug
    ensures !d.Conclude? ==> d.event.level == Info
  {
    if status == InProgress then KeepPolling(Event(Running(progressTick), Info))
    else if status == Cancelled then FollowNewest(Event(CanceledTryingNewest, Info))
    else if status == Succeeded then Conclude(Event(PipelineSucceeded, Info), true)
    else if status == Superseded then Conclude(Event(PipelineSuperseded, Warning), true)
    else if status == Failed then Conclude(Event(PipelineFailed, Error), false)
    else if status == StoppedLabel then Conclude(Event(PipelineStopped, Error), false)
    else Conclude(Event(UnexpectedStatus(status), Error), false)
  }

  /** What one call of pipelineMonitor does inside its try block before it
      either ends or makes the nested call. */
  datatype Turn =
    | Stop(events: seq<Event>, requests: seq<Request>, outcome: Outcome)
    | Recurse(events: seq<Event>, requests: seq<Request>, nextId: string, nextTick: nat, resolved: bool)

  /** The try block of src/aws.js:62-123 up to the nested call. `logged` is
      the number of logger calls made before; an awaited logger call whose
      update is in `failedUpdates` throws. */
  function TurnOf(pipelineName: string, pipelineExecutionId: string, progressTick: nat,
                  reply: GetReply, lists: seq<ListReply>, failedUpdates: map<nat, string>, logged: nat): (t: Turn)
    ensures t.Recurse? && t.resolved ==> lists != []
  {
    var get := [GetExecution(pipelineName, pipelineExecutionId)];
    match reply
    case GetFailed(reason) => Stop([], get, Threw(ClientFailure(reason)))
    case Got(execution) =>
      if execution.None? || !Truthy(execution.value.status) then
        // this logger call is not awaited: a rejected update is not caught here
        Stop([Event(UnableToFetchStatus, Error)], get, Returned(false))
      else
        var decision := Classify(execution.value.status.value, progressTick);
        if logged in failedUpdates then Stop([decision.event], get, Threw(SinkFailure(failedUpdates[logged])))
        else match decision
          case KeepPolling(event) => Recurse([event], get, pipelineExecutionId, progressTick + 1, false)
          case Conclude(event, ok) => Stop([event], get, Returned(ok))
          case FollowNewest(event) =>
            var list := get + [ResolverRequest(pipelineName)];
            if lists == [] then Stop([event], list, ScriptEnded)
            else match NewestExecutionId(pipelineName, lists[0])
              case Failure(e) => Stop([event], list, Threw(e))
              case Success(newId) =>
                var waiting := Event(WaitingFor(newId), Info);
                if logged + 1 in failedUpdates then Stop([event, waiting], list, Threw(SinkFailure(failedUpdates[logged + 1])))
                else Recurse([event, waiting], list, newId, 0, true)
  }

  /** What one turn can do: it polls once and may ask for the newest
      execution, logs at most two events, returns a value only after one
      event whose level says whether the value is true, and recurses either on
      the same execution with the next tick (InProgress) or on the newest
      execution from tick 0 (Cancelled). */
  lemma TurnOfShape(pipelineName: string, pipelineExecutionId: string, progressTick: nat,
                    reply: GetReply, lists: seq<ListReply>, failedUpdates: map<nat, string>, logged: nat)
    ensures var t := TurnOf(pipelineName, pipelineExecutionId, progressTick, reply, lists, failedUpdates, logged);
            (t.requests == [GetExecution(pipelineName, pipelineExecutionId)] ||
             t.requests == [GetExecution(pipelineName, pipelineExecutionId), ResolverRequest(pipelineName)])
    ensures var t := TurnOf(pipelineName, pipelineExecutionId, progressTick, reply, lists, failedUpdates, logged);
            |t.events| <= 2
    ensures var t := TurnOf(pipelineName, pipelineExecutionId, progressTick, reply, lists, failedUpdates, logged);
            t.Stop? && t.outcome.Returned? ==> |t.events| == 1 && (t.outcome.ok <==> t.events[0].level != Error)
    ensures var t := TurnOf(pipelineName, pipelineExecutionId, progressTick, reply, lists, failedUpdates, logged);
            t.Recurse? ==> |t.events| >= 1 && t.events[0].level == Info
    ensures var t := TurnOf(pipelineName, pipelineExecutionId, progressTick, reply, lists, failedUpdates, logged);
            t.Recurse? && !t.resolved ==> t.nextId == pipelineExecutionId && t.nextTick == progressTick + 1
                                          && t.events == [Event(Running(progressTick), Info)]
                                          && t.requests == [GetExecution(pipelineName, pipelineExecutionId)]
    ensures var t := TurnOf(pipelineName, pipelineExecutionId, progressTick, reply, lists, failedUpdates, logged);
            t.Recurse? && t.resolved ==> lists != [] && t.nextTick == 0
                                         && NewestExecutionId(pipelineName, lists[0]) == Success(t.nextId)
                                         && t.events == [Event(CanceledTryingNewest, Info), Event(WaitingFor(t.nextId), Info)]
                                         && t.requests == [GetExecution(pipelineName, pipelineExecutionId), ResolverRequest(pipelineName)]
  {}

  /** Which reply gives which turn: a failed poll throws the client's error
      with nothing logged; a missing status returns false after its event
      whatever the sink does; an awaited logger call whose update is rejected
      throws the sink's error right after its event; a resolver failure is
      thrown after the cancellation event; and a resolver request is sent
      exactly when the status is Cancelled and its event's update is accepted. */
  lemma TurnOfReplies(pipelineName: string, pipelineExecutionId: string, progressTick: nat,
                      reply: GetReply, lists: seq<ListReply>, failedUpdates: map<nat, string>, logged: nat)
    ensures var t := TurnOf(pipelineName, pipelineExecutionId, progressTick, reply, lists, failedUpdates, logged);
            reply.GetFailed? ==>
              t == Stop([], [GetExecution(pipelineName, pipelineExecutionId)], Threw(ClientFailure(reply.reason)))
    ensures var t := TurnOf(pipelineName, pipelineExecutionId, progressTick, reply, lists, failedUpdates, logged);
            reply.Got? && !HasStatus(reply) ==>
              t == Stop([Event(UnableToFetchStatus, Error)], [GetExecution(pipelineName, pipelineExecutionId)], Returned(false))
    ensures var t := TurnOf(pipelineName, pipelineExecutionId, progressTick, reply, lists, failedUpdates, logged);
            HasStatus(reply) && logged in failedUpdates ==>
              t == Stop([Classify(reply.pipelineExecution.value.status.value, progressTick).event],
                        [GetExecution(pipelineName, pipelineExecutionId)], Threw(SinkFailure(failedUpdates[logged])))
    ensures var t := TurnOf(pipelineName, pipelineExecutionId, progressTick, reply, lists, failedUpdates, logged);
            HasStatus(reply) && reply.pipelineExecution.value.status.value == Cancelled && logged !in failedUpdates
            && lists != [] && NewestExecutionId(pipelineName, lists[0]).Failure? ==>
              t == Stop([Event(CanceledTryingNewest, Info)],
                        [GetExecution(pipelineName, pipelineExecutionId), ResolverRequest(pipelineName)],
                        Threw(NewestExecutionId(pipelineName, lists[0]).error))
    ensures var t := TurnOf(pipelineName, pipelineExecutionId, progressTick, reply, lists, failedUpdates, logged);
            HasStatus(reply) && reply.pipelineExecution.value.status.value == Cancelled && logged !in failedUpdates
            && lists != [] && NewestExecutionId(pipelineName, lists[0]).Success? && logged + 1 in failedUpdates ==>
              t == Stop([Event(CanceledTryingNewest, Info), Event(WaitingFor(NewestExecutionId(pipelineName, lists[0]).value), Info)],
                        [GetExecution(pipelineName, pipelineExecutionId), ResolverRequest(pipelineName)],
                        Threw(SinkFailure(failedUpdates[logged + 1])))
    ensures var t := TurnOf(pipelineName, pipelineExecutionId, progressTick, reply, lists, failedUpdates, logged);
            |t.requests| == 2 <==>
              HasStatus(reply) && reply.pipelineExecution.value.status.value == Cancelled && logged !in failedUpdates
  {
  }

  /** The catch block of src/aws.js:124-130 around a body that started after
      `logged` logger calls: log the error event, then rethrow (the logger's
      own error replaces it when its update is rejected). */
  function Catch(pipelineName: string, pipelineExecutionId: string, failedUpdates: map<nat, string>, logged: nat, body: Run): Run {
    if body.outcome.Threw? then
      var k := logged + |body.events|;
      Run(body.events + [CatchEvent(pipelineName, pipelineExecutionId)], body.requests,
          Threw(if k in failedUpdates then SinkFailure(failedUpdates[k]) else body.outcome.error))
    else body
  }

  /** pipelineMonitor as written: one call per poll reply, each nested call
      inside the try block of its caller. */
  function Monitor(pipelineName: string, pipelineExecutionId: string, progressTick: nat,
                   polls: seq<GetReply>, lists: seq<ListReply>, failedUpdates: map<nat, string>, logged: nat): Run
    decreases |polls|, 1
  {
    if polls == [] then Run([], [], ScriptEnded)
    else Continue(pipelineName, pipelineExecutionId,
                  TurnOf(pipelineName, pipelineExecutionId, progressTick, polls[0], lists, failedUpdates, logged),
                  polls[1..], lists, failedUpdates, logged)
  }

  /** The rest of a call of pipelineMonitor once its turn is known: the nested
      call, if any, then the call's own catch block. */
  function Continue(pipelineName: string, pipelineExecutionId: string, turn: Turn,
                    polls: seq<GetReply>, lists: seq<ListReply>, failedUpdates: map<nat, string>, logged: nat): Run
    requires turn.Recurse? && turn.resolved ==> lists != []
    decreases |polls| + 1, 0
  {
    match turn
    case Stop(events, requests, outcome) =>
      Catch(pipelineName, pipelineExecutionId, failedUpdates, logged, Run(events, requests, outcome))
    case Recurse(events, requests, nextId, nextTick, resolved) =>
      var inner := Monitor(pipelineName, nextId, nextTick, polls, if resolved then lists[1..] else lists,
                           failedUpdates, logged + |events|);
      Catch(pipelineName, pipelineExecutionId, failedUpdates, logged,
            Run(events + inner.events, requests + inner.requests, inner.outcome))
  }

  /** The events the catch blocks of the enclosing calls log while an error
      escapes, innermost first. */
  function CatchTrail(pipelineName: string, ids: seq<string>): (t: seq<Event>)
    ensures |t| == |ids|
  {
    if ids == [] then [] else [CatchEvent(pipelineName, ids[|ids| - 1])] + CatchTrail(pipelineName, ids[..|ids| - 1])
  }

  /** The error that escapes `levels` catch blocks whose logger calls are
      updates k, k+1, ...: the last rejected update, or `e`. */
  function Rethrown(failedUpdates: map<nat, string>, k: nat, levels: nat, e: Error): Error
    decreases levels
  {
    if levels == 0 then e else Rethrown(failedUpdates, k + 1, levels - 1, if k in failedUpdates then SinkFailure(failedUpdates[k]) else e)
  }

  /** The whole run, given the events and requests so far, the ids of the
      calls whose try blocks enclose the current one, and the current call's run. */
  function Close(pipelineName: string, enclosing: seq<string>, failedUpdates: map<nat, string>,
                 events: seq<Event>, requests: seq<Request>, current: Run): Run
  {
    if current.outcome.Threw? then
      Run(events + current.events + CatchTrail(pipelineName, enclosing), requests + current.requests,
          Threw(Rethrown(failedUpdates, |events| + |current.events|, |enclosing|, current.outcome.error)))
    else Run(events + current.events, requests + current.requests, current.outcome)
  }

  lemma CatchTrailPush(pipelineName: string, ids: seq<string>, id: string)
    ensures CatchTrail(pipelineName, ids + [id]) == [CatchEvent(pipelineName, id)] + CatchTrail(pipelineName, ids)
  {
    assert (ids + [id])[..|ids|] == ids;
  }

  /** Entering a nested call pushes the caller onto the stack of enclosing try blocks. */
  lemma CloseCatch(pipelineName: string, enclosing: seq<string>, failedUpdates: map<nat, string>,
                   events: seq<Event>, requests: seq<Request>, id: string,
                   pre: seq<Event>, preRequests: seq<Request>, inner: Run)
    ensures Close(pipelineName, enclosing, failedUpdates, events, requests,
                  Catch(pipelineName, id, failedUpdates, |events|,
                        Run(pre + inner.events, preRequests + inner.requests, inner.outcome)))
         == Close(pipelineName, enclosing + [id], failedUpdates, events + pre, requests + preRequests, inner)
  {
    var body := Run(pre + inner.events, preRequests + inner.requests, inner.outcome);
    assert requests + body.requests == requests + preRequests + inner.requests;
    if inner.outcome.Threw? {
      var k := |events| + |body.events|;
      var e := inner.outcome.error;
      var caught := if k in failedUpdates then SinkFailure(failedUpdates[k]) else e;
      var last := CatchEvent(pipelineName, id);
      assert Catch(pipelineName, id, failedUpdates, |events|, body) == Run(body.events + [last], body.requests, Threw(caught));
      CatchTrailPush(pipelineName, enclosing, id);
      assert events + (body.events + [last]) + CatchTrail(pipelineName, enclosing)
          == events + pre + inner.events + CatchTrail(pipelineName, enclosing + [id]);
      assert |events + pre| + |inner.events| == k;
      assert Rethrown(failedUpdates, k, |enclosing + [id]|, e) == Rethrown(failedUpdates, k + 1, |enclosing|, caught);
    } else {
      assert events + body.events == events + pre + inner.events;
    }
  }

  /** The rest of the run from a poll onwards, when `events` and `requests`
      are already done and the calls in `enclosing` have their try blocks
      open: the loop form of Monitor. */
  function Resume(pipelineName: string, enclosing: seq<string>, failedUpdates: map<nat, string>,
                  events: seq<Event>, requests: seq<Request>, id: string, tick: nat,
                  polls: seq<GetReply>, lists: seq<ListReply>): Run
    decreases |polls|
  {
    if polls == [] then Close(pipelineName, enclosing, failedUpdates, events, requests, Run([], [], ScriptEnded))
    else match TurnOf(pipelineName, id, tick, polls[0], lists, failedUpdates, |events|)
      case Stop(pre, preRequests, outcome) =>
        Close(pipelineName, enclosing + [id], failedUpdates, events + pre, requests + preRequests, Run([], [], outcome))
      case Recurse(pre, preRequests, nextId, nextTick, resolved) =>
        Resume(pipelineName, enclosing + [id], failedUpdates, events + pre, requests + preRequests, nextId, nextTick,
               polls[1..], if resolved then lists[1..] else lists)
  }

  /** The loop form agrees with the nested calls of Monitor. */
  lemma {:induction false} ResumeIsMonitor(pipelineName: string, enclosing: seq<string>, failedUpdates: map<nat, string>,
                                           events: seq<Event>, requests: seq<Request>, id: string, tick: nat,
                                           polls: seq<GetReply>, lists: seq<ListReply>)
    ensures Resume(pipelineName, enclosing, failedUpdates, events, requests, id, tick, polls, lists)
         == Close(pipelineName, enclosing, failedUpdates, events, requests,
                  Monitor(pipelineName, id, tick, polls, lists, failedUpdates, |events|))
    decreases |polls|
  {
    if polls != [] {
      var turn := TurnOf(pipelineName, id, tick, polls[0], lists, failedUpdates, |events|);
      assert Monitor(pipelineName, id, tick, polls, lists, failedUpdates, |events|)
          == Continue(pipelineName, id, turn, polls[1..], lists, failedUpdates, |events|);
      match turn
      case Stop(pre, preRequests, outcome) =>
        assert pre + [] == pre && preRequests + [] == preRequests;
        CloseCatch(pipelineName, enclosing, failedUpdates, events, requests, id, pre, preRequests, Run([], [], outcome));
      case Recurse(pre, preRequests, nextId, nextTick, resolved) =>
        var rest := if resolved then lists[1..] else lists;
        ResumeIsMonitor(pipelineName, enclosing + [id], failedUpdates, events + pre, requests + preRequests,
                        nextId, nextTick, polls[1..], rest);
        var inner := Monitor(pipelineName, nextId, nextTick, polls[1..], rest, failedUpdates, |events + pre|);
        CloseCatch(pipelineName, enclosing, failedUpdates, events, requests, id, pre, preRequests, inner);
    } else {
      assert events + [] == events && requests + [] == requests;
    }
  }

  /** Leaving the innermost enclosing catch block: its event joins the
      prefix and its logger call may replace the error. */
  lemma Unwound(pipelineName: string, enclosing: seq<string>, failedUpdates: map<nat, string>,
                events: seq<Event>, requests: seq<Request>, e: Error)
    requires enclosing != []
    ensures Close(pipelineName, enclosing, failedUpdates, events, requests, Run([], [], Threw(e)))
         == Close(pipelineName, enclosing[..|enclosing| - 1], failedUpdates,
                  events + [CatchEvent(pipelineName, enclosing[|enclosing| - 1])], requests,
                  Run([], [], Threw(if |events| in failedUpdates then SinkFailure(failedUpdates[|events|]) else e)))
  {
    var trail := CatchTrail(pipelineName, enclosing[..|enclosing| - 1]);
    assert events + [] + CatchTrail(pipelineName, enclosing)
        == events + [CatchEvent(pipelineName, enclosing[|enclosing| - 1])] + [] + trail;
  }

  /** One call of pipelineMonitor up to its nested call (src/aws.js:57-123):
      send GetPipelineExecution for `id`, classify the reply, log, and resolve
      the newest execution on Cancelled. `logged` counts the earlier logger
      calls; `lists` holds the list replies not yet used. */
  method Poll(pipelineName: string, id: string, tick: nat, reply: GetReply, lists: seq<ListReply>,
              failedUpdates: map<nat, string>, logged: nat)
    returns (events: seq<Event>, requests: seq<Request>, stopped: bool, outcome: Outcome,
             nextId: string, nextTick: nat, resolved: bool)
    ensures TurnOf(pipelineName, id, tick, reply, lists, failedUpdates, logged)
         == if stopped then Stop(events, requests, outcome) else Recurse(events, requests, nextId, nextTick, resolved)
  {
    requests := [GetExecution(pipelineName, id)];
    events := [];
    stopped, outcome, nextId, nextTick, resolved := true, ScriptEnded, id, tick, false;
    match reply
    case GetFailed(reason) =>
      outcome := Threw(ClientFailure(reason));
    case Got(execution) =>
      if execution.None? || !Truthy(execution.value.status) {
        // not awaited: a rejected update does not reach the catch block
        events := [Event(UnableToFetchStatus, Error)];
        outcome := Returned(false);
        return;
      }
      var decision := Classify(execution.value.status.value, tick);
      events := [decision.event];
      if logged in failedUpdates {
        outcome := Threw(SinkFailure(failedUpdates[logged]));
        return;
      }
      match decision
      case KeepPolling(_) =>
        stopped, nextTick := false, tick + 1;
      case Conclude(_, ok) =>
        outcome := Returned(ok);
      case FollowNewest(_) =>
        requests := requests + [ResolverRequest(pipelineName)];
        if lists == [] {
          return;
        }
        var newest := NewestExecutionId(pipelineName, lists[0]);
        if newest.Failure? {
          outcome := Threw(newest.error);
          return;
        }
        events := events + [Event(WaitingFor(newest.value), Info)];
        if logged + 1 in failedUpdates {
          outcome := Threw(SinkFailure(failedUpdates[logged + 1]));
        } else {
          stopped, nextId, nextTick, resolved := false, newest.value, 0, true;
        }
  }

  /** The catch blocks of the calls in `enclosing` run innermost first
      (src/aws.js:124-130): each logs its error event and rethrows. */
  method Rethrow(pipelineName: string, enclosing: seq<string>, failedUpdates: map<nat, string>,
                 events: seq<Event>, requests: seq<Request>, error: Error)
    returns (trail: seq<Event>, escaped: Error)
    ensures Run(trail, requests, Threw(escaped))
         == Close(pipelineName, enclosing, failedUpdates, events, requests, Run([], [], Threw(error)))
  {
    ghost var target := Close(pipelineName, enclosing, failedUpdates, events, requests, Run([], [], Threw(error)));
    var stack := enclosing;
    trail, escaped := events, error;
    while stack != []
      invariant target == Close(pipelineName, stack, failedUpdates, trail, requests, Run([], [], Threw(escaped)))
      decreases |stack|
    {
      Unwound(pipelineName, stack, failedUpdates, trail, requests, escaped);
      if |trail| in failedUpdates {
        escaped := SinkFailure(failedUpdates[|trail|]);
      }
      trail := trail + [CatchEvent(pipelineName, stack[|stack| - 1])];
      stack := stack[..|stack| - 1];
    }
    assert trail + [] + [] == trail && requests + [] == requests;
  }

  /** The polls of pipelineMonitor (src/aws.js:45-123), its recursion turned
      into a loop over (execution id, tick): stops at the first call that does
      not make a nested call, with the ids of the calls whose try blocks are
      still open, innermost last. */
  method Follow(pipelineName: string, pipelineExecutionId: string, script: Script)
    returns (events: seq<Event>, requests: seq<Request>, enclosing: seq<string>, outcome: Outcome)
    ensures Resume(pipelineName, [], script.failedUpdates, [], [], pipelineExecutionId, 0, script.polls, script.lists)
         == Close(pipelineName, enclosing, script.failedUpdates, events, requests, Run([], [], outcome))
  {
    ghost var target := Resume(pipelineName, [], script.failedUpdates, [], [], pipelineExecutionId, 0, script.polls, script.lists);
    var failedUpdates := script.failedUpdates;
    var id, tick := pipelineExecutionId, 0;
    var p, l := 0, 0;
    events, requests, enclosing := [], [], [];
    var stopped := false;
    outcome := ScriptEnded;
    assert script.polls[0..] == script.polls && script.lists[0..] == script.lists;
    while !stopped && p < |script.polls|
      invariant p <= |script.polls| && l <= |script.lists|
      invariant !stopped ==> target == Resume(pipelineName, enclosing, failedUpdates, events, requests, id, tick,
                                              script.polls[p..], script.lists[l..])
      invariant stopped ==> target == Close(pipelineName, enclosing, failedUpdates, events, requests, Run([], [], outcome))
      decreases |script.polls| - p
    {
      var pre, preRequests, nextId, nextTick, resolved;
      pre, preRequests, stopped, outcome, nextId, nextTick, resolved :=
        Poll(pipelineName, id, tick, script.polls[p], script.lists[l..], failedUpdates, |events|);
      assert script.polls[p..][0] == script.polls[p] && script.polls[p..][1..] == script.polls[p + 1..];
      if !stopped && resolved {
        assert script.lists[l..][1..] == script.lists[l + 1..];
        l := l + 1;
      }
      events, requests := events + pre, requests + preRequests;
      enclosing := enclosing + [id];
      id, tick := nextId, nextTick;
      p := p + 1;
    }
    if !stopped {
      assert script.polls[p..] == [];
      outcome := ScriptEnded;
    }
  }

  /** pipelineMonitor (src/aws.js:45-131): the polls, then, when an error is
      thrown, the catch block of every call it escapes through. */
  method PipelineMonitor(pipelineName: string, pipelineExecutionId: string, script: Script) returns (r: Run)
    ensures r == Monitor(pipelineName, pipelineExecutionId, 0, script.polls, script.lists, script.failedUpdates, 0)
  {
    var events, requests, enclosing, outcome := Follow(pipelineName, pipelineExecutionId, script);
    ResumeIsMonitor(pipelineName, [], script.failedUpdates, [], [], pipelineExecutionId, 0, script.polls, script.lists);
    if outcome.Threw? {
      var error;
      events, error := Rethrow(pipelineName, enclosing, script.failedUpdates, events, requests, outcome.error);
      outcome := Threw(error);
    } else {
      assert events + [] == events && requests + [] == requests;
    }
    r := Run(events, requests, outcome);
  }
}
