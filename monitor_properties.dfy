/** What pipelineMonitor (src/aws.js:45-131) promises about its outcome, the
    events it logs and the commands it sends, stated of Aws.Monitor.

    Every inductive proof here goes through MonitorStep, which splits one
    call of the monitor into its own turn and its nested call, and a small
    lemma about those parts alone. */
module MonitorProperties {
  import opened Wrappers
  import opened Aws

  /** The execution ids polled by the GetPipelineExecution commands, in order. */
  function Polled(requests: seq<Request>): (ids: seq<string>)
    ensures |ids| <= |requests|
  {
    if requests == [] then []
    else (if requests[0].GetExecution? then [requests[0].pipelineExecutionId] else []) + Polled(requests[1..])
  }

  lemma {:induction false} PolledAppend(a: seq<Request>, b: seq<Request>)
    ensures Polled(a + b) == Polled(a) + Polled(b)
    decreases |a|
  {
    if a == [] {
      assert a + b == b;
    } else {
      assert (a + b)[0] == a[0] && (a + b)[1..] == a[1..] + b;
      PolledAppend(a[1..], b);
      var head := if a[0].GetExecution? then [a[0].pipelineExecutionId] else [];
      assert Polled(a + b) == head + (Polled(a[1..]) + Polled(b));
    }
  }

  /** The commands of one turn: a poll, maybe followed by a resolver request. */
  ghost predicate OnePoll(pipelineName: string, id: string, qs: seq<Request>) {
    qs == [GetExecution(pipelineName, id)] || qs == [GetExecution(pipelineName, id), ResolverRequest(pipelineName)]
  }

  lemma PolledOnePoll(pipelineName: string, id: string, qs: seq<Request>, more: seq<Request>)
    requires OnePoll(pipelineName, id, qs)
    ensures Polled(qs + more) == [id] + Polled(more)
  {
    PolledAppend(qs, more);
    if |qs| == 2 {
      assert qs[1..][1..] == [];
    }
  }

  /** How the run `r` of one call is made of its turn and of `inner`, the run
      of its nested call (empty when the turn stops), as the try block and
      catch block of src/aws.js:62-130 put them together. */
  ghost predicate Level(pipelineName: string, id: string, turn: Turn, inner: Run, r: Run) {
    && OnePoll(pipelineName, id, turn.requests)
    && (turn.Stop? ==> inner == Run([], [], turn.outcome))
    && (turn.Stop? && turn.outcome.Returned? ==>
          |turn.events| == 1 && (turn.outcome.ok <==> turn.events[0].level != Error))
    && (turn.Recurse? && !turn.resolved ==> turn.nextId == id && turn.requests == [GetExecution(pipelineName, id)])
    && (turn.Recurse? && turn.resolved ==> turn.requests == [GetExecution(pipelineName, id), ResolverRequest(pipelineName)])
    && r.requests == turn.requests + inner.requests
    && (r.outcome.Threw? <==> inner.outcome.Threw?)
    && (!inner.outcome.Threw? ==> r.events == turn.events + inner.events && r.outcome == inner.outcome)
    && (inner.outcome.Threw? ==> r.events == turn.events + inner.events + [CatchEvent(pipelineName, id)])
  }

  /** One call of the monitor splits into its turn and its nested call. */
  lemma MonitorStep(pipelineName: string, id: string, tick: nat, polls: seq<GetReply>,
                    lists: seq<ListReply>, failedUpdates: map<nat, string>, logged: nat)
      returns (turn: Turn, inner: Run)
    requires polls != []
    ensures turn == TurnOf(pipelineName, id, tick, polls[0], lists, failedUpdates, logged)
    ensures turn.Recurse? ==>
              && (turn.resolved ==> lists != [])
              && inner == Monitor(pipelineName, turn.nextId, turn.nextTick, polls[1..],
                                  if turn.resolved then lists[1..] else lists, failedUpdates, logged + |turn.events|)
    ensures Level(pipelineName, id, turn, inner, Monitor(pipelineName, id, tick, polls, lists, failedUpdates, logged))
    ensures inner.outcome.Threw? ==>
              var k := logged + |turn.events| + |inner.events|;
              Monitor(pipelineName, id, tick, polls, lists, failedUpdates, logged).outcome
                == Threw(if k in failedUpdates then SinkFailure(failedUpdates[k]) else inner.outcome.error)
  {
    turn := TurnOf(pipelineName, id, tick, polls[0], lists, failedUpdates, logged);
    TurnOfShape(pipelineName, id, tick, polls[0], lists, failedUpdates, logged);
    assert Monitor(pipelineName, id, tick, polls, lists, failedUpdates, logged)
        == Continue(pipelineName, id, turn, polls[1..], lists, failedUpdates, logged);
    if turn.Stop? {
      inner := Run([], [], turn.outcome);
      assert turn.events + [] == turn.events && turn.requests + [] == turn.requests;
    } else {
      inner := Monitor(pipelineName, turn.nextId, turn.nextTick, polls[1..],
                       if turn.resolved then lists[1..] else lists, failedUpdates, logged + |turn.events|);
    }
  }

  /** Logging an InProgress observation for each tick from `tick` on. */
  function RunningEvents(tick: nat, n: nat): (evs: seq<Event>)
    ensures |evs| == n
    ensures forall i | 0 <= i < n :: evs[i] == Event(Running(tick + i), Info)
    decreases n
  {
    if n == 0 then [] else [Event(Running(tick), Info)] + RunningEvents(tick + 1, n - 1)
  }

  /** `n` polls of the same execution. */
  function Polls(pipelineName: string, id: string, n: nat): (qs: seq<Request>)
    ensures |qs| == n
    ensures forall i | 0 <= i < n :: qs[i] == GetExecution(pipelineName, id)
  {
    if n == 0 then [] else [GetExecution(pipelineName, id)] + Polls(pipelineName, id, n - 1)
  }

  /** A poll reply carrying `status`. */
  function Reply(status: string): GetReply {
    Got(Some(Execution(Some(status))))
  }

  /** The terminal statuses: Succeeded returns true after an info event,
      Superseded after a warning event; Failed, Stopping and any status the
      switch does not name return false after an error event. */
  lemma ConcludingStatuses(tick: nat, status: string)
    ensures Classify(Succeeded, tick) == Conclude(Event(PipelineSucceeded, Info), true)
    ensures Classify(Superseded, tick) == Conclude(Event(PipelineSuperseded, Warning), true)
    ensures Classify(Failed, tick) == Conclude(Event(PipelineFailed, Error), false)
    ensures status !in {InProgress, Cancelled, Succeeded, Superseded, Failed, Stopping} ==>
              Classify(status, tick) == Conclude(Event(UnexpectedStatus(status), Error), false)
  {
  }

  /** The Stopping || Stopped label: Stopping is reported as stopped, while
      Stopped reaches the default branch as an unexpected status. */
  lemma StoppedLabelQuirk(tick: nat)
    ensures Classify(Stopping, tick) == Conclude(Event(PipelineStopped, Error), false)
    ensures Classify(Stopped, tick) == Conclude(Event(UnexpectedStatus(Stopped), Error), false)
  {
  }

  /** An InProgress reply logs one "running" event with `tick` dots and polls
      the same execution again with the next tick. */
  lemma InProgressTurn(pipelineName: string, id: string, tick: nat, lists: seq<ListReply>,
                       failedUpdates: map<nat, string>, logged: nat)
    requires logged !in failedUpdates
    ensures TurnOf(pipelineName, id, tick, Reply(InProgress), lists, failedUpdates, logged)
         == Recurse([Event(Running(tick), Info)], [GetExecution(pipelineName, id)], id, tick + 1, false)
    ensures Text(Running(tick)) == "pipeline: running" + Dots(tick)
  {
  }

  /** A terminal status logs the one event the status switch chooses and
      returns its value without another poll. */
  lemma ConcludeTurn(pipelineName: string, id: string, tick: nat, status: string, lists: seq<ListReply>,
                     failedUpdates: map<nat, string>, logged: nat)
    requires status != "" && status != InProgress && status != Cancelled
    requires logged !in failedUpdates
    ensures var d := Classify(status, tick);
            TurnOf(pipelineName, id, tick, Reply(status), lists, failedUpdates, logged)
              == Stop([d.event], [GetExecution(pipelineName, id)], Returned(d.ok))
  {
  }

  /** A run that returns a value ends with an event whose level tells the value. */
  ghost predicate LastEventTellsOutcome(r: Run) {
    r.outcome.Returned? ==> r.events != [] && (r.outcome.ok <==> r.events[|r.events| - 1].level != Error)
  }

  lemma LastEventStep(pipelineName: string, id: string, turn: Turn, inner: Run, r: Run)
    requires Level(pipelineName, id, turn, inner, r)
    requires turn.Recurse? ==> LastEventTellsOutcome(inner)
    ensures LastEventTellsOutcome(r)
  {
    if r.outcome.Returned? {
      if turn.Stop? {
        assert r.events == turn.events + [];
      } else {
        assert r.events[|r.events| - 1] == inner.events[|inner.events| - 1];
      }
    }
  }

  /** A call that returns a value logs at least one event, and the last one
      is an error exactly when the value is false. */
  lemma {:induction false} ReturnedLastEvent(pipelineName: string, id: string, tick: nat, polls: seq<GetReply>,
                                              lists: seq<ListReply>, failedUpdates: map<nat, string>, logged: nat)
    ensures LastEventTellsOutcome(Monitor(pipelineName, id, tick, polls, lists, failedUpdates, logged))
    decreases |polls|
  {
    if polls != [] {
      var turn, inner := MonitorStep(pipelineName, id, tick, polls, lists, failedUpdates, logged);
      if turn.Recurse? {
        ReturnedLastEvent(pipelineName, turn.nextId, turn.nextTick, polls[1..],
                          if turn.resolved then lists[1..] else lists, failedUpdates, logged + |turn.events|);
      }
      LastEventStep(pipelineName, id, turn, inner, Monitor(pipelineName, id, tick, polls, lists, failedUpdates, logged));
    }
  }

  /** The run ends with one catch event per poll it made, innermost first. */
  ghost predicate EndsWithTrail(pipelineName: string, r: Run) {
    var ids := Polled(r.requests);
    ids != [] && |ids| <= |r.events| && r.events[|r.events| - |ids|..] == CatchTrail(pipelineName, ids)
  }

  /** The i-th catch event of a trail is logged by the i-th call from the inside. */
  lemma {:induction false} CatchTrailAt(pipelineName: string, ids: seq<string>, i: nat)
    requires i < |ids|
    ensures CatchTrail(pipelineName, ids)[i] == CatchEvent(pipelineName, ids[|ids| - 1 - i])
    decreases |ids|
  {
    if i > 0 {
      CatchTrailAt(pipelineName, ids[..|ids| - 1], i - 1);
    }
  }

  lemma CatchTrailOuter(pipelineName: string, id: string, ids: seq<string>)
    ensures CatchTrail(pipelineName, [id] + ids) == CatchTrail(pipelineName, ids) + [CatchEvent(pipelineName, id)]
  {
    var t, u := CatchTrail(pipelineName, [id] + ids), CatchTrail(pipelineName, ids) + [CatchEvent(pipelineName, id)];
    assert |t| == |u|;
    forall i | 0 <= i < |t| ensures t[i] == u[i] {
      CatchTrailAt(pipelineName, [id] + ids, i);
      if i < |ids| {
        CatchTrailAt(pipelineName, ids, i);
        assert ([id] + ids)[|ids| - i] == ids[|ids| - 1 - i];
      }
    }
  }

  /** If the run threw, it ends with its catch trail and its first poll was of `id`. */
  ghost predicate TrailIfThrew(pipelineName: string, id: string, r: Run) {
    r.outcome.Threw? ==> EndsWithTrail(pipelineName, r) && Polled(r.requests)[0] == id
  }

  lemma ThrewTrailStep(pipelineName: string, id: string, turn: Turn, inner: Run, r: Run)
    requires Level(pipelineName, id, turn, inner, r)
    requires turn.Recurse? ==> TrailIfThrew(pipelineName, turn.nextId, inner)
    ensures TrailIfThrew(pipelineName, id, r)
  {
    if r.outcome.Threw? {
      PolledOnePoll(pipelineName, id, turn.requests, inner.requests);
      var last := CatchEvent(pipelineName, id);
      if turn.Stop? {
        assert Polled(r.requests) == [id] + [];
        assert CatchTrail(pipelineName, [id]) == [last] + CatchTrail(pipelineName, []);
        assert r.events[|r.events| - 1..] == [last];
      } else {
        var innerIds := Polled(inner.requests);
        CatchTrailOuter(pipelineName, id, innerIds);
        assert r.events[|r.events| - |[id] + innerIds|..] == inner.events[|inner.events| - |innerIds|..] + [last];
      }
    }
  }

  /** When an error escapes, every call it passed through has logged its
      catch event: the run ends with one error event per poll, innermost
      first, so the last one names the execution the monitor started with. */
  lemma {:induction false} ThrewTrail(pipelineName: string, id: string, tick: nat, polls: seq<GetReply>,
                                      lists: seq<ListReply>, failedUpdates: map<nat, string>, logged: nat)
    ensures TrailIfThrew(pipelineName, id, Monitor(pipelineName, id, tick, polls, lists, failedUpdates, logged))
    decreases |polls|
  {
    if polls != [] {
      var turn, inner := MonitorStep(pipelineName, id, tick, polls, lists, failedUpdates, logged);
      if turn.Recurse? {
        ThrewTrail(pipelineName, turn.nextId, turn.nextTick, polls[1..],
                   if turn.resolved then lists[1..] else lists, failedUpdates, logged + |turn.events|);
      }
      ThrewTrailStep(pipelineName, id, turn, inner, Monitor(pipelineName, id, tick, polls, lists, failedUpdates, logged));
    }
  }

  /** `n` InProgress replies then a reply that ends the monitor. Each
      InProgress logs "pipeline: running" with one more dot and polls the
      same execution again; nothing is polled afterwards. */
  lemma {:induction false} InProgressThenConclude(pipelineName: string, id: string, tick: nat, n: nat, status: string,
                                                  rest: seq<GetReply>, lists: seq<ListReply>,
                                                  failedUpdates: map<nat, string>, logged: nat)
    requires status != "" && status != InProgress && status != Cancelled
    requires forall k | logged <= k <= logged + n :: k !in failedUpdates
    ensures var polls := seq(n, _ => Reply(InProgress)) + [Reply(status)] + rest;
            var d := Classify(status, tick + n);
            Monitor(pipelineName, id, tick, polls, lists, failedUpdates, logged)
              == Run(RunningEvents(tick, n) + [d.event], Polls(pipelineName, id, n + 1), Returned(d.ok))
    decreases n
  {
    var polls := seq(n, _ => Reply(InProgress)) + [Reply(status)] + rest;
    var d := Classify(status, tick + n);
    var turn, inner := MonitorStep(pipelineName, id, tick, polls, lists, failedUpdates, logged);
    if n > 0 {
      assert polls[0] == Reply(InProgress);
      InProgressTurn(pipelineName, id, tick, lists, failedUpdates, logged);
      assert polls[1..] == seq(n - 1, _ => Reply(InProgress)) + [Reply(status)] + rest;
      InProgressThenConclude(pipelineName, id, tick + 1, n - 1, status, rest, lists, failedUpdates, logged + 1);
      assert RunningEvents(tick, n) + [d.event] == [Event(Running(tick), Info)] + (RunningEvents(tick + 1, n - 1) + [d.event]);
      assert Polls(pipelineName, id, n + 1) == [GetExecution(pipelineName, id)] + Polls(pipelineName, id, n);
    } else {
      assert polls[0] == Reply(status);
      ConcludeTurn(pipelineName, id, tick, status, lists, failedUpdates, logged);
      assert RunningEvents(tick, n) + [d.event] == turn.events + inner.events;
    }
  }

  /** On Cancelled the monitor logs the cancellation, asks for
      the newest execution (one summary), logs the new id, and polls that id
      from tick 0 inside its own try block. */
  lemma CancelledSwitches(pipelineName: string, id: string, tick: nat, rest: seq<GetReply>, newId: string,
                          moreLists: seq<ListReply>, failedUpdates: map<nat, string>, logged: nat)
    requires newId != ""
    requires logged !in failedUpdates && logged + 1 !in failedUpdates
    ensures var lists := [Listed(Some([Summary(Some(newId))]))] + moreLists;
            var inner := Monitor(pipelineName, newId, 0, rest, moreLists, failedUpdates, logged + 2);
            Monitor(pipelineName, id, tick, [Reply(Cancelled)] + rest, lists, failedUpdates, logged)
              == Catch(pipelineName, id, failedUpdates, logged,
                       Run([Event(CanceledTryingNewest, Info), Event(WaitingFor(newId), Info)] + inner.events,
                           [GetExecution(pipelineName, id), ListExecutions(pipelineName, 1)] + inner.requests,
                           inner.outcome))
  {
    var lists := [Listed(Some([Summary(Some(newId))]))] + moreLists;
    var polls := [Reply(Cancelled)] + rest;
    assert polls[0] == Reply(Cancelled) && polls[1..] == rest && lists[0] == Listed(Some([Summary(Some(newId))]));
    assert lists[1..] == moreLists;
    var turn := TurnOf(pipelineName, id, tick, polls[0], lists, failedUpdates, logged);
    assert turn == Recurse([Event(CanceledTryingNewest, Info), Event(WaitingFor(newId), Info)],
                           [GetExecution(pipelineName, id), ListExecutions(pipelineName, 1)], newId, 0, true);
    assert Monitor(pipelineName, id, tick, polls, lists, failedUpdates, logged)
        == Continue(pipelineName, id, turn, rest, lists, failedUpdates, logged);
  }

  /** A Cancelled execution whose pipeline has no executions left: the
      resolver throws, the catch block logs, and nothing more is polled. */
  lemma CancelledUnresolvable(pipelineName: string, id: string, tick: nat, rest: seq<GetReply>,
                              moreLists: seq<ListReply>, logged: nat)
    ensures Monitor(pipelineName, id, tick, [Reply(Cancelled)] + rest, [Listed(Some([]))] + moreLists, map[], logged)
         == Run([Event(CanceledTryingNewest, Info), CatchEvent(pipelineName, id)],
                [GetExecution(pipelineName, id), ListExecutions(pipelineName, 1)], Threw(NoExecutionsFound))
  {
    assert ([Reply(Cancelled)] + rest)[0] == Reply(Cancelled);
  }

  /** An awaited logger call whose update is rejected throws the sink's
      error from the try block: the catch block logs its event and rethrows
      it, or its own rejection when that update is rejected too. */
  lemma SinkRejectionRethrown(pipelineName: string, id: string, tick: nat, reply: GetReply, rest: seq<GetReply>,
                              lists: seq<ListReply>, failedUpdates: map<nat, string>, logged: nat)
    requires HasStatus(reply) && logged in failedUpdates
    ensures Monitor(pipelineName, id, tick, [reply] + rest, lists, failedUpdates, logged)
         == Run([Classify(reply.pipelineExecution.value.status.value, tick).event, CatchEvent(pipelineName, id)],
                [GetExecution(pipelineName, id)],
                Threw(SinkFailure(if logged + 1 in failedUpdates then failedUpdates[logged + 1] else failedUpdates[logged])))
  {
    assert ([reply] + rest)[0] == reply;
    TurnOfReplies(pipelineName, id, tick, reply, lists, failedUpdates, logged);
  }

  /** A succeeded execution whose "succeeded" update is rejected throws the
      sink's error instead of returning true. */
  lemma SucceededButRejected(pipelineName: string, id: string, rest: seq<GetReply>, lists: seq<ListReply>, reason: string)
    ensures Monitor(pipelineName, id, 0, [Reply(Succeeded)] + rest, lists, map[0 := reason], 0)
         == Run([Event(PipelineSucceeded, Info), CatchEvent(pipelineName, id)], [GetExecution(pipelineName, id)],
                Threw(SinkFailure(reason)))
  {
    SinkRejectionRethrown(pipelineName, id, 0, Reply(Succeeded), rest, lists, map[0 := reason], 0);
  }

  /** Whatever way the resolver fails (a client error, no summaries, an
      empty list, a summary without an id), Cancelled throws its error after
      the cancellation event and the catch event; nothing more is polled. */
  lemma ResolverFailureRethrown(pipelineName: string, id: string, tick: nat, rest: seq<GetReply>,
                                lists: seq<ListReply>, logged: nat)
    requires lists != [] && NewestExecutionId(pipelineName, lists[0]).Failure?
    ensures Monitor(pipelineName, id, tick, [Reply(Cancelled)] + rest, lists, map[], logged)
         == Run([Event(CanceledTryingNewest, Info), CatchEvent(pipelineName, id)],
                [GetExecution(pipelineName, id), ListExecutions(pipelineName, 1)],
                Threw(NewestExecutionId(pipelineName, lists[0]).error))
  {
    assert ([Reply(Cancelled)] + rest)[0] == Reply(Cancelled);
    TurnOfReplies(pipelineName, id, tick, Reply(Cancelled), lists, map[], logged);
  }

  /** No execution or no status logs one error event and returns
      false with no further poll, whatever the notification sink does. */
  lemma MissingStatus(pipelineName: string, id: string, tick: nat, reply: GetReply, rest: seq<GetReply>,
                      lists: seq<ListReply>, failedUpdates: map<nat, string>, logged: nat)
    requires reply == Got(None) || reply == Got(Some(Execution(None))) || reply == Got(Some(Execution(Some(""))))
    ensures Monitor(pipelineName, id, tick, [reply] + rest, lists, failedUpdates, logged)
         == Run([Event(UnableToFetchStatus, Error)], [GetExecution(pipelineName, id)], Returned(false))
  {
    assert ([reply] + rest)[0] == reply;
  }

  /** A client error logs the catch event naming the pipeline and
      execution, then is rethrown; no value is returned. */
  lemma ClientErrorRethrown(pipelineName: string, id: string, tick: nat, reason: string, rest: seq<GetReply>,
                            lists: seq<ListReply>, logged: nat)
    ensures Monitor(pipelineName, id, tick, [GetFailed(reason)] + rest, lists, map[], logged)
         == Run([CatchEvent(pipelineName, id)], [GetExecution(pipelineName, id)], Threw(ClientFailure(reason)))
  {
    assert ([GetFailed(reason)] + rest)[0] == GetFailed(reason);
  }

  /** The first command polls `id`, and two consecutive polls name the same
      execution: the id changes only across a request for the newest execution. */
  ghost predicate SameIdBetweenResolves(pipelineName: string, id: string, qs: seq<Request>) {
    && (qs != [] ==> qs[0] == GetExecution(pipelineName, id))
    && forall i | 0 <= i < |qs| - 1 && qs[i].GetExecution? && qs[i + 1].GetExecution? ::
         qs[i].pipelineExecutionId == qs[i + 1].pipelineExecutionId
  }

  lemma SameIdStep(pipelineName: string, id: string, turn: Turn, inner: Run, r: Run)
    requires Level(pipelineName, id, turn, inner, r)
    requires turn.Recurse? ==> SameIdBetweenResolves(pipelineName, turn.nextId, inner.requests)
    ensures SameIdBetweenResolves(pipelineName, id, r.requests)
  {
    var qs, n := r.requests, |turn.requests|;
    forall i | 0 <= i < |qs| - 1 && qs[i].GetExecution? && qs[i + 1].GetExecution?
      ensures qs[i].pipelineExecutionId == qs[i + 1].pipelineExecutionId
    {
      if i >= n {
        assert qs[i] == inner.requests[i - n] && qs[i + 1] == inner.requests[i - n + 1];
      } else if i == n - 1 {
        assert n == 1 && qs[i + 1] == inner.requests[0];
      }
    }
  }

  lemma {:induction false} IdChangesOnlyAfterResolve(pipelineName: string, id: string, tick: nat, polls: seq<GetReply>,
                                                     lists: seq<ListReply>, failedUpdates: map<nat, string>, logged: nat)
    ensures SameIdBetweenResolves(pipelineName, id, Monitor(pipelineName, id, tick, polls, lists, failedUpdates, logged).requests)
    decreases |polls|
  {
    if polls != [] {
      var turn, inner := MonitorStep(pipelineName, id, tick, polls, lists, failedUpdates, logged);
      if turn.Recurse? {
        IdChangesOnlyAfterResolve(pipelineName, turn.nextId, turn.nextTick, polls[1..],
                                  if turn.resolved then lists[1..] else lists, failedUpdates, logged + |turn.events|);
      }
      SameIdStep(pipelineName, id, turn, inner, Monitor(pipelineName, id, tick, polls, lists, failedUpdates, logged));
    }
  }

  /** Every command names the monitored pipeline, and every resolver
      request asks for a single summary. */
  ghost predicate NamesPipeline(pipelineName: string, qs: seq<Request>) {
    forall i | 0 <= i < |qs| :: !qs[i].StartExecution? && qs[i].pipelineName == pipelineName
                                && (qs[i].ListExecutions? ==> qs[i].maxResults == 1)
  }

  lemma NamesPipelineStep(pipelineName: string, id: string, turn: Turn, inner: Run, r: Run)
    requires Level(pipelineName, id, turn, inner, r)
    requires NamesPipeline(pipelineName, inner.requests)
    ensures NamesPipeline(pipelineName, r.requests)
  {
    assert NamesPipeline(pipelineName, turn.requests);
  }

  lemma {:induction false} RequestsNamePipeline(pipelineName: string, id: string, tick: nat, polls: seq<GetReply>,
                                                lists: seq<ListReply>, failedUpdates: map<nat, string>, logged: nat)
    ensures NamesPipeline(pipelineName, Monitor(pipelineName, id, tick, polls, lists, failedUpdates, logged).requests)
    decreases |polls|
  {
    if polls != [] {
      var turn, inner := MonitorStep(pipelineName, id, tick, polls, lists, failedUpdates, logged);
      if turn.Recurse? {
        RequestsNamePipeline(pipelineName, turn.nextId, turn.nextTick, polls[1..],
                             if turn.resolved then lists[1..] else lists, failedUpdates, logged + |turn.events|);
      }
      NamesPipelineStep(pipelineName, id, turn, inner, Monitor(pipelineName, id, tick, polls, lists, failedUpdates, logged));
    }
  }

  /** The run polled at most `n` times. */
  ghost predicate PollsAtMost(r: Run, n: nat) {
    |Polled(r.requests)| <= n
  }

  lemma PollCountStep(pipelineName: string, id: string, turn: Turn, inner: Run, r: Run, n: nat)
    requires Level(pipelineName, id, turn, inner, r)
    requires turn.Recurse? ==> PollsAtMost(inner, n)
    ensures PollsAtMost(r, n + 1)
  {
    PolledOnePoll(pipelineName, id, turn.requests, inner.requests);
  }

  /** One poll per reply of the script at most. */
  lemma {:induction false} PollsBoundedByScript(pipelineName: string, id: string, tick: nat, polls: seq<GetReply>,
                                                lists: seq<ListReply>, failedUpdates: map<nat, string>, logged: nat)
    ensures PollsAtMost(Monitor(pipelineName, id, tick, polls, lists, failedUpdates, logged), |polls|)
    decreases |polls|
  {
    if polls != [] {
      var turn, inner := MonitorStep(pipelineName, id, tick, polls, lists, failedUpdates, logged);
      if turn.Recurse? {
        PollsBoundedByScript(pipelineName, turn.nextId, turn.nextTick, polls[1..],
                             if turn.resolved then lists[1..] else lists, failedUpdates, logged + |turn.events|);
      }
      PollCountStep(pipelineName, id, turn, inner, Monitor(pipelineName, id, tick, polls, lists, failedUpdates, logged), |polls| - 1);
    }
  }

  /** The error the innermost call throws from its try block, and the
      number of logger calls made before its catch block logs. */
  datatype Escape = Escape(error: Error, logged: nat)

  /** Where an error starts: follow the nested calls to the one that stops,
      and take the error it throws, if any. Without rejected updates it is
      never the sink's. */
  function Escaping(pipelineName: string, id: string, tick: nat, polls: seq<GetReply>,
                    lists: seq<ListReply>, failedUpdates: map<nat, string>, logged: nat): (x: Option<Escape>)
    ensures x.Some? ==> logged <= x.value.logged
    ensures x.Some? && failedUpdates == map[] ==> !x.value.error.SinkFailure?
    decreases |polls|
  {
    if polls == [] then None
    else match TurnOf(pipelineName, id, tick, polls[0], lists, failedUpdates, logged)
      case Stop(events, _, outcome) =>
        if outcome.Threw? then Some(Escape(outcome.error, logged + |events|)) else None
      case Recurse(events, _, nextId, nextTick, resolved) =>
        Escaping(pipelineName, nextId, nextTick, polls[1..], if resolved then lists[1..] else lists,
                 failedUpdates, logged + |events|)
  }

  /** The run throws exactly when some call throws from its try block; the
      catch blocks come after that call's logger calls; and when none of
      their updates is rejected, the error escapes unchanged. */
  ghost predicate EscapesUnchanged(r: Run, x: Option<Escape>, failedUpdates: map<nat, string>, logged: nat) {
    && (r.outcome.Threw? <==> x.Some?)
    && (x.Some? ==> x.value.logged <= logged + |r.events|)
    && (x.Some? && (forall k | k in failedUpdates :: k < x.value.logged) ==> r.outcome == Threw(x.value.error))
  }

  lemma EscapeStep(pipelineName: string, id: string, failedUpdates: map<nat, string>, logged: nat,
                   turn: Turn, inner: Run, r: Run, x: Option<Escape>, innerX: Option<Escape>)
    requires Level(pipelineName, id, turn, inner, r)
    requires inner.outcome.Threw? ==>
               var k := logged + |turn.events| + |inner.events|;
               r.outcome == Threw(if k in failedUpdates then SinkFailure(failedUpdates[k]) else inner.outcome.error)
    requires turn.Stop? ==> x == if turn.outcome.Threw? then Some(Escape(turn.outcome.error, logged + |turn.events|)) else None
    requires turn.Recurse? ==> x == innerX && EscapesUnchanged(inner, innerX, failedUpdates, logged + |turn.events|)
    ensures EscapesUnchanged(r, x, failedUpdates, logged)
  {
    if x.Some? && (forall k | k in failedUpdates :: k < x.value.logged) {
      var k := logged + |turn.events| + |inner.events|;
      assert k !in failedUpdates;
    }
  }

  /** The error the innermost call throws gets out of all the calls around it
      unchanged, unless one of their catch blocks' updates is rejected: each
      catch block rethrows what it caught. */
  lemma {:induction false} InnermostErrorEscapes(pipelineName: string, id: string, tick: nat, polls: seq<GetReply>,
                                                 lists: seq<ListReply>, failedUpdates: map<nat, string>, logged: nat)
    ensures EscapesUnchanged(Monitor(pipelineName, id, tick, polls, lists, failedUpdates, logged),
                             Escaping(pipelineName, id, tick, polls, lists, failedUpdates, logged), failedUpdates, logged)
    decreases |polls|
  {
    if polls != [] {
      var turn, inner := MonitorStep(pipelineName, id, tick, polls, lists, failedUpdates, logged);
      var x := Escaping(pipelineName, id, tick, polls, lists, failedUpdates, logged);
      var innerX := None;
      if turn.Recurse? {
        var rest := if turn.resolved then lists[1..] else lists;
        InnermostErrorEscapes(pipelineName, turn.nextId, turn.nextTick, polls[1..], rest, failedUpdates, logged + |turn.events|);
        innerX := Escaping(pipelineName, turn.nextId, turn.nextTick, polls[1..], rest, failedUpdates, logged + |turn.events|);
      }
      EscapeStep(pipelineName, id, failedUpdates, logged, turn, inner,
                 Monitor(pipelineName, id, tick, polls, lists, failedUpdates, logged), x, innerX);
    }
  }

  /** With no rejected update, the monitor throws only the client's or the
      resolver's error, never the sink's, and it is the one the innermost
      call threw. */
  lemma NoRejectionNoSinkFailure(pipelineName: string, id: string, tick: nat, polls: seq<GetReply>,
                                 lists: seq<ListReply>, logged: nat)
    ensures var r := Monitor(pipelineName, id, tick, polls, lists, map[], logged);
            var x := Escaping(pipelineName, id, tick, polls, lists, map[], logged);
            r.outcome.Threw? ==> x.Some? && r.outcome.error == x.value.error && !r.outcome.error.SinkFailure?
  {
    InnermostErrorEscapes(pipelineName, id, tick, polls, lists, map[], logged);
  }

  /** Two levels: InProgress, then a failed poll. The client's error gets
      out unchanged after both calls' catch events, innermost first. */
  lemma NestedClientError(pipelineName: string, id: string, reason: string, rest: seq<GetReply>,
                          lists: seq<ListReply>)
    ensures Monitor(pipelineName, id, 0, [Reply(InProgress), GetFailed(reason)] + rest, lists, map[], 0)
         == Run([Event(Running(0), Info), CatchEvent(pipelineName, id), CatchEvent(pipelineName, id)],
                [GetExecution(pipelineName, id), GetExecution(pipelineName, id)], Threw(ClientFailure(reason)))
  {
    var polls := [Reply(InProgress), GetFailed(reason)] + rest;
    assert polls[0] == Reply(InProgress) && polls[1..] == [GetFailed(reason)] + rest;
    assert polls[1..][0] == GetFailed(reason);
    var outer := Recurse([Event(Running(0), Info)], [GetExecution(pipelineName, id)], id, 1, false);
    assert TurnOf(pipelineName, id, 0, polls[0], lists, map[], 0) == outer;
    var inner := Monitor(pipelineName, id, 1, polls[1..], lists, map[], 1);
    ClientErrorRethrown(pipelineName, id, 1, reason, rest, lists, 1);
    assert inner == Run([CatchEvent(pipelineName, id)], [GetExecution(pipelineName, id)], Threw(ClientFailure(reason)));
    assert Monitor(pipelineName, id, 0, polls, lists, map[], 0) == Continue(pipelineName, id, outer, polls[1..], lists, map[], 0);
  }
}
