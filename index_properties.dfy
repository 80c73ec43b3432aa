/** What the logger callback and the final-outcome block of src/index.js do
    to the `slack` record, stated of Action.Replay and Action.Perform. */
module ActionProperties {
  import opened Wrappers
  import opened Aws
  import opened MonitorProperties
  import opened Action

  /** The colour follows the level of the last logger call; a level the
      switch does not know leaves it as it was. */
  lemma {:induction false} ReplayColor(s: Snapshot, events: seq<Event>, keys: seq<nat>)
    requires |keys| == |events|
    ensures events == [] ==> Replay(s, events, keys).color == s.color
    ensures events != [] && events[|events| - 1].level != Debug ==>
              Replay(s, events, keys).color == ColorFor(events[|events| - 1].level, s.color)
    decreases |events|
  {
    if events != [] {
      var t := Logged(s, keys[0], events[0]);
      ReplayColor(t, events[1..], keys[1..]);
      if |events| > 1 {
        assert events[1..][|events[1..]| - 1] == events[|events| - 1];
      }
    }
  }

  /** The keys of the record grow by exactly the times of the logger calls. */
  lemma {:induction false} ReplayKeys(s: Snapshot, events: seq<Event>, keys: seq<nat>)
    requires |keys| == |events|
    ensures Replay(s, events, keys).messages.Keys == s.messages.Keys + set key | key in keys
    decreases |events|
  {
    if events != [] {
      ReplayKeys(Logged(s, keys[0], events[0]), events[1..], keys[1..]);
      assert (set key | key in keys) == {keys[0]} + set key | key in keys[1..];
    }
  }

  /** A key no logger call uses keeps its message. */
  lemma {:induction false} ReplayUntouched(s: Snapshot, events: seq<Event>, keys: seq<nat>, key: nat)
    requires |keys| == |events|
    requires key in s.messages && key !in keys
    ensures key in Replay(s, events, keys).messages && Replay(s, events, keys).messages[key] == s.messages[key]
    decreases |events|
  {
    if events != [] {
      ReplayUntouched(Logged(s, keys[0], events[0]), events[1..], keys[1..], key);
    }
  }

  /** A logger call's message survives unless a later call has the same time. */
  lemma {:induction false} ReplayLastWrite(s: Snapshot, events: seq<Event>, keys: seq<nat>, k: nat)
    requires |keys| == |events|
    requires k < |events| && keys[k] !in keys[k + 1..]
    ensures keys[k] in Replay(s, events, keys).messages && Replay(s, events, keys).messages[keys[k]] == Text(events[k].note)
    decreases |events|
  {
    var t := Logged(s, keys[0], events[0]);
    if k == 0 {
      ReplayUntouched(t, events[1..], keys[1..], keys[0]);
    } else {
      assert keys[1..][k - 1] == keys[k] && keys[1..][k..] == keys[k + 1..] && events[1..][k - 1] == events[k];
      ReplayLastWrite(t, events[1..], keys[1..], k - 1);
    }
  }

  /** Two logger calls within the same millisecond: the second message
      replaces the first, and only one entry is added. */
  lemma KeyCollision(s: Snapshot, key: nat, first: Event, second: Event)
    requires key !in s.messages
    ensures var t := Replay(s, [first, second], [key, key]);
            t.messages == s.messages[key := Text(second.note)] && |t.messages| == |s.messages| + 1
  {
    var once := Logged(s, key, first);
    var twice := Logged(once, key, second);
    assert [first, second][1..] == [second] && [key, key][1..] == [key];
    assert Replay(s, [first, second], [key, key]) == Replay(once, [second], [key]);
    assert Replay(once, [second], [key]) == Replay(twice, [], []);
    assert twice.messages == s.messages[key := Text(second.note)];
  }

  /** The logger callback never touches the recorded pipeline and execution. */
  lemma {:induction false} ReplayKeepsIds(s: Snapshot, events: seq<Event>, keys: seq<nat>)
    requires |keys| == |events|
    ensures Replay(s, events, keys).pipelineName == s.pipelineName
    ensures Replay(s, events, keys).pipelineExecutionId == s.pipelineExecutionId
    decreases |events|
  {
    if events != [] {
      ReplayKeepsIds(Logged(s, keys[0], events[0]), events[1..], keys[1..]);
    }
  }

  /** Each logger call posts exactly one update, and that update carries the
      record after the call's own change. */
  lemma {:induction false} UpdateAfterEachCall(s: Snapshot, events: seq<Event>, keys: seq<nat>)
    requires |keys| == |events|
    ensures forall i | 0 <= i < |events| :: Updates(s, events, keys)[i] == Update(Replay(s, events[..i + 1], keys[..i + 1]))
    decreases |events|
  {
    if events != [] {
      var t := Logged(s, keys[0], events[0]);
      var u := Updates(s, events, keys);
      UpdateAfterEachCall(t, events[1..], keys[1..]);
      forall i | 0 <= i < |events| ensures u[i] == Update(Replay(s, events[..i + 1], keys[..i + 1])) {
        var e, k := events[..i + 1], keys[..i + 1];
        assert e[0] == events[0] && k[0] == keys[0];
        assert Replay(s, e, k) == Replay(t, e[1..], k[1..]);
        assert u == [Update(t)] + Updates(t, events[1..], keys[1..]);
        if i == 0 {
          assert e[1..] == [] && k[1..] == [];
        } else {
          assert e[1..] == events[1..][..i] && k[1..] == keys[1..][..i];
          assert u[i] == Updates(t, events[1..], keys[1..])[i - 1];
        }
      }
    }
  }

  /** The last update carries the record after all the calls. */
  lemma LastUpdate(s: Snapshot, events: seq<Event>, keys: seq<nat>)
    requires |keys| == |events| && events != []
    ensures Updates(s, events, keys)[|events| - 1] == Update(Replay(s, events, keys))
  {
    UpdateAfterEachCall(s, events, keys);
    assert events[..|events|] == events && keys[..|keys|] == keys;
  }

  /** Without wait_completion nothing is posted, the monitor is not called,
      and the record keeps only the trigger entry, without the pipeline and
      execution fields. */
  lemma NoWaiting(pipelineName: string, start: StartReply, script: Script,
                  createFailure: Option<string>, clock: nat -> nat)
    ensures var a := Perform(pipelineName, false, start, script, createFailure, clock);
            && a.posts == []
            && a.requests == [StartExecution(pipelineName)]
            && (Trigger(start).Success? ==>
                  a.end == Completed(None, Snapshot(Grey, map[clock(0) := TriggerText(pipelineName, Trigger(start).value)], None, None)))
  {
  }

  /** A start without an execution id aborts with "No Execution ID" before
      anything is recorded or posted. */
  lemma NoExecutionIdAborts(pipelineName: string, waitCompletion: bool, script: Script,
                            createFailure: Option<string>, clock: nat -> nat)
    ensures Perform(pipelineName, waitCompletion, Started(None), script, createFailure, clock)
         == ActionRun(Aborted("No Execution ID"), [StartExecution(pipelineName)], [])
  {
  }

  /** A rejected create aborts with the sink's message after the create was
      sent with the tracked record; the monitor is not called. */
  lemma CreateRejected(pipelineName: string, id: string, start: StartReply, script: Script,
                       message: string, clock: nat -> nat)
    requires Trigger(start) == Success(id)
    ensures Perform(pipelineName, true, start, script, Some(message), clock)
         == ActionRun(Aborted(message), [StartExecution(pipelineName)],
                      [Create(Snapshot(Grey, map[clock(0) := TriggerText(pipelineName, id)], Some(pipelineName), Some(id)))])
  {
  }

  /** What monitoring posts: the created message with the trigger entry and
      the triggered execution, then one update per logger call, then one more
      when the execution succeeded; the client sees the start command and
      then the monitor's commands. */
  lemma {:induction false} Posts(pipelineName: string, id: string, start: StartReply, script: Script, clock: nat -> nat)
    requires Trigger(start) == Success(id)
    ensures var a := Perform(pipelineName, true, start, script, None, clock);
            var r := Monitor(pipelineName, id, 0, script.polls, script.lists, script.failedUpdates, 0);
            && a.requests == [StartExecution(pipelineName)] + r.requests
            && |a.posts| == 1 + |r.events| + (if r.outcome == Returned(true) then 1 else 0)
            && a.posts[0] == Create(Snapshot(Grey, map[clock(0) := TriggerText(pipelineName, id)], Some(pipelineName), Some(id)))
            && forall i | 1 <= i < |a.posts| :: a.posts[i].Update?
  {
    var r := Monitor(pipelineName, id, 0, script.polls, script.lists, script.failedUpdates, 0);
    var tracked := Snapshot(Grey, map[clock(0) := TriggerText(pipelineName, id)], Some(pipelineName), Some(id));
    var keys := Keys(clock, 1, |r.events|);
    UpdateAfterEachCall(tracked, r.events, keys);
    var m := Monitored(pipelineName, id, tracked, script, clock);
    assert m.requests == r.requests;
    assert forall i | 0 <= i < |m.posts| :: m.posts[i].Update?;
  }

  /** Every update the logger callback posts names the same execution as the record it started from. */
  lemma {:induction false} UpdatesKeepId(s: Snapshot, events: seq<Event>, keys: seq<nat>)
    requires |keys| == |events|
    ensures forall i | 0 <= i < |events| :: Updates(s, events, keys)[i].state.pipelineExecutionId == s.pipelineExecutionId
    decreases |events|
  {
    if events != [] {
      UpdatesKeepId(Logged(s, keys[0], events[0]), events[1..], keys[1..]);
    }
  }

  /** The record keeps the execution id the trigger returned, even after the
      monitor switched to a newer execution: every post and the output name
      the triggered execution. */
  lemma {:induction false} IdNotTracked(pipelineName: string, id: string, start: StartReply, script: Script,
                                        createFailure: Option<string>, clock: nat -> nat)
    requires Trigger(start) == Success(id)
    ensures var a := Perform(pipelineName, true, start, script, createFailure, clock);
            && (forall i | 0 <= i < |a.posts| :: a.posts[i].state.pipelineExecutionId == Some(id))
            && (a.end.Completed? ==> a.end.output.pipelineExecutionId == Some(id))
  {
    if createFailure.None? {
      var r := Monitor(pipelineName, id, 0, script.polls, script.lists, script.failedUpdates, 0);
      var tracked := Snapshot(Grey, map[clock(0) := TriggerText(pipelineName, id)], Some(pipelineName), Some(id));
      var keys := Keys(clock, 1, |r.events|);
      UpdatesKeepId(tracked, r.events, keys);
      ReplayKeepsIds(tracked, r.events, keys);
    }
  }

  /** What the final block leaves after a false outcome: the record and the
      posts of the logger calls, unchanged. */
  lemma FalseOnlyFails(pipelineName: string, id: string, tracked: Snapshot, script: Script, clock: nat -> nat)
    ensures var m := Monitored(pipelineName, id, tracked, script, clock);
            var r := Monitor(pipelineName, id, 0, script.polls, script.lists, script.failedUpdates, 0);
            var keys := Keys(clock, 1, |r.events|);
            m.end.Completed? && m.end.failure.Some? ==>
              && r.outcome == Returned(false)
              && m.end == Completed(Some(Unsuccessful), Replay(tracked, r.events, keys))
              && m.posts == Updates(tracked, r.events, keys)
  {
  }

  /** The final block after a false outcome, from any record: it only
      fails the action. The output is the record the logger calls left,
      which is red and is what the last update carried; nothing more is posted. */
  lemma {:induction false} MonitoredFailure(pipelineName: string, id: string, tracked: Snapshot, script: Script, clock: nat -> nat)
    ensures var m := Monitored(pipelineName, id, tracked, script, clock);
            var r := Monitor(pipelineName, id, 0, script.polls, script.lists, script.failedUpdates, 0);
            var keys := Keys(clock, 1, |r.events|);
            m.end.Completed? && m.end.failure.Some? ==>
              && r.outcome == Returned(false)
              && m.end == Completed(Some(Unsuccessful), Replay(tracked, r.events, keys))
              && m.end.output.color == Red
              && m.posts == Updates(tracked, r.events, keys)
              && m.posts != [] && m.posts[|m.posts| - 1] == Update(m.end.output)
  {
    var m := Monitored(pipelineName, id, tracked, script, clock);
    FalseOnlyFails(pipelineName, id, tracked, script, clock);
    if m.end.Completed? && m.end.failure.Some? {
      var r := Monitor(pipelineName, id, 0, script.polls, script.lists, script.failedUpdates, 0);
      var keys := Keys(clock, 1, |r.events|);
      ReturnedLastEvent(pipelineName, id, 0, script.polls, script.lists, script.failedUpdates, 0);
      ReplayColor(tracked, r.events, keys);
      LastUpdate(tracked, r.events, keys);
    }
  }

  /** An execution that ends unsuccessfully fails with "Execution was
      unsuccessful." and leaves the record red, as the last update carried
      it: the monitor's last logger call was an error. */
  lemma {:induction false} UnsuccessfulIsRed(pipelineName: string, waitCompletion: bool, start: StartReply, script: Script,
                                             createFailure: Option<string>, clock: nat -> nat)
    ensures var a := Perform(pipelineName, waitCompletion, start, script, createFailure, clock);
            a.end.Completed? && a.end.failure.Some? ==>
              && a.end.failure == Some(Unsuccessful) && a.end.output.color == Red
              && a.posts != [] && a.posts[|a.posts| - 1] == Update(a.end.output)
  {
    var a := Perform(pipelineName, waitCompletion, start, script, createFailure, clock);
    if a.end.Completed? && a.end.failure.Some? {
      var id := Trigger(start).value;
      var tracked := Snapshot(Grey, map[clock(0) := TriggerText(pipelineName, id)], Some(pipelineName), Some(id));
      var m := Monitored(pipelineName, id, tracked, script, clock);
      assert a == ActionRun(m.end, [StartExecution(pipelineName)] + m.requests, [Create(tracked)] + m.posts);
      MonitoredFailure(pipelineName, id, tracked, script, clock);
    }
  }

  /** The final block after a true outcome, from any record: green, a
      "Successful" entry after the last logger call, and one more update. */
  lemma MonitoredSuccess(pipelineName: string, id: string, tracked: Snapshot, script: Script, clock: nat -> nat)
    ensures var m := Monitored(pipelineName, id, tracked, script, clock);
            var r := Monitor(pipelineName, id, 0, script.polls, script.lists, script.failedUpdates, 0);
            m.end.Completed? && m.end.failure == None ==>
              && r.outcome == Returned(true)
              && m.end.output.color == Green
              && m.end.output.messages[clock(1 + |r.events|)] == SuccessfulText
              && m.posts != [] && m.posts[|m.posts| - 1] == Update(m.end.output)
  {
  }

  /** An execution that succeeds (or is superseded) leaves the message
      green with a "Successful" entry at the time after the last logger call. */
  lemma {:induction false} SuccessIsGreen(pipelineName: string, id: string, start: StartReply, script: Script,
                                          createFailure: Option<string>, clock: nat -> nat)
    requires Trigger(start) == Success(id)
    ensures var a := Perform(pipelineName, true, start, script, createFailure, clock);
            var r := Monitor(pipelineName, id, 0, script.polls, script.lists, script.failedUpdates, 0);
            a.end.Completed? && a.end.failure == None ==>
              && r.outcome == Returned(true)
              && a.end.output.color == Green
              && a.end.output.messages[clock(1 + |r.events|)] == SuccessfulText
              && a.posts[|a.posts| - 1] == Update(a.end.output)
  {
    var tracked := Snapshot(Grey, map[clock(0) := TriggerText(pipelineName, id)], Some(pipelineName), Some(id));
    var m := Monitored(pipelineName, id, tracked, script, clock);
    var a := Perform(pipelineName, true, start, script, createFailure, clock);
    if createFailure.None? {
      assert a == ActionRun(m.end, [StartExecution(pipelineName)] + m.requests, [Create(tracked)] + m.posts);
      MonitoredSuccess(pipelineName, id, tracked, script, clock);
    }
  }
}
