/** The action's entry point (src/index.js): it triggers the pipeline, keeps a
    `slack` record of the notification (a colour and a map of messages keyed
    by the time they were logged), hands pipelineMonitor a logger callback
    that updates that record, and ends with the final outcome.

    Date.now() is a parameter `clock`: its k-th reading is clock(k). The
    notification sink (slackMessageCreate and slackMessageUpdate) is a list
    of posts, each holding the record as it was sent; which posts the sink
    rejects comes from the script. */
module Action {
  import opened Wrappers
  import opened Aws

  // The colours of src/index.js:11, 62, 66, 70 and 84.
  const Grey := "#c6c6c6"
  const Red := "#cc3300"
  const Yellow := "#ffcc00"
  const Green := "#339900"

  const Unsuccessful := "Execution was unsuccessful."
  const SuccessfulText := "Successful"

  /** The message of src/index.js:39-41. */
  function TriggerText(pipelineName: string, pipelineExecutionId: string): string {
    "pipeline: '" + pipelineName + "' triggered, executionId: " + pipelineExecutionId
  }

  /** The `slack` record as a value. */
  datatype Snapshot = Snapshot(color: string, messages: map<nat, string>,
                               pipelineName: Option<string>, pipelineExecutionId: Option<string>)

  /** `{ color: "#c6c6c6", messages: {} }` */
  const Initial := Snapshot(Grey, map[], None, None)

  /** A call of the notification sink and the record it sent. */
  datatype Post = Create(state: Snapshot) | Update(state: Snapshot)

  /** The colour the `switch (level)` of src/index.js:60-75 leaves. */
  function ColorFor(level: Level, current: string): (c: string)
    ensures level == Info <==> c == Grey && level != Debug
    ensures level == Error <==> c == Red && level != Debug
    ensures level == Warning <==> c == Yellow && level != Debug
    ensures level == Debug ==> c == current
  {
    match level
    case Info => Grey
    case Error => Red
    case Warning => Yellow
    case Debug => current
  }

  /** The record after one logger call that wrote `text` under `key`. */
  function Logged(s: Snapshot, key: nat, event: Event): Snapshot {
    s.(messages := s.messages[key := Text(event.note)], color := ColorFor(event.level, s.color))
  }

  /** The record after the logger calls for `events`, the k-th one at time keys[k]. */
  function Replay(s: Snapshot, events: seq<Event>, keys: seq<nat>): Snapshot
    requires |keys| == |events|
    decreases |events|
  {
    if events == [] then s else Replay(Logged(s, keys[0], events[0]), events[1..], keys[1..])
  }

  /** The update each of those logger calls posts, after changing the record. */
  function Updates(s: Snapshot, events: seq<Event>, keys: seq<nat>): (posts: seq<Post>)
    requires |keys| == |events|
    ensures |posts| == |events|
    decreases |events|
  {
    if events == [] then []
    else var t := Logged(s, keys[0], events[0]);
      [Update(t)] + Updates(t, events[1..], keys[1..])
  }

  /** The readings of the clock from `first` on, one per logger call. */
  function Keys(clock: nat -> nat, first: nat, n: nat): (keys: seq<nat>)
    ensures |keys| == n
    ensures forall k | 0 <= k < n :: keys[k] == clock(first + k)
  {
    seq(n, k requires 0 <= k < n => clock(first + k))
  }

  /** How the action ends: completed (with the message of setFailed, if
      any, and the record it outputs), aborted by an error whose message
      reaches setFailed, or still monitoring when the script ended. */
  datatype End = Completed(failure: Option<string>, output: Snapshot) | Aborted(message: string) | Unfinished

  /** The end, the commands sent to the client, and the posts to the sink. */
  datatype ActionRun = ActionRun(end: End, requests: seq<Request>, posts: seq<Post>)

  /** src/index.js:49-87 from the record `tracked` on: monitor the execution
      with the logger callback, then report the outcome. */
  function Monitored(pipelineName: string, id: string, tracked: Snapshot, script: Script, clock: nat -> nat): ActionRun {
    var r := Monitor(pipelineName, id, 0, script.polls, script.lists, script.failedUpdates, 0);
    var keys := Keys(clock, 1, |r.events|);
    var logged := Replay(tracked, r.events, keys);
    var posts := Updates(tracked, r.events, keys);
    match r.outcome
    case Threw(e) => ActionRun(Aborted(ErrorMessage(e)), r.requests, posts)
    case ScriptEnded => ActionRun(Unfinished, r.requests, posts)
    case Returned(ok) =>
      if !ok then ActionRun(Completed(Some(Unsuccessful), logged), r.requests, posts)
      else
        var n := |r.events|;
        var done := logged.(color := Green, messages := logged.messages[clock(1 + n) := SuccessfulText]);
        var end := if n in script.failedUpdates then Aborted(script.failedUpdates[n]) else Completed(None, done);
        ActionRun(end, r.requests, posts + [Update(done)])
  }

  /** src/index.js:10-97 once the inputs are read. */
  function Perform(pipelineName: string, waitCompletion: bool, start: StartReply, script: Script,
                   createFailure: Option<string>, clock: nat -> nat): ActionRun
  {
    var trigger := [StartExecution(pipelineName)];
    match Trigger(start)
    case Failure(e) => ActionRun(Aborted(ErrorMessage(e)), trigger, [])
    case Success(id) =>
      var triggered := Initial.(messages := map[clock(0) := TriggerText(pipelineName, id)]);
      if !waitCompletion then ActionRun(Completed(None, triggered), trigger, [])
      else
        var tracked := triggered.(pipelineName := Some(pipelineName), pipelineExecutionId := Some(id));
        // the message is sent to the sink even when the sink rejects it
        if createFailure.Some? then ActionRun(Aborted(createFailure.value), trigger, [Create(tracked)])
        else
          var m := Monitored(pipelineName, id, tracked, script, clock);
          ActionRun(m.end, trigger + m.requests, [Create(tracked)] + m.posts)
  }

  /** The `slack` object of src/index.js:11, changed in place. */
  class Slack {
    var color: string
    var messages: map<nat, string>
    var pipelineName: Option<string>
    var pipelineExecutionId: Option<string>
    /** What was sent to the notification sink, in order. */
    var posts: seq<Post>

    function State(): Snapshot
      reads this
    {
      Snapshot(color, messages, pipelineName, pipelineExecutionId)
    }

    constructor ()
      ensures State() == Initial && posts == []
    {
      color, messages := Grey, map[];
      pipelineName, pipelineExecutionId := None, None;
      posts := [];
    }

    /** `slack.messages[Date.now()] = text` */
    method Record(key: nat, text: string)
      modifies this
      ensures State() == old(State()).(messages := old(messages)[key := text])
      ensures posts == old(posts)
    {
      messages := messages[key := text];
    }

    /** src/index.js:44-45: the triggered execution is recorded, once. */
    method Track(name: string, id: string)
      modifies this
      ensures State() == old(State()).(pipelineName := Some(name), pipelineExecutionId := Some(id))
      ensures posts == old(posts)
    {
      pipelineName, pipelineExecutionId := Some(name), Some(id);
    }

    /** slackMessageCreate: posts the record as it is; the post is made
        whether or not the sink accepts it. */
    method Open()
      modifies this
      ensures State() == old(State()) && posts == old(posts) + [Create(State())]
    {
      posts := posts + [Create(State())];
    }

    /** The logger callback of src/index.js:57-78: store the message under
        the current time, set the colour of its level, then post an update. */
    method Log(key: nat, event: Event)
      modifies this
      ensures State() == Logged(old(State()), key, event)
      ensures posts == old(posts) + [Update(State())]
    {
      messages := messages[key := Text(event.note)];
      match event.level {
        case Info => color := Grey;
        case Error => color := Red;
        case Warning => color := Yellow;
        case Debug =>
      }
      posts := posts + [Update(State())];
    }

    /** The logger callback, once per event of a monitoring run, in order. */
    method LogAll(events: seq<Event>, keys: seq<nat>)
      requires |keys| == |events|
      modifies this
      ensures State() == Replay(old(State()), events, keys)
      ensures posts == old(posts) + Updates(old(State()), events, keys)
    {
      var i := 0;
      while i < |events|
        invariant 0 <= i <= |events|
        invariant Replay(State(), events[i..], keys[i..]) == Replay(old(State()), events, keys)
        invariant old(posts) + Updates(old(State()), events, keys) == posts + Updates(State(), events[i..], keys[i..])
      {
        assert events[i..][1..] == events[i + 1..] && keys[i..][1..] == keys[i + 1..];
        ghost var before := State();
        Log(keys[i], events[i]);
        assert Updates(before, events[i..], keys[i..]) == [Update(State())] + Updates(State(), events[i + 1..], keys[i + 1..]);
        i := i + 1;
      }
    }

    /** src/index.js:84-86: green, a "Successful" entry, one more update. */
    method Succeed(key: nat)
      modifies this
      ensures State() == old(State()).(color := Green, messages := old(messages)[key := SuccessfulText])
      ensures posts == old(posts) + [Update(State())]
    {
      color := Green;
      messages := messages[key := SuccessfulText];
      posts := posts + [Update(State())];
    }
  }

  /** src/index.js:49-87 on the `slack` object. */
  method MonitorAndReport(slack: Slack, pipelineName: string, id: string, script: Script, clock: nat -> nat)
      returns (end: End, requests: seq<Request>)
    modifies slack
    ensures var m := Monitored(pipelineName, id, old(slack.State()), script, clock);
            end == m.end && requests == m.requests && slack.posts == old(slack.posts) + m.posts
    ensures end.Completed? ==> end.output == slack.State()
  {
    var r := PipelineMonitor(pipelineName, id, script);
    requests := r.requests;
    slack.LogAll(r.events, Keys(clock, 1, |r.events|));
    match r.outcome {
      case Threw(e) =>
        end := Aborted(ErrorMessage(e));
      case ScriptEnded =>
        end := Unfinished;
      case Returned(ok) =>
        if !ok {
          end := Completed(Some(Unsuccessful), slack.State());
        } else {
          slack.Succeed(clock(1 + |r.events|));
          if |r.events| in script.failedUpdates {
            end := Aborted(script.failedUpdates[|r.events|]);
          } else {
            end := Completed(None, slack.State());
          }
        }
    }
  }

  /** The action, step by step on the `slack` object. */
  method RunAction(pipelineName: string, waitCompletion: bool, start: StartReply, script: Script,
                   createFailure: Option<string>, clock: nat -> nat)
      returns (end: End, requests: seq<Request>, slack: Slack)
    ensures fresh(slack)
    ensures ActionRun(end, requests, slack.posts) == Perform(pipelineName, waitCompletion, start, script, createFailure, clock)
    ensures end.Completed? ==> end.output == slack.State()
  {
    slack := new Slack();
    requests := [StartExecution(pipelineName)];
    var triggered := Trigger(start);
    if triggered.Failure? {
      end := Aborted(ErrorMessage(triggered.error));
      return;
    }
    var id := triggered.value;
    slack.Record(clock(0), TriggerText(pipelineName, id));
    if !waitCompletion {
      end := Completed(None, slack.State());
      return;
    }
    slack.Track(pipelineName, id);
    slack.Open();
    if createFailure.Some? {
      end := Aborted(createFailure.value);
      return;
    }
    var monitored;
    end, monitored := MonitorAndReport(slack, pipelineName, id, script, clock);
    requests := requests + monitored;
  }
}
