/** The server side of the event stream (backend/api.py, `event_generator`
    inside `chat_endpoint`, lines 30-50): every event of the research run
    becomes a `message` record carrying its JSON text, and one terminal
    record follows: `done` when the run finished, `error` with the
    traceback when an exception escaped it. */
module SseServer {
  import opened Options
  import opened Types
  import Research

  /** One server-sent event: its name and its data text. */
  datatype Record = Record(event: string, data: string)

  /** The data of the `done` record (line 41). */
  function DoneJson(): Json {
    JObject(map["type" := JString("done")])
  }

  /** The data of the `error` record (line 49). */
  function ErrorJson(trace: string): Json {
    JObject(map["type" := JString("error"), "message" := JString(trace)])
  }

  /** The `message` records of lines 32-37, one per event, in order. */
  function Frames(events: seq<Json>, dumps: Json -> string): (rs: seq<Record>)
    ensures |rs| == |events|
  {
    if events == [] then []
    else Frames(events[..|events| - 1], dumps) + [Record("message", dumps(events[|events| - 1]))]
  }

  /** The terminal record: `done` (39-42), or `error` with the formatted
      traceback of the exception (43-50). */
  function Terminal(failure: Option<string>, dumps: Json -> string): Record {
    match failure
    case None => Record("done", dumps(DoneJson()))
    case Some(trace) => Record("error", dumps(ErrorJson(trace)))
  }

  /** All records the generator yields, given the events the run yielded
      and, when it raised, the traceback text. */
  function EventStream(events: seq<Json>, failure: Option<string>, dumps: Json -> string): (rs: seq<Record>)
    ensures |rs| == |events| + 1
  {
    Frames(events, dumps) + [Terminal(failure, dumps)]
  }

  /** The stream of one request: the agent's research on the query, each
      event encoded by `Research.ToJson`; `trace` stands for the traceback
      of the exception when the run raised. */
  function Serve(prompt: string, query: string, s: Research.Services, trace: string, dumps: Json -> string): seq<Record> {
    var run := Research.Research(prompt, query, s);
    EventStream(JsonEvents(run.events), if run.failed then Some(trace) else None, dumps)
  }

  function JsonEvents(events: seq<Research.ServerEvent>): (js: seq<Json>)
    ensures |js| == |events|
    ensures forall k :: 0 <= k < |events| ==> js[k] == Research.ToJson(events[k])
  {
    seq(|events|, k requires 0 <= k < |events| => Research.ToJson(events[k]))
  }

  /** The number of records named `name`. */
  function CountNamed(rs: seq<Record>, name: string): nat {
    if rs == [] then 0
    else CountNamed(rs[..|rs| - 1], name) + (if rs[|rs| - 1].event == name then 1 else 0)
  }

  /** Every event becomes, at its own position, a `message` record whose
      data is the event's JSON text. */
  lemma {:induction false} FramesSpec(events: seq<Json>, dumps: Json -> string)
    ensures forall k :: 0 <= k < |events| ==> Frames(events, dumps)[k] == Record("message", dumps(events[k]))
  {
    if events != [] {
      FramesSpec(events[..|events| - 1], dumps);
    }
  }

  /** Only `message` records come from the events. */
  lemma {:induction false} FramesNamed(events: seq<Json>, dumps: Json -> string, name: string)
    ensures CountNamed(Frames(events, dumps), name) == if name == "message" then |events| else 0
  {
    if events != [] {
      var init := events[..|events| - 1];
      FramesNamed(init, dumps, name);
      assert Frames(events, dumps)[..|Frames(events, dumps)| - 1] == Frames(init, dumps);
    }
  }

  /** The stream holds one record per event, in order, then exactly one
      terminal record: a single `done` and no `error` when the run finished,
      a single `error` carrying the traceback and no `done` when it
      raised. */
  lemma EventStreamSpec(events: seq<Json>, failure: Option<string>, dumps: Json -> string)
    ensures var rs := EventStream(events, failure, dumps);
      && |rs| == |events| + 1
      && (forall k :: 0 <= k < |events| ==> rs[k] == Record("message", dumps(events[k])))
      && CountNamed(rs, "message") == |events|
      && CountNamed(rs, "done") == (if failure.None? then 1 else 0)
      && CountNamed(rs, "error") == (if failure.Some? then 1 else 0)
      && (failure.None? ==> rs[|rs| - 1] == Record("done", dumps(DoneJson())))
      && (failure.Some? ==> rs[|rs| - 1] == Record("error", dumps(ErrorJson(failure.value))))
  {
    var rs := EventStream(events, failure, dumps);
    FramesSpec(events, dumps);
    FramesNamed(events, dumps, "message");
    FramesNamed(events, dumps, "done");
    FramesNamed(events, dumps, "error");
    assert rs[..|rs| - 1] == Frames(events, dumps);
  }

  /** The records of the events yielded before an exception are sent ahead
      of the error record, exactly as they would have been had the run
      finished. */
  lemma FailureKeepsPrefix(events: seq<Json>, trace: string, dumps: Json -> string)
    ensures EventStream(events, Some(trace), dumps)[..|events|] == EventStream(events, None, dumps)[..|events|]
    ensures EventStream(events, Some(trace), dumps)[..|events|] == Frames(events, dumps)
  {
    FramesSpec(events, dumps);
  }

  /** The stream of a run shaped as `Research.ResearchSpec` shows: its
      events in order as `message` records; when it did not raise, the
      answer it ends with, then the only `done` record; when it raised, the
      only `error` record and no `done`. */
  lemma RunStream(run: Research.Run, trace: string, dumps: Json -> string)
    requires !run.failed ==> |run.events| > 0 && run.events[|run.events| - 1].Answer?
    ensures var rs := EventStream(JsonEvents(run.events), if run.failed then Some(trace) else None, dumps);
      && |rs| == |run.events| + 1
      && (forall k :: 0 <= k < |run.events| ==> rs[k] == Record("message", dumps(Research.ToJson(run.events[k]))))
      && CountNamed(rs, "done") == (if run.failed then 0 else 1)
      && CountNamed(rs, "error") == (if run.failed then 1 else 0)
      && (!run.failed ==> rs[|rs| - 2] == Record("message", dumps(Research.ToJson(Research.Answer(run.events[|run.events| - 1].content)))))
  {
    EventStreamSpec(JsonEvents(run.events), if run.failed then Some(trace) else None, dumps);
  }

  /** For one request: the agent's events reach the client in order, as
      `message` records; a run that did not raise ends with its one and only
      answer and then the only `done` record; a run that raised ends with the only
      `error` record and has no `done`; a run whose tool session fails to
      open streams the `error` record alone. */
  lemma ServeSpec(prompt: string, query: string, s: Research.Services, trace: string, dumps: Json -> string)
    ensures var run := Research.Research(prompt, query, s);
      var rs := Serve(prompt, query, s, trace, dumps);
      && |rs| == |run.events| + 1
      && (forall k :: 0 <= k < |run.events| ==> rs[k] == Record("message", dumps(Research.ToJson(run.events[k]))))
      && CountNamed(rs, "done") == (if run.failed then 0 else 1)
      && CountNamed(rs, "error") == (if run.failed then 1 else 0)
      && (!run.failed ==>
            && |run.events| > 0 && run.events[|run.events| - 1].Answer?
            && Research.CountWhere(run.events, Research.IsAnswer) == 1
            && rs[|rs| - 2] == Record("message", dumps(Research.ToJson(run.events[|run.events| - 1]))))
    ensures s.setupFails ==> Serve(prompt, query, s, trace, dumps) == [Terminal(Some(trace), dumps)]
  {
    var run := Research.Research(prompt, query, s);
    Research.ResearchSpec(prompt, query, s);
    RunStream(run, trace, dumps);
  }
}
