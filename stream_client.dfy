/** The browser side of the event stream (frontend/src/api.ts, `streamChat`):
    the response body is read chunk by chunk, each chunk is split into lines,
    `event:` lines name the record, `data:` lines are parsed and handed to one
    of three callbacks. The callbacks a run makes are recorded as a
    `Callbacks` value: the payloads given to `onEvent`, in order, and the one
    terminal call (`onDone` or `onError`) that ended the run, if any.
    `JSON.parse` is the oracle `parse`, which says whether it throws, yields
    `null`, or yields a value read as an event. */
module StreamClient {
  import opened Options
  import opened Text
  import opened Types

  /** What `fetch` and the body reader deliver: a rejected request, a response
      without a readable body, or the decoded chunks followed by either the
      end of the stream (`readFailure == None`) or a read that rejects. */
  datatype Response =
    | FetchFailed(reason: string)
    | NoBody
    | Streamed(chunks: seq<string>, readFailure: Option<string>)

  /** The terminal callbacks: `onDone()` and `onError(message)`. */
  datatype Ending = Done | Error(message: string)

  /** The callbacks of one run: every `onEvent`, then at most one ending, after
      which nothing more is read. */
  datatype Callbacks = Callbacks(onEvent: seq<AgentEvent>, ending: Option<Ending>)

  /** What `JSON.parse` gives for a payload: it throws, it yields `null`, or
      it yields a value whose fields are read as an event. */
  datatype Parsed = NotJson | JsonNull | JsonEvent(event: AgentEvent)

  /** The `JSON.parse` oracle. */
  type Parser = string -> Parsed

  /** The call one line makes, if it makes one. */
  datatype Callback = OnEvent(event: AgentEvent) | OnEnd(ending: Ending)

  /** What one line of a chunk does, given the event name in force. */
  datatype LineEffect = SetEventName(name: string) | Ignore | Deliver(callback: Callback)

  const EventPrefix := "event:"
  const DataPrefix := "data:"
  const UnknownError := "Unknown error"
  const ConnectionError := "Connection error"
  const NoStreamError := "ReadableStream not yet supported in this browser."

  const NoCalls := Callbacks([], None)

  /** JavaScript's `s || fallback` for a string. */
  function OrElse(s: string, fallback: string): string {
    if s == "" then fallback else s
  }

  /** The callbacks of `first` and then, unless `first` ended the run, those
      of `next`. */
  function Then(first: Callbacks, next: Callbacks): Callbacks {
    if first.ending.Some? then first else Callbacks(first.onEvent + next.onEvent, next.ending)
  }

  /** The effect of one line (api.ts, lines 39-60). `line.replace(prefix, '')`
      removes the prefix the line was just found to start with. */
  function ClassifyLine(line: string, currentEvent: string, parse: Parser): LineEffect {
    if EventPrefix <= line then
      SetEventName(TrimJs(line[|EventPrefix|..]))
    else if DataPrefix <= line then
      var dataStr := TrimJs(line[|DataPrefix|..]);
      if dataStr == "" then Ignore
      else match parse(dataStr)
        case NotJson => Ignore
        case JsonNull =>
          // reading `data.type` on null throws, unless the name `done`
          // decides the test first; the catch drops the line
          if currentEvent == "done" then Deliver(OnEnd(Done)) else Ignore
        case JsonEvent(data) =>
          if currentEvent == "done" || data.kind == "done" then Deliver(OnEnd(Done))
          else if currentEvent == "error" || data.kind == "error" then
            Deliver(OnEnd(Error(OrElse(data.message.GetOr(""), UnknownError))))
          else Deliver(OnEvent(data))
    else Ignore
  }

  /** What a line does: an `event:` line only sets the name, to its trimmed
      remainder; a line that is neither `event:` nor `data:` does nothing; a
      `data:` line calls back exactly when its trimmed payload is non-empty and
      parses to an event, or to `null` under the name `done`; then `done`
      (from the event name or the payload's type) wins over `error`, which
      wins over handing the payload to `onEvent`. */
  lemma ClassifyLineSpec(line: string, currentEvent: string, parse: Parser)
    ensures var eff := ClassifyLine(line, currentEvent, parse);
      && (eff.SetEventName? <==> EventPrefix <= line)
      && (eff.SetEventName? ==> eff.name == TrimJs(line[|EventPrefix|..]))
      && (!(DataPrefix <= line) ==> !eff.Deliver?)
    ensures var eff := ClassifyLine(line, currentEvent, parse);
      !(EventPrefix <= line) && DataPrefix <= line ==>
      var dataStr := TrimJs(line[|DataPrefix|..]);
      var parsed := parse(dataStr);
      && (eff.Deliver? <==> dataStr != "" && (parsed.JsonEvent? || (parsed.JsonNull? && currentEvent == "done")))
      && (eff.Deliver? && parsed.JsonNull? ==> eff.callback == OnEnd(Done))
      && (eff.Deliver? && parsed.JsonEvent? ==>
            var d := parsed.event;
            && (eff.callback == OnEnd(Done) <==> currentEvent == "done" || d.kind == "done")
            && (eff.callback.OnEnd? && eff.callback.ending.Error? <==>
                  !(currentEvent == "done" || d.kind == "done") && (currentEvent == "error" || d.kind == "error"))
            && (eff.callback.OnEnd? && eff.callback.ending.Error? ==>
                  eff.callback.ending.message == OrElse(d.message.GetOr(""), UnknownError))
            && (eff.callback.OnEvent? ==> eff.callback.event == d))
  {
  }

  /** The callbacks made by the lines of one chunk, starting with the event
      name `currentEvent`; a terminal callback ends the chunk and the run. */
  function ChunkCalls(lines: seq<string>, currentEvent: string, parse: Parser): Callbacks {
    if lines == [] then NoCalls
    else match ClassifyLine(lines[0], currentEvent, parse)
      case SetEventName(name) => ChunkCalls(lines[1..], name, parse)
      case Ignore => ChunkCalls(lines[1..], currentEvent, parse)
      case Deliver(OnEnd(ending)) => Callbacks([], Some(ending))
      case Deliver(OnEvent(e)) =>
        var rest := ChunkCalls(lines[1..], currentEvent, parse);
        Callbacks([e] + rest.onEvent, rest.ending)
  }

  /** One chunk, split on '\n', with the event name reset to ''. */
  function ChunkOutcome(chunk: string, parse: Parser): Callbacks {
    ChunkCalls(Split(chunk, '\n'), "", parse)
  }

  /** The callbacks made by a sequence of chunks, up to the first ending. */
  function StreamCalls(chunks: seq<string>, parse: Parser): Callbacks {
    if chunks == [] then NoCalls
    else Then(ChunkOutcome(chunks[0], parse), StreamCalls(chunks[1..], parse))
  }

  /** Everything `streamChat` calls back for a given response, including the
      `.catch` route of a failed request, a missing body or a failed read. */
  function ClientCalls(response: Response, parse: Parser): Callbacks {
    match response
    case FetchFailed(reason) => Callbacks([], Some(Error(OrElse(reason, ConnectionError))))
    case NoBody => Callbacks([], Some(Error(NoStreamError)))
    case Streamed(chunks, readFailure) =>
      var calls := StreamCalls(chunks, parse);
      if calls.ending.Some? || readFailure.None? then calls
      else calls.(ending := Some(Error(OrElse(readFailure.value, ConnectionError))))
  }

  /** Running `a`, `b` and `c` in turn does not depend on the grouping. */
  lemma ThenAssociative(a: Callbacks, b: Callbacks, c: Callbacks)
    ensures Then(Then(a, b), c) == Then(a, Then(b, c))
  {
    if a.ending.None? && b.ending.None? {
      assert (a.onEvent + b.onEvent) + c.onEvent == a.onEvent + (b.onEvent + c.onEvent);
    }
  }

  /** The body of the read loop for one chunk (api.ts, lines 33-61): split
      into lines, event name reset to '', lines handled in order; the early
      `return` on a terminal record returns here with an ending. */
  method ReadChunk(chunk: string, parse: Parser) returns (calls: Callbacks)
    ensures calls == ChunkOutcome(chunk, parse)
  {
    var lines := Split(chunk, '\n');
    var currentEvent := "";
    calls := NoCalls;
    for j := 0 to |lines|
      invariant calls.ending.None?
      invariant ChunkCalls(lines, "", parse) == Then(calls, ChunkCalls(lines[j..], currentEvent, parse))
    {
      var line := lines[j];
      assert lines[j..][1..] == lines[j + 1..];
      if EventPrefix <= line {
        currentEvent := TrimJs(line[|EventPrefix|..]);
      } else if DataPrefix <= line {
        var dataStr := TrimJs(line[|DataPrefix|..]);
        if dataStr != "" {
          match parse(dataStr) {
            case NotJson =>
            case JsonNull =>
              if currentEvent == "done" {
                calls := calls.(ending := Some(Done));
                return;
              }
            case JsonEvent(data) =>
              if currentEvent == "done" || data.kind == "done" {
                calls := calls.(ending := Some(Done));
                return;
              } else if currentEvent == "error" || data.kind == "error" {
                calls := calls.(ending := Some(Error(OrElse(data.message.GetOr(""), UnknownError))));
                return;
              } else {
                var rest := ChunkCalls(lines[j + 1..], currentEvent, parse);
                assert calls.onEvent + ([data] + rest.onEvent) == (calls.onEvent + [data]) + rest.onEvent;
                calls := calls.(onEvent := calls.onEvent + [data]);
              }
          }
        }
      }
    }
    assert lines[|lines|..] == [];
  }

  /** The read loop over the chunks of a body (api.ts, lines 24-62): each
      chunk is read in turn until one ends the run or the body is exhausted. */
  method ReadChunks(chunks: seq<string>, parse: Parser) returns (calls: Callbacks)
    ensures calls == StreamCalls(chunks, parse)
  {
    calls := NoCalls;
    for k := 0 to |chunks|
      invariant calls.ending.None?
      invariant StreamCalls(chunks, parse) == Then(calls, StreamCalls(chunks[k..], parse))
    {
      var chunkCalls := ReadChunk(chunks[k], parse);
      assert chunks[k..][0] == chunks[k] && chunks[k..][1..] == chunks[k + 1..];
      ThenAssociative(calls, chunkCalls, StreamCalls(chunks[k + 1..], parse));
      calls := Callbacks(calls.onEvent + chunkCalls.onEvent, chunkCalls.ending);
      if chunkCalls.ending.Some? {
        return;
      }
    }
    assert chunks[|chunks|..] == [];
  }

  /** `streamChat` after `fetch` has settled (api.ts, lines 19-67): the read
      loop, and the `.catch` route for a failed request, a missing body or a
      read that rejects before the run has ended. */
  method StreamChat(response: Response, parse: Parser) returns (calls: Callbacks)
    ensures calls == ClientCalls(response, parse)
  {
    match response {
      case FetchFailed(reason) =>
        calls := Callbacks([], Some(Error(OrElse(reason, ConnectionError))));
      case NoBody =>
        calls := Callbacks([], Some(Error(NoStreamError)));
      case Streamed(chunks, readFailure) =>
        calls := ReadChunks(chunks, parse);
        if calls.ending.None? && readFailure.Some? {
          calls := calls.(ending := Some(Error(OrElse(readFailure.value, ConnectionError))));
        }
    }
  }

  // ----- Properties of the read loop -----

  /** A failed request, a missing body or a failed read always ends the run,
      with `onError` unless a terminal record came first; a stream that ends
      normally ends the run only through a terminal record. */
  lemma EndingCases(response: Response, parse: Parser)
    ensures !response.Streamed? ==> ClientCalls(response, parse).onEvent == []
    ensures response.FetchFailed? ==>
      ClientCalls(response, parse).ending == Some(Error(OrElse(response.reason, ConnectionError)))
    ensures response.NoBody? ==> ClientCalls(response, parse).ending == Some(Error(NoStreamError))
    ensures response.Streamed? && response.readFailure.Some? ==> ClientCalls(response, parse).ending.Some?
    ensures response.Streamed? ==>
      ClientCalls(response, parse).onEvent == StreamCalls(response.chunks, parse).onEvent
    ensures response.Streamed? && response.readFailure.None? ==>
      ClientCalls(response, parse) == StreamCalls(response.chunks, parse)
  {
  }

  /** Nothing the loop hands to `onEvent` has type `done` or `error`. */
  lemma {:induction false} ChunkEventsAreNotTerminal(lines: seq<string>, currentEvent: string, parse: Parser)
    ensures forall i :: 0 <= i < |ChunkCalls(lines, currentEvent, parse).onEvent| ==>
      ChunkCalls(lines, currentEvent, parse).onEvent[i].kind !in {"done", "error"}
    decreases |lines|
  {
    if lines != [] {
      ClassifyLineSpec(lines[0], currentEvent, parse);
      match ClassifyLine(lines[0], currentEvent, parse)
      case SetEventName(name) => ChunkEventsAreNotTerminal(lines[1..], name, parse);
      case Ignore => ChunkEventsAreNotTerminal(lines[1..], currentEvent, parse);
      case Deliver(OnEnd(ending)) =>
      case Deliver(OnEvent(e)) => ChunkEventsAreNotTerminal(lines[1..], currentEvent, parse);
    }
  }

  lemma {:induction false} StreamEventsAreNotTerminal(chunks: seq<string>, parse: Parser)
    ensures forall i :: 0 <= i < |StreamCalls(chunks, parse).onEvent| ==>
      StreamCalls(chunks, parse).onEvent[i].kind !in {"done", "error"}
  {
    if chunks != [] {
      ChunkEventsAreNotTerminal(Split(chunks[0], '\n'), "", parse);
      StreamEventsAreNotTerminal(chunks[1..], parse);
    }
  }

  /** No state carries from one chunk to the next: reading `a + b` is reading
      `a`, then, unless `a` ended the run, reading `b` from scratch. */
  lemma {:induction false} StreamCallsAppend(a: seq<string>, b: seq<string>, parse: Parser)
    ensures StreamCalls(a + b, parse) == Then(StreamCalls(a, parse), StreamCalls(b, parse))
  {
    if a == [] {
      assert a + b == b;
    } else {
      assert (a + b)[0] == a[0];
      assert (a + b)[1..] == a[1..] + b;
      StreamCallsAppend(a[1..], b, parse);
      var first := ChunkOutcome(a[0], parse);
      var tail := StreamCalls(a[1..], parse);
      var next := StreamCalls(b, parse);
      assert first.onEvent + (tail.onEvent + next.onEvent) == (first.onEvent + tail.onEvent) + next.onEvent;
    }
  }

  // ----- The same callbacks, described line by line -----

  /** The event name in force at line `j` of a chunk: the trimmed remainder of
      the last `event:` line before it in the same chunk, or '' if none. */
  function NameInForce(lines: seq<string>, j: nat): string
    requires j <= |lines|
  {
    if j == 0 then ""
    else if EventPrefix <= lines[j - 1] then TrimJs(lines[j - 1][|EventPrefix|..])
    else NameInForce(lines, j - 1)
  }

  /** The call line `j` makes, if any, judged by itself and the name in force. */
  function LineCallback(lines: seq<string>, j: nat, parse: Parser): seq<Callback>
    requires j < |lines|
  {
    match ClassifyLine(lines[j], NameInForce(lines, j), parse)
    case Deliver(cb) => [cb]
    case _ => []
  }

  /** The calls of lines `j..` of a chunk, ignoring the early exit. */
  function LineCallbacksFrom(lines: seq<string>, j: nat, parse: Parser): seq<Callback>
    requires j <= |lines|
    decreases |lines| - j
  {
    if j == |lines| then [] else LineCallback(lines, j, parse) + LineCallbacksFrom(lines, j + 1, parse)
  }

  /** The calls of every line of every chunk, in chunk order and then line
      order, each chunk on its own. */
  function AllLineCallbacks(chunks: seq<string>, parse: Parser): seq<Callback> {
    if chunks == [] then []
    else LineCallbacksFrom(Split(chunks[0], '\n'), 0, parse) + AllLineCallbacks(chunks[1..], parse)
  }

  /** The calls of `cs` up to and including the first ending. */
  function UpToEnding(cs: seq<Callback>): Callbacks {
    if cs == [] then NoCalls
    else match cs[0]
      case OnEnd(ending) => Callbacks([], Some(ending))
      case OnEvent(e) =>
        var rest := UpToEnding(cs[1..]);
        Callbacks([e] + rest.onEvent, rest.ending)
  }

  lemma {:induction false} UpToEndingAppend(a: seq<Callback>, b: seq<Callback>)
    ensures UpToEnding(a + b) == Then(UpToEnding(a), UpToEnding(b))
  {
    if a == [] {
      assert a + b == b;
    } else {
      assert (a + b)[0] == a[0];
      assert (a + b)[1..] == a[1..] + b;
      if a[0].OnEvent? {
        UpToEndingAppend(a[1..], b);
        var rest := UpToEnding(a[1..]);
        var next := UpToEnding(b);
        assert [a[0].event] + (rest.onEvent + next.onEvent) == ([a[0].event] + rest.onEvent) + next.onEvent;
      }
    }
  }

  /** Within a chunk, the state machine with its `currentEvent` slot makes the
      calls that each line makes on its own, with the name of the last
      `event:` line before it, cut after the first ending. */
  lemma {:induction false} ChunkCallsByLine(lines: seq<string>, j: nat, parse: Parser)
    requires j <= |lines|
    ensures ChunkCalls(lines[j..], NameInForce(lines, j), parse) == UpToEnding(LineCallbacksFrom(lines, j, parse))
    decreases |lines| - j
  {
    if j < |lines| {
      var here := lines[j..];
      assert here[0] == lines[j] && here[1..] == lines[j + 1..];
      ChunkCallsByLine(lines, j + 1, parse);
      var name := NameInForce(lines, j);
      var rest := LineCallbacksFrom(lines, j + 1, parse);
      ClassifyLineSpec(lines[j], name, parse);
      match ClassifyLine(lines[j], name, parse)
      case SetEventName(next) =>
        assert NameInForce(lines, j + 1) == next;
        assert LineCallbacksFrom(lines, j, parse) == [] + rest == rest;
      case Ignore =>
        assert NameInForce(lines, j + 1) == name;
        assert LineCallbacksFrom(lines, j, parse) == [] + rest == rest;
      case Deliver(cb) =>
        assert NameInForce(lines, j + 1) == name;
        assert LineCallbacksFrom(lines, j, parse) == [cb] + rest;
        assert ([cb] + rest)[0] == cb && ([cb] + rest)[1..] == rest;
    } else {
      assert lines[j..] == [];
    }
  }

  /** The whole read loop: its calls are those of every line of every chunk,
      in chunk order then line order, each chunk judged on its own with the
      event name restarting at '', up to and including the first ending. */
  lemma {:induction false} StreamCallsByLine(chunks: seq<string>, parse: Parser)
    ensures StreamCalls(chunks, parse) == UpToEnding(AllLineCallbacks(chunks, parse))
  {
    if chunks != [] {
      var lines := Split(chunks[0], '\n');
      ChunkCallsByLine(lines, 0, parse);
      assert lines[0..] == lines;
      StreamCallsByLine(chunks[1..], parse);
      UpToEndingAppend(LineCallbacksFrom(lines, 0, parse), AllLineCallbacks(chunks[1..], parse));
    }
  }

  // ----- Chunk boundaries are visible -----

  /** A chunk without a line break is one line. */
  lemma OneLineChunk(line: string, parse: Parser)
    requires '\n' !in line
    ensures ChunkOutcome(line, parse) == ChunkCalls([line], "", parse)
  {
    SplitNoSeparator(line, '\n');
  }

  lemma NoBreakAfterPrefix(prefix: string, payload: string)
    requires '\n' !in prefix && '\n' !in payload
    ensures '\n' !in prefix + payload
  {
  }

  /** A record split across two chunks is lost, since neither half is an
      `event:` or `data:` line: the client does not deliver the same events
      for every way of cutting the stream into chunks. */
  lemma SplitDataLineIsLost(payload: string, e: AgentEvent, parse: Parser)
    requires payload != [] && '\n' !in payload && TrimJs(payload) == payload
    requires parse(payload) == JsonEvent(e) && e.kind != "done" && e.kind != "error"
    ensures StreamCalls(["data:" + payload], parse) == Callbacks([e], None)
    ensures StreamCalls(["da", "ta:" + payload], parse) == NoCalls
  {
    var whole := "data:" + payload;
    NoBreakAfterPrefix("data:", payload);
    OneLineChunk(whole, parse);
    assert whole[|DataPrefix|..] == payload;
    assert DataPrefix <= whole && !(EventPrefix <= whole);
    var wholeLines: seq<string> := [whole];
    assert wholeLines[1..] == [];
    assert ChunkCalls(wholeLines, "", parse) == Callbacks([e], None);
    var chunks := [whole];
    assert chunks[1..] == [];

    OneLineChunk("da", parse);
    var second := "ta:" + payload;
    NoBreakAfterPrefix("ta:", payload);
    OneLineChunk(second, parse);
    assert second[0] == 't';
    assert !(EventPrefix <= second) && !(DataPrefix <= second);
    var daLines: seq<string> := ["da"];
    assert daLines[1..] == [];
    var secondLines: seq<string> := [second];
    assert secondLines[1..] == [];
    var split := ["da", second];
    assert split[1..] == [second] && split[1..][1..] == [];
  }

  /** A lone `data:` line with a parsable, non-terminal payload delivers it
      under the empty name, and ends the run under the name `done`. */
  lemma DataLine(payload: string, e: AgentEvent, parse: Parser)
    requires payload != [] && TrimJs(payload) == payload
    requires parse(payload) == JsonEvent(e) && e.kind != "done" && e.kind != "error"
    ensures ChunkCalls(["data:" + payload], "", parse) == Callbacks([e], None)
    ensures ChunkCalls(["data:" + payload], "done", parse) == Callbacks([], Some(Done))
  {
    var line := "data:" + payload;
    assert line[|DataPrefix|..] == payload && line[0] == 'd';
    assert DataPrefix <= line && !(EventPrefix <= line);
    var lines: seq<string> := [line];
    assert lines[1..] == [];
  }

  /** The line `event:done` sets the name to `done`. */
  lemma EventDoneLine(rest: seq<string>, parse: Parser)
    ensures ChunkCalls(["event:done"] + rest, "", parse) == ChunkCalls(rest, "done", parse)
  {
    var lines := ["event:done"] + rest;
    assert lines[0] == "event:done" && lines[1..] == rest;
    assert "event:done"[|EventPrefix|..] == "done";
    TrimUnchanged("done", IsJsSpace);
    assert EventPrefix <= "event:done";
  }

  /** The two ways of cutting the lines `event:done` and `data:<payload>`
      into chunks, split into lines. */
  lemma OneChunkLines(payload: string)
    requires '\n' !in payload
    ensures Split("event:done" + "\n" + "data:" + payload, '\n') == ["event:done", "data:" + payload]
  {
    NoBreakAfterPrefix("data:", payload);
    DoneThenLine("data:" + payload);
    assert "event:done" + "\n" + "data:" + payload == "event:done" + "\n" + ("data:" + payload);
  }

  /** The line `event:done`, a newline and any one line split into the two. */
  lemma DoneThenLine(line: string)
    requires '\n' !in line
    ensures Split("event:done" + "\n" + line, '\n') == ["event:done", line]
  {
    SplitTwoLines("event:done", line);
  }

  lemma TwoChunkLines(payload: string)
    requires '\n' !in payload
    ensures Split("event:done" + "\n", '\n') == ["event:done", ""]
    ensures Split("data:" + payload, '\n') == ["data:" + payload]
  {
    NoBreakAfterPrefix("data:", payload);
    SplitNoSeparator("data:" + payload, '\n');
    SplitNoSeparator("", '\n');
    SplitPrefix("event:done", "", '\n');
    assert "event:done" + "\n" == "event:done" + ['\n'] + "";
  }

  lemma StreamCallsOne(chunk: string, parse: Parser)
    ensures StreamCalls([chunk], parse) == ChunkOutcome(chunk, parse)
  {
    var chunks := [chunk];
    assert chunks[0] == chunk && chunks[1..] == [];
    var c := ChunkOutcome(chunk, parse);
    assert c.onEvent + [] == c.onEvent;
  }

  lemma StreamCallsTwo(first: string, second: string, parse: Parser)
    ensures StreamCalls([first, second], parse) == Then(ChunkOutcome(first, parse), ChunkOutcome(second, parse))
  {
    var chunks := [first, second];
    assert chunks[0] == first && chunks[1..] == [second];
    StreamCallsOne(second, parse);
  }

  lemma DoneRecordInOneChunk(chunk: string, payload: string, e: AgentEvent, parse: Parser)
    requires payload != [] && TrimJs(payload) == payload
    requires parse(payload) == JsonEvent(e) && e.kind != "done" && e.kind != "error"
    requires Split(chunk, '\n') == ["event:done"] + ["data:" + payload]
    ensures StreamCalls([chunk], parse) == Callbacks([], Some(Done))
  {
    StreamCallsOne(chunk, parse);
    DataLine(payload, e, parse);
    EventDoneLine(["data:" + payload], parse);
  }

  lemma DoneRecordInTwoChunks(first: string, second: string, payload: string, e: AgentEvent, parse: Parser)
    requires payload != [] && TrimJs(payload) == payload
    requires parse(payload) == JsonEvent(e) && e.kind != "done" && e.kind != "error"
    requires Split(first, '\n') == ["event:done"] + [""]
    requires second == "data:" + payload && Split(second, '\n') == [second]
    ensures StreamCalls([first, second], parse) == Callbacks([e], None)
  {
    StreamCallsTwo(first, second, parse);
    assert ChunkOutcome(first, parse) == NoCalls by {
      var emptyLines: seq<string> := [""];
      assert emptyLines[1..] == [];
      EventDoneLine(emptyLines, parse);
    }
    assert ChunkOutcome(second, parse) == Callbacks([e], None) by {
      DataLine(payload, e, parse);
    }
    var none: seq<AgentEvent> := [];
    assert none + [e] == [e];
  }

  /** The event name does not carry to the next chunk: `event:done` ending
      one chunk does not make the next chunk's `data:` line terminal, while
      the same two lines in one chunk end the run with `onDone`. */
  lemma EventNameIsNotCarried(payload: string, e: AgentEvent, parse: Parser)
    requires payload != [] && '\n' !in payload && TrimJs(payload) == payload
    requires parse(payload) == JsonEvent(e) && e.kind != "done" && e.kind != "error"
    ensures StreamCalls(["event:done" + "\n" + "data:" + payload], parse) == Callbacks([], Some(Done))
    ensures StreamCalls(["event:done" + "\n", "data:" + payload], parse) == Callbacks([e], None)
  {
    OneChunkLines(payload);
    TwoChunkLines(payload);
    DoneRecordInOneChunk("event:done" + "\n" + "data:" + payload, payload, e, parse);
    DoneRecordInTwoChunks("event:done" + "\n", "data:" + payload, payload, e, parse);
  }

  /** A `null` payload ends the run under the name `done`, whose test is
      decided before `data.type` is read; under any other name reading
      `data.type` throws and the line is dropped. */
  lemma NullDataLine(payload: string, name: string, parse: Parser)
    requires payload != [] && TrimJs(payload) == payload && parse(payload) == JsonNull
    ensures name == "done" ==> ChunkCalls(["data:" + payload], name, parse) == Callbacks([], Some(Done))
    ensures name != "done" ==> ChunkCalls(["data:" + payload], name, parse) == NoCalls
  {
    var line := "data:" + payload;
    assert line[|DataPrefix|..] == payload && line[0] == 'd';
    assert DataPrefix <= line && !(EventPrefix <= line);
    var lines: seq<string> := [line];
    assert lines[1..] == [];
  }

  /** `event:done` followed by `data:null` ends the run with `onDone`, while
      the same `null` line on its own is dropped. */
  lemma NullDoneRecord(payload: string, parse: Parser)
    requires payload != [] && '\n' !in payload && TrimJs(payload) == payload
    requires parse(payload) == JsonNull
    ensures StreamCalls(["event:done" + "\n" + "data:" + payload], parse) == Callbacks([], Some(Done))
    ensures StreamCalls(["data:" + payload], parse) == NoCalls
  {
    OneChunkLines(payload);
    StreamCallsOne("event:done" + "\n" + "data:" + payload, parse);
    EventDoneLine(["data:" + payload], parse);
    NullDataLine(payload, "done", parse);
    NoBreakAfterPrefix("data:", payload);
    StreamCallsOne("data:" + payload, parse);
    OneLineChunk("data:" + payload, parse);
    NullDataLine(payload, "", parse);
  }
}
