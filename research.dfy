/** The research loop of the agent (backend/agent.py,
    `DeepResearchAgent.research`, lines 113-219): the events it yields, in
    order, as it alternates completions with tool calls for at most fifteen
    iterations. The completion service, the tool session and the JSON codec
    are the oracles of `Services`; a run that raises ends with `failed`. */
module Research {
  import opened Options
  import opened Text
  import opened Types
  import opened LlmClient

  const MaxIterations := 15
  const Initiating := "Initiating deep research..."
  const Analyzing := "Analyzing context..."
  const Formulating := "Formulating final answer..."
  const MaxDepth := "Max research depth reached."
  const SearchTool := "search_web"
  /** The text whose presence makes a plain reply a candidate tool call (line 167). */
  const MockMarker := "\"type\": \"function\""

  /** An event the agent yields, before it is encoded as JSON. */
  datatype ServerEvent =
    | Status(message: string)
    | Reasoning(content: string)
    | Answer(content: string)
    | ToolCalled(tool: string, args: Json)
    | LinksFound(links: seq<Json>)

  /** One content part of a tool result: text, or any other kind. */
  datatype Part = TextPart(text: string) | OtherPart

  /** What `session.call_tool` does: raise with a message, or return parts. */
  datatype ToolOutcome = Raised(error: string) | Returned(parts: seq<Part>)

  /** A completion round trip: `ainvoke` on the conversation so far, none
      when it raises. */
  type Asking = seq<ChatInput> -> Option<AiReply>

  /** What the run calls: whether opening the tool session raises (the
      `stdio_client` and `ClientSession` contexts, `initialize` and
      `list_tools`, lines 114-119), `ainvoke`, the JSON codec, the tool
      session, and the message of the exception raised when a parsed search
      result is not a list of objects (`str(e)` at line 209). */
  datatype Services = Services(
    setupFails: bool,
    ask: Asking,
    codec: Codec,
    callTool: (string, Json) -> ToolOutcome,
    shapeError: Json -> string)

  /** The state of a run: the events so far, the conversation, the
      iteration counter, whether the loop ended with an answer, and whether
      an exception escaped. */
  datatype Run = Run(events: seq<ServerEvent>, history: seq<ChatInput>, iteration: nat, answered: bool, failed: bool)

  /** The dict a server event is (lines 145-219). */
  function ToJson(e: ServerEvent): Json {
    match e
    case Status(m) => JObject(map["type" := JString("status"), "message" := JString(m)])
    case Reasoning(c) => JObject(map["type" := JString("reasoning"), "content" := JString(c)])
    case Answer(c) => JObject(map["type" := JString("answer"), "content" := JString(c)])
    case ToolCalled(t, a) => JObject(map["type" := JString("tool_call"), "tool" := JString(t), "args" := a])
    case LinksFound(ls) => JObject(map["type" := JString("links_found"), "links" := JArray(ls)])
  }

  /** `d.get(key, default)`. */
  function Get(d: map<string, Json>, key: string, default: Json): Json {
    if key in d then d[key] else default
  }

  /** The conversation the loop starts from (lines 140-143). */
  function InitialHistory(prompt: string, query: string): seq<ChatInput> {
    [Raw(map["role" := JString("system"), "content" := JString(prompt)]), Human(query)]
  }

  // ----- One iteration -----

  /** The reasoning event of a reply, if it has non-empty reasoning (158-163). */
  function ReasoningOf(reply: AiReply): seq<ServerEvent> {
    if reply.reasoning.Some? && reply.reasoning.value != "" then [Reasoning(reply.reasoning.value)] else []
  }

  /** The tool calls to run, or a failure when an exception escapes. */
  datatype Calls = Failed | Calls(calls: seq<ToolCall>)

  /** Lines 165-178: the reply's own tool calls; failing those, a reply whose
      stripped content starts with `{` and mentions `"type": "function"` is
      read as one call, named by its `name`, with its `parameters` (or `{}`)
      as arguments and `call_<iteration>` as id. Text that does not parse
      gives no call; a parsed value that is not an object raises, as `.get`
      does on it. */
  function CallsToProcess(reply: AiReply, iteration: nat, s: Services): Calls {
    if reply.toolCalls != [] then Calls(reply.toolCalls)
    else
      var stripped := StripPy(reply.content);
      if stripped != "" && stripped[0] == '{' && IndexOf(reply.content, MockMarker, 0).Some? then
        match s.codec.loads(reply.content)
        case None => Calls([])
        case Some(parsed) =>
          if !parsed.JObject? then Failed
          else
            var f := parsed.fields;
            if Get(f, "type", JNull) == JString("function") && "name" in f then
              if f["name"].JString? then
                Calls([ToolCall(f["name"].s, Get(f, "parameters", EmptyObject()), "call_" + Decimal(iteration))])
              else Failed
            else Calls([])
      else Calls([])
  }

  /** The title and URL of one search result (line 198), `""` when absent. */
  function LinkOf(r: map<string, Json>): Json {
    JObject(map["title" := Get(r, "title", JString("")), "url" := Get(r, "url", JString(""))])
  }

  function LinksOfItems(items: seq<Json>): Option<seq<Json>> {
    if items == [] then Some([])
    else
      var last := items[|items| - 1];
      match LinksOfItems(items[..|items| - 1])
      case None => None
      case Some(ls) => if last.JObject? then Some(ls + [LinkOf(last.fields)]) else None
  }

  /** The comprehension of line 198 over a parsed result: a list gives one
      link per entry when every entry is an object; iterating an empty object
      or an empty string gives nothing; anything else raises (none). */
  function LinksOf(parsed: Json): Option<seq<Json>> {
    match parsed
    case JArray(items) => LinksOfItems(items)
    case JObject(fields) => if fields == map[] then Some([]) else None
    case JString(text) => if text == "" then Some([]) else None
    case _ => None
  }

  /** The text of a tool result as line 193 writes it: its text parts joined
      by the two characters `\` and `n`, as the literal `"\\n"` spells. */
  function ResultText(parts: seq<Part>): string {
    JoinWith(TextsOf(parts), EscapedNewline)
  }

  const EscapedNewline := "\\n"

  function TextsOf(parts: seq<Part>): seq<string> {
    if parts == [] then []
    else TextsOf(parts[..|parts| - 1]) + (if parts[|parts| - 1].TextPart? then [parts[|parts| - 1].text] else [])
  }

  /** Python's `sep.join(texts)`. */
  function JoinWith(texts: seq<string>, sep: string): string {
    if texts == [] then ""
    else if |texts| == 1 then texts[0]
    else JoinWith(texts[..|texts| - 1], sep) + sep + texts[|texts| - 1]
  }

  /** Line 193 as evidently intended, and as this model runs it: the text
      parts joined by line breaks. */
  function ResultTextIntended(parts: seq<Part>): string {
    var texts := TextsOf(parts);
    if texts == [] then "" else Join(texts, '\n')
  }

  /** With newline separators, the lines of the result give back the text
      parts, when they are themselves single lines. */
  lemma ResultTextIntendedSplits(parts: seq<Part>)
    requires TextsOf(parts) != []
    requires forall i :: 0 <= i < |TextsOf(parts)| ==> '\n' !in TextsOf(parts)[i]
    ensures Split(ResultTextIntended(parts), '\n') == TextsOf(parts)
  {
    SplitJoin(TextsOf(parts), '\n');
  }

  /** As written, two text parts `a` and `b` become the single line
      `a\nb`, with a backslash and an `n` between them and no line break. */
  lemma EscapedJoinMergesLines()
    ensures ResultText([TextPart("a"), TextPart("b")]) == "a\\nb"
    ensures Split(ResultText([TextPart("a"), TextPart("b")]), '\n') == ["a\\nb"]
    ensures ResultTextIntended([TextPart("a"), TextPart("b")]) == "a\nb"
  {
    var parts := [TextPart("a"), TextPart("b")];
    assert parts[..1] == [TextPart("a")];
    assert [TextPart("a")][..0] == [];
    assert TextsOf(parts) == ["a", "b"];
    assert ["a", "b"][..1] == ["a"];
    SplitNoSeparator("a\\nb", '\n');
  }

  function ToolError(name: string, error: string): string {
    "Error executing tool " + name + ": " + error
  }

  /** What one tool call adds: its events and its tool message. */
  datatype Step = Step(events: seq<ServerEvent>, message: ChatInput)

  /** One pass of the tool loop (lines 186-214): the `tool_call` event comes
      first; a search whose result parses into links adds `links_found`; the
      tool message holds the result text, or the error text when the call or
      the reading of the links raised. */
  function ToolStep(call: ToolCall, s: Services): Step {
    var called := ToolCalled(call.name, call.args);
    match s.callTool(call.name, call.args)
    case Raised(err) => Step([called], ToolResult(call.id, ToolError(call.name, err), call.name))
    case Returned(parts) =>
      var text := ResultTextIntended(parts);
      if call.name != SearchTool then Step([called], ToolResult(call.id, text, call.name))
      else
        match s.codec.loads(text)
        case None => Step([called], ToolResult(call.id, text, call.name))
        case Some(parsed) =>
          match LinksOf(parsed)
          case None => Step([called], ToolResult(call.id, ToolError(call.name, s.shapeError(parsed)), call.name))
          case Some(links) => Step([called, LinksFound(links)], ToolResult(call.id, text, call.name))
  }

  /** The events and messages of the whole tool loop. */
  datatype Steps = Steps(events: seq<ServerEvent>, messages: seq<ChatInput>)

  function ToolSteps(calls: seq<ToolCall>, s: Services): Steps {
    if calls == [] then Steps([], [])
    else
      var prev := ToolSteps(calls[..|calls| - 1], s);
      var step := ToolStep(calls[|calls| - 1], s);
      Steps(prev.events + step.events, prev.messages + [step.message])
  }

  // ----- The loop -----

  /** `done` events followed by those of `r`. */
  function Extend(done: seq<ServerEvent>, r: Run): Run {
    r.(events := done + r.events)
  }

  /** The services of the agent, whose `ainvoke` sends the formatted
      conversation to the completion service `complete`. */
  function AgentServices(setupFails: bool, complete: seq<Wire> -> Option<Completion>, codec: Codec,
                         callTool: (string, Json) -> ToolOutcome, shapeError: Json -> string): Services
  {
    Services(setupFails, h => Ainvoke(h, complete, codec), codec, callTool, shapeError)
  }

  /** How an iteration ends: the loop goes on, it ends with the answer,
      or an exception escapes. */
  datatype Outcome = Continues | Answers | Raises

  /** What one iteration yields and leaves in the conversation. */
  datatype Turn = Turn(events: seq<ServerEvent>, history: seq<ChatInput>, outcome: Outcome)

  /** Iteration number `iteration + 1` (lines 151-214): it starts with
      `Analyzing context...`; a failed completion raises; the reply joins the
      conversation and its reasoning is yielded; a reply with nothing to call
      yields the final status and the answer; otherwise every call runs. */
  function TakeTurn(iteration: nat, history: seq<ChatInput>, s: Services): Turn {
    match s.ask(history)
    case None => Turn([Status(Analyzing)], history, Raises)
    case Some(reply) => Respond(history, reply, CallsToProcess(reply, iteration + 1, s), s)
  }

  /** The rest of an iteration once the completion returned `reply` and
      the calls to process are known. */
  function Respond(history: seq<ChatInput>, reply: AiReply, toProcess: Calls, s: Services): Turn {
    var h := history + [Ai(reply.content, reply.toolCalls)];
    var head := [Status(Analyzing)] + ReasoningOf(reply);
    match toProcess
    case Failed => Turn(head, h, Raises)
    case Calls(calls) =>
      if calls == [] then Turn(head + [Status(Formulating), Answer(reply.content)], h, Answers)
      else
        var t := ToolSteps(calls, s);
        Turn(head + t.events, h + t.messages, Continues)
  }

  /** An iteration, given its zero-based number and the conversation. */
  type Turning = (nat, seq<ChatInput>) -> Turn

  /** The agent's iterations over the services. */
  function Turner(s: Services): Turning {
    (i: nat, h: seq<ChatInput>) => TakeTurn(i, h, s)
  }

  /** The iterations after the first `iteration` (lines 150-214). */
  function Iterate(iteration: nat, history: seq<ChatInput>, turn: Turning): Run
    decreases MaxIterations - iteration
  {
    if iteration >= MaxIterations then Run([], history, iteration, false, false)
    else
      var t := turn(iteration, history);
      if t.outcome == Continues then Extend(t.events, Iterate(iteration + 1, t.history, turn))
      else Run(t.events, t.history, iteration + 1, t.outcome == Answers, t.outcome == Raises)
  }

  /** Lines 216-219 as written: once the counter reached fifteen, whether or
      not the loop ended with an answer, the depth status and the answer of
      one more completion follow. */
  function FinishAsWritten(r: Run, ask: Asking): Run {
    if r.failed || r.iteration < MaxIterations then r
    else
      var events := r.events + [Status(MaxDepth)];
      match ask(r.history)
      case None => r.(events := events, failed := true)
      case Some(fin) => r.(events := events + [Answer(fin.content)])
  }

  /** Lines 216-219 as evidently intended, and as this model runs them: the
      depth status and one more completion only when the loop ran out of
      iterations without an answer. */
  function Finish(r: Run, ask: Asking): Run {
    if r.failed || r.answered then r
    else
      var events := r.events + [Status(MaxDepth)];
      match ask(r.history)
      case None => r.(events := events, failed := true)
      case Some(fin) => r.(events := events + [Answer(fin.content)])
  }

  /** A whole run: opening the tool session, which raises before anything
      is yielded when it fails; then the opening status, the loop, the final
      step. */
  function Research(prompt: string, query: string, s: Services): Run {
    if s.setupFails then Run([], [], 0, false, true)
    else Finish(Extend([Status(Initiating)], Iterate(0, InitialHistory(prompt, query), Turner(s))), s.ask)
  }

  /** The tool loop (lines 185-214), yielding into `events` and appending
      to `messages`. */
  method RunTools(calls: seq<ToolCall>, s: Services) returns (events: seq<ServerEvent>, messages: seq<ChatInput>)
    ensures events == ToolSteps(calls, s).events && messages == ToolSteps(calls, s).messages
  {
    events := [];
    messages := [];
    for k := 0 to |calls|
      invariant events == ToolSteps(calls[..k], s).events
      invariant messages == ToolSteps(calls[..k], s).messages
    {
      assert calls[..k + 1][..k] == calls[..k];
      var step := ToolStep(calls[k], s);
      events := events + step.events;
      messages := messages + [step.message];
    }
    assert calls[..|calls|] == calls;
  }

  /** One pass of the loop body (lines 151-214), yielding into `events`. */
  method RunTurn(iteration: nat, messages: seq<ChatInput>, s: Services)
    returns (events: seq<ServerEvent>, history: seq<ChatInput>, outcome: Outcome)
    ensures Turn(events, history, outcome) == TakeTurn(iteration, messages, s)
  {
    events := [Status(Analyzing)];
    history := messages;
    var response := s.ask(messages);
    if response.None? {
      return events, history, Raises;
    }
    var reply := response.value;
    history := history + [Ai(reply.content, reply.toolCalls)];
    if reply.reasoning.Some? && reply.reasoning.value != "" {
      events := events + [Reasoning(reply.reasoning.value)];
    }
    var toProcess := CallsToProcess(reply, iteration + 1, s);
    if toProcess.Failed? {
      return events, history, Raises;
    }
    var calls := toProcess.calls;
    if calls == [] {
      events := events + [Status(Formulating), Answer(reply.content)];
      return events, history, Answers;
    }
    var toolEvents, toolMessages := RunTools(calls, s);
    events := events + toolEvents;
    history := history + toolMessages;
    outcome := Continues;
  }

  /** `research` (lines 140-219), yielding into `events`. */
  method RunResearch(prompt: string, query: string, s: Services) returns (events: seq<ServerEvent>, failed: bool)
    ensures events == Research(prompt, query, s).events
    ensures failed == Research(prompt, query, s).failed
  {
    if s.setupFails {
      return [], true;
    }
    var loop := RunLoop(InitialHistory(prompt, query), s, Turner(s));
    var r := Extend([Status(Initiating)], loop);
    if r.failed {
      return r.events, true;
    }
    events, failed := Conclude(r, s);
  }

  /** The `while` loop of lines 150-214, from the conversation `start`: the
      events it yields, the conversation it leaves, the counter, and whether
      it ended with an answer or an exception. */
  method RunLoop(start: seq<ChatInput>, s: Services, ghost turn: Turning) returns (r: Run)
    requires forall i: nat, h: seq<ChatInput> {:trigger TakeTurn(i, h, s)} :: turn(i, h) == TakeTurn(i, h, s)
    ensures r == Iterate(0, start, turn)
  {
    ghost var whole := Iterate(0, start, turn);
    var messages := start;
    var trail: seq<ServerEvent> := [];
    var iteration: nat := 0;
    var outcome := Continues;
    while iteration < MaxIterations && outcome == Continues
      invariant iteration <= MaxIterations
      invariant outcome == Continues ==> whole == Extend(trail, Iterate(iteration, messages, turn))
      invariant outcome != Continues ==> whole == Run(trail, messages, iteration, outcome == Answers, outcome == Raises)
      decreases MaxIterations - iteration
    {
      var turnEvents, history;
      turnEvents, history, outcome := RunTurn(iteration, messages, s);
      LoopStep(start, trail, iteration, messages, turn, Turn(turnEvents, history, outcome));
      iteration := iteration + 1;
      trail := trail + turnEvents;
      messages := history;
    }
    r := Run(trail, messages, iteration, outcome == Answers, outcome == Raises);
  }

  /** One iteration of `RunLoop` keeps its invariant, or ends the loop with
      the run `Iterate` computes. */
  lemma LoopStep(start: seq<ChatInput>, trail: seq<ServerEvent>, i: nat, h: seq<ChatInput>, turn: Turning, t: Turn)
    requires i < MaxIterations && turn(i, h) == t
    requires Iterate(0, start, turn) == Extend(trail, Iterate(i, h, turn))
    ensures t.outcome == Continues ==>
      Iterate(0, start, turn) == Extend(trail + t.events, Iterate(i + 1, t.history, turn))
    ensures t.outcome != Continues ==>
      Iterate(0, start, turn) == Run(trail + t.events, t.history, i + 1, t.outcome == Answers, t.outcome == Raises)
  {
    ExtendExtend(trail, t.events, Iterate(i + 1, t.history, turn));
  }

  /** Lines 216-219, with the intended check: after the loop, with its
      events so far in `r`. */
  method Conclude(r: Run, s: Services) returns (events: seq<ServerEvent>, failed: bool)
    requires !r.failed
    ensures events == Finish(r, s.ask).events && failed == Finish(r, s.ask).failed
  {
    events := r.events;
    if !r.answered {
      events := events + [Status(MaxDepth)];
      var final := s.ask(r.history);
      if final.None? {
        return events, true;
      }
      events := events + [Answer(final.value.content)];
    }
    failed := false;
  }

  lemma ExtendExtend(a: seq<ServerEvent>, b: seq<ServerEvent>, r: Run)
    ensures Extend(a, Extend(b, r)) == Extend(a + b, r)
  {
    assert a + (b + r.events) == a + b + r.events;
  }

  // ----- Properties of the event stream -----

  /** The number of events satisfying `p`. */
  function CountWhere(es: seq<ServerEvent>, p: ServerEvent -> bool): nat {
    if es == [] then 0 else CountWhere(es[..|es| - 1], p) + (if p(es[|es| - 1]) then 1 else 0)
  }

  predicate IsAnalyzing(e: ServerEvent) {
    e == Status(Analyzing)
  }

  predicate IsAnswer(e: ServerEvent) {
    e.Answer?
  }

  predicate IsToolCalled(e: ServerEvent) {
    e.ToolCalled?
  }

  /** Every `links_found` event comes right after the `tool_call` event of a
      web search. */
  predicate LinksFollowSearch(es: seq<ServerEvent>) {
    forall k :: 0 <= k < |es| && es[k].LinksFound? ==> k > 0 && es[k - 1].ToolCalled? && es[k - 1].tool == SearchTool
  }

  /** The events end with `Formulating final answer...` and an answer. */
  predicate EndsWithAnswer(es: seq<ServerEvent>) {
    |es| >= 2 && es[|es| - 1].Answer? && es[|es| - 2] == Status(Formulating)
  }

  lemma EndsWithAnswerAppend(a: seq<ServerEvent>, b: seq<ServerEvent>)
    requires EndsWithAnswer(b)
    ensures EndsWithAnswer(a + b)
  {
    var es := a + b;
    assert es[|es| - 1] == b[|b| - 1];
    assert es[|es| - 2] == b[|b| - 2];
  }

  lemma {:induction false} CountAppend(a: seq<ServerEvent>, b: seq<ServerEvent>, p: ServerEvent -> bool)
    ensures CountWhere(a + b, p) == CountWhere(a, p) + CountWhere(b, p)
    decreases |b|
  {
    if b == [] {
      assert a + b == a;
    } else {
      assert (a + b)[..|a + b| - 1] == a + b[..|b| - 1];
      CountAppend(a, b[..|b| - 1], p);
    }
  }

  lemma CountOne(e: ServerEvent, p: ServerEvent -> bool)
    ensures CountWhere([e], p) == if p(e) then 1 else 0
  {
    assert [e][..0] == [];
  }

  lemma LinksFollowAppend(a: seq<ServerEvent>, b: seq<ServerEvent>)
    requires LinksFollowSearch(a) && LinksFollowSearch(b)
    ensures LinksFollowSearch(a + b)
  {
    forall k | 0 <= k < |a + b| && (a + b)[k].LinksFound?
      ensures k > 0 && (a + b)[k - 1].ToolCalled? && (a + b)[k - 1].tool == SearchTool
    {
      if k >= |a| {
        assert (a + b)[k] == b[k - |a|];
        if k - |a| > 0 {
          assert (a + b)[k - 1] == b[k - |a| - 1];
        }
      }
    }
  }

  /** One tool call yields its `tool_call` event first, then at most its
      links, and leaves a tool message answering its id. */
  lemma StepShape(call: ToolCall, s: Services)
    ensures var step := ToolStep(call, s);
      && CountWhere(step.events, IsToolCalled) == 1
      && CountWhere(step.events, IsAnalyzing) == 0
      && CountWhere(step.events, IsAnswer) == 0
      && LinksFollowSearch(step.events)
      && step.events[0] == ToolCalled(call.name, call.args)
      && step.message.ToolResult? && step.message.toolCallId == call.id
  {
    var step := ToolStep(call, s);
    var called := ToolCalled(call.name, call.args);
    CountOne(called, IsToolCalled);
    CountOne(called, IsAnalyzing);
    CountOne(called, IsAnswer);
    if |step.events| == 2 {
      var links := step.events[1];
      assert step.events == [called] + [links];
      CountAppend([called], [links], IsToolCalled);
      CountAppend([called], [links], IsAnalyzing);
      CountAppend([called], [links], IsAnswer);
      CountOne(links, IsToolCalled);
      CountOne(links, IsAnalyzing);
      CountOne(links, IsAnswer);
    } else {
      assert step.events == [called];
    }
  }

  /** The tool loop yields, per call and in order, its `tool_call` event
      first and possibly its links; it yields no status and no answer. */
  lemma {:induction false} ToolStepsEvents(calls: seq<ToolCall>, s: Services)
    ensures var es := ToolSteps(calls, s).events;
      && CountWhere(es, IsToolCalled) == |calls|
      && CountWhere(es, IsAnalyzing) == 0
      && CountWhere(es, IsAnswer) == 0
      && LinksFollowSearch(es)
      && (calls != [] ==> es[0] == ToolCalled(calls[0].name, calls[0].args))
  {
    if calls != [] {
      var init := calls[..|calls| - 1];
      var call := calls[|calls| - 1];
      ToolStepsEvents(init, s);
      var prev := ToolSteps(init, s).events;
      var step := ToolStep(call, s).events;
      StepShape(call, s);
      CountAppend(prev, step, IsToolCalled);
      CountAppend(prev, step, IsAnalyzing);
      CountAppend(prev, step, IsAnswer);
      LinksFollowAppend(prev, step);
      if init == [] {
        assert ToolSteps(calls, s).events == [] + step;
      } else {
        assert calls[0] == init[0];
      }
    }
  }

  /** The tool loop leaves one tool message per call, in order, each
      answering its call's id. */
  lemma {:induction false} ToolStepsMessages(calls: seq<ToolCall>, s: Services)
    ensures var ms := ToolSteps(calls, s).messages;
      && |ms| == |calls|
      && forall k :: 0 <= k < |calls| ==> ms[k].ToolResult? && ms[k].toolCallId == calls[k].id
  {
    if calls != [] {
      ToolStepsMessages(calls[..|calls| - 1], s);
      StepShape(calls[|calls| - 1], s);
    }
  }

  /** The opening of an iteration: one `Analyzing context...`, then at most
      the reasoning. */
  lemma HeadShape(reply: AiReply)
    ensures var head := [Status(Analyzing)] + ReasoningOf(reply);
      && head[0] == Status(Analyzing)
      && CountWhere(head, IsAnalyzing) == 1
      && CountWhere(head, IsAnswer) == 0
      && LinksFollowSearch(head)
  {
    var r := ReasoningOf(reply);
    CountAppend([Status(Analyzing)], r, IsAnalyzing);
    CountAppend([Status(Analyzing)], r, IsAnswer);
    CountOne(Status(Analyzing), IsAnalyzing);
    CountOne(Status(Analyzing), IsAnswer);
    if r != [] {
      CountOne(r[0], IsAnalyzing);
      CountOne(r[0], IsAnswer);
    }
  }

  /** What every iteration guarantees about its events: one `Analyzing
      context...`, first; an answer exactly when it ends the loop, right
      after `Formulating final answer...`; links only after their search. */
  predicate WellShaped(t: Turn) {
    && t.events != [] && t.events[0] == Status(Analyzing)
    && CountWhere(t.events, IsAnalyzing) == 1
    && CountWhere(t.events, IsAnswer) == (if t.outcome == Answers then 1 else 0)
    && (t.outcome == Answers ==> EndsWithAnswer(t.events))
    && LinksFollowSearch(t.events)
  }

  /** Every iteration `turn` can take is well shaped. */
  ghost predicate AllWellShaped(turn: Turning) {
    forall i, h {:trigger WellShaped(turn(i, h))} :: WellShaped(turn(i, h))
  }

  /** An iteration's opening followed by the rest of its events: one
      `Analyzing context...`, first; the rest's answers; links only after
      their search. */
  lemma JoinShape(reply: AiReply, tail: seq<ServerEvent>, answers: nat)
    requires CountWhere(tail, IsAnalyzing) == 0 && CountWhere(tail, IsAnswer) == answers
    requires LinksFollowSearch(tail)
    ensures var es := [Status(Analyzing)] + ReasoningOf(reply) + tail;
      && es[0] == Status(Analyzing)
      && CountWhere(es, IsAnalyzing) == 1
      && CountWhere(es, IsAnswer) == answers
      && LinksFollowSearch(es)
      && (EndsWithAnswer(tail) ==> EndsWithAnswer(es))
  {
    var head := [Status(Analyzing)] + ReasoningOf(reply);
    HeadShape(reply);
    CountAppend(head, tail, IsAnalyzing);
    CountAppend(head, tail, IsAnswer);
    LinksFollowAppend(head, tail);
    if EndsWithAnswer(tail) {
      EndsWithAnswerAppend(head, tail);
    }
  }

  /** The rest of an iteration is well shaped, and the conversation only
      grows. */
  lemma RespondShape(history: seq<ChatInput>, reply: AiReply, toProcess: Calls, s: Services)
    ensures var t := Respond(history, reply, toProcess, s);
      && WellShaped(t)
      && |history| < |t.history| && t.history[..|history|] == history
  {
    var h := history + [Ai(reply.content, reply.toolCalls)];
    var head := [Status(Analyzing)] + ReasoningOf(reply);
    match toProcess
    case Failed =>
      HeadShape(reply);
    case Calls(calls) =>
      if calls == [] {
        var tail := [Status(Formulating), Answer(reply.content)];
        AnswerTailShape(reply.content);
        JoinShape(reply, tail, 1);
      } else {
        var steps := ToolSteps(calls, s);
        ToolStepsEvents(calls, s);
        JoinShape(reply, steps.events, 0);
        assert (h + steps.messages)[..|history|] == history;
      }
  }

  /** The end of an iteration that answers. */
  lemma AnswerTailShape(content: string)
    ensures var tail := [Status(Formulating), Answer(content)];
      && CountWhere(tail, IsAnalyzing) == 0
      && CountWhere(tail, IsAnswer) == 1
      && EndsWithAnswer(tail)
      && LinksFollowSearch(tail)
  {
    var tail := [Status(Formulating), Answer(content)];
    assert tail == [Status(Formulating)] + [Answer(content)];
    CountAppend([Status(Formulating)], [Answer(content)], IsAnalyzing);
    CountAppend([Status(Formulating)], [Answer(content)], IsAnswer);
    CountOne(Status(Formulating), IsAnalyzing);
    CountOne(Status(Formulating), IsAnswer);
    CountOne(Answer(content), IsAnalyzing);
    CountOne(Answer(content), IsAnswer);
  }

  /** Every iteration of the agent is well shaped, and the conversation only
      grows. */
  lemma TurnShape(iteration: nat, history: seq<ChatInput>, s: Services)
    ensures var t := TakeTurn(iteration, history, s);
      && WellShaped(t)
      && |history| <= |t.history| && t.history[..|history|] == history
  {
    match s.ask(history)
    case None =>
      CountOne(Status(Analyzing), IsAnalyzing);
      CountOne(Status(Analyzing), IsAnswer);
    case Some(reply) =>
      RespondShape(history, reply, CallsToProcess(reply, iteration + 1, s), s);
  }

  lemma TurnerShaped(s: Services)
    ensures AllWellShaped(Turner(s))
  {
    forall i, h ensures WellShaped(Turner(s)(i, h)) {
      TurnShape(i, h, s);
    }
  }

  /** What the loop guarantees when it starts at iteration `i`: one
      `Analyzing context...` per iteration run, never beyond the fifteenth;
      an answer only when it ends with one, as its last event, right after
      `Formulating final answer...`; links only after their search; and when
      it neither answers nor fails, it ran all fifteen iterations. */
  predicate LoopShaped(r: Run, i: nat) {
    && i <= r.iteration <= MaxIterations
    && CountWhere(r.events, IsAnalyzing) == r.iteration - i
    && CountWhere(r.events, IsAnswer) == (if r.answered then 1 else 0)
    && !(r.answered && r.failed)
    && (!r.failed && !r.answered ==> r.iteration == MaxIterations)
    && (r.answered ==> EndsWithAnswer(r.events))
    && LinksFollowSearch(r.events)
  }

  /** The loop from iteration `i` on, over well-shaped iterations, is
      shaped as `LoopShaped` says. */
  lemma {:induction false} IterateShape(i: nat, h: seq<ChatInput>, turn: Turning)
    requires i <= MaxIterations && AllWellShaped(turn)
    decreases MaxIterations - i
    ensures LoopShaped(Iterate(i, h, turn), i)
  {
    if i < MaxIterations {
      var t := turn(i, h);
      assert WellShaped(t);
      if t.outcome == Continues {
        IterateShape(i + 1, t.history, turn);
        var rest := Iterate(i + 1, t.history, turn);
        CountAppend(t.events, rest.events, IsAnalyzing);
        CountAppend(t.events, rest.events, IsAnswer);
        LinksFollowAppend(t.events, rest.events);
        if rest.answered {
          EndsWithAnswerAppend(t.events, rest.events);
        }
      }
    }
  }

  /** The run before its final step: `Initiating deep research...` first,
      then the loop's events, which keep their counts and order. */
  lemma OpenShape(loop: Run)
    requires LoopShaped(loop, 0)
    ensures var r := Extend([Status(Initiating)], loop);
      && |r.events| > 0 && r.events[0] == Status(Initiating)
      && CountWhere(r.events, IsAnalyzing) == loop.iteration
      && CountWhere(r.events, IsAnswer) == (if loop.answered then 1 else 0)
      && (loop.answered ==> EndsWithAnswer(r.events))
      && LinksFollowSearch(r.events)
  {
    var start := [Status(Initiating)];
    CountAppend(start, loop.events, IsAnalyzing);
    CountAppend(start, loop.events, IsAnswer);
    CountOne(Status(Initiating), IsAnalyzing);
    CountOne(Status(Initiating), IsAnswer);
    LinksFollowAppend(start, loop.events);
    if loop.answered {
      EndsWithAnswerAppend(start, loop.events);
    }
  }

  /** The source's extra completion after a loop that reached fifteen: the
      depth status and, unless the completion raises, one more answer. */
  lemma FinishShape(r: Run, ask: Asking)
    requires !r.failed && r.iteration >= MaxIterations && LinksFollowSearch(r.events)
    ensures var f := FinishAsWritten(r, ask);
      && f.events[..|r.events|] == r.events
      && CountWhere(f.events, IsAnalyzing) == CountWhere(r.events, IsAnalyzing)
      && LinksFollowSearch(f.events)
      && (!f.failed ==> f.events[|f.events| - 1].Answer?)
      && (!f.failed ==> CountWhere(f.events, IsAnswer) == CountWhere(r.events, IsAnswer) + 1)
  {
    var depth := [Status(MaxDepth)];
    CountAppend(r.events, depth, IsAnalyzing);
    CountAppend(r.events, depth, IsAnswer);
    CountOne(Status(MaxDepth), IsAnalyzing);
    CountOne(Status(MaxDepth), IsAnswer);
    LinksFollowAppend(r.events, depth);
    match ask(r.history)
    case None =>
    case Some(fin) =>
      var answer := [Answer(fin.content)];
      assert r.events + depth + answer == r.events + (depth + answer);
      CountAppend(r.events + depth, answer, IsAnalyzing);
      CountAppend(r.events + depth, answer, IsAnswer);
      CountOne(Answer(fin.content), IsAnalyzing);
      CountOne(Answer(fin.content), IsAnswer);
      LinksFollowAppend(r.events + depth, answer);
  }

  /** For any loop result shaped as `LoopShaped` says, the whole run opens
      with `Initiating deep research...`; yields one `Analyzing context...`
      per iteration, at most fifteen; links only after their search; and,
      unless it failed, ends with its only answer. It differs from the run
      as written only when the loop answered on its fifteenth iteration. */
  lemma StartShape(loop: Run, ask: Asking)
    requires LoopShaped(loop, 0)
    ensures var r := Finish(Extend([Status(Initiating)], loop), ask);
      && |r.events| > 0 && r.events[0] == Status(Initiating)
      && CountWhere(r.events, IsAnalyzing) == loop.iteration <= MaxIterations
      && LinksFollowSearch(r.events)
      && (!r.failed ==> r.events[|r.events| - 1].Answer? && CountWhere(r.events, IsAnswer) == 1)
    ensures !(loop.answered && loop.iteration == MaxIterations) ==>
      Finish(Extend([Status(Initiating)], loop), ask) == FinishAsWritten(Extend([Status(Initiating)], loop), ask)
  {
    OpenShape(loop);
    if !loop.failed && !loop.answered {
      FinishShape(Extend([Status(Initiating)], loop), ask);
    }
  }

  /** `StartShape` with the final step as written: unless the run failed, it
      ends with an answer, which is its only one except when the loop
      answered on its fifteenth iteration: then a second follows. */
  lemma StartShapeAsWritten(loop: Run, ask: Asking)
    requires LoopShaped(loop, 0)
    ensures var r := FinishAsWritten(Extend([Status(Initiating)], loop), ask);
      && CountWhere(r.events, IsAnalyzing) == loop.iteration
      && LinksFollowSearch(r.events)
      && (!r.failed ==> r.events[|r.events| - 1].Answer?)
      && (!r.failed ==>
            CountWhere(r.events, IsAnswer) == if loop.answered && loop.iteration == MaxIterations then 2 else 1)
  {
    OpenShape(loop);
    if !loop.failed && loop.iteration >= MaxIterations {
      FinishShape(Extend([Status(Initiating)], loop), ask);
    }
  }

  /** A run over well-shaped iterations is shaped as `StartShape` says. */
  lemma RunShape(h: seq<ChatInput>, turn: Turning, ask: Asking)
    requires AllWellShaped(turn)
    ensures var loop := Iterate(0, h, turn);
      var r := Finish(Extend([Status(Initiating)], loop), ask);
      && |r.events| > 0 && r.events[0] == Status(Initiating)
      && CountWhere(r.events, IsAnalyzing) == loop.iteration <= MaxIterations
      && LinksFollowSearch(r.events)
      && (!r.failed ==> r.events[|r.events| - 1].Answer? && CountWhere(r.events, IsAnswer) == 1)
  {
    IterateShape(0, h, turn);
    StartShape(Iterate(0, h, turn), ask);
  }

  /** A run whose tool session fails to open raises having yielded nothing.
      Otherwise the run opens with `Initiating deep research...`; yields one
      `Analyzing context...` per iteration, at most fifteen; yields links
      only right after a `search_web` call; and, unless an exception ends
      it, ends with its one and only answer. */
  lemma ResearchSpec(prompt: string, query: string, s: Services)
    ensures s.setupFails ==> Research(prompt, query, s).events == [] && Research(prompt, query, s).failed
    ensures var loop := Iterate(0, InitialHistory(prompt, query), Turner(s));
      var r := Research(prompt, query, s);
      !s.setupFails ==>
      && |r.events| > 0 && r.events[0] == Status(Initiating)
      && CountWhere(r.events, IsAnalyzing) == loop.iteration <= MaxIterations
      && LinksFollowSearch(r.events)
      && (!r.failed ==> r.events[|r.events| - 1].Answer? && CountWhere(r.events, IsAnswer) == 1)
  {
    if !s.setupFails {
      TurnerShaped(s);
      RunShape(InitialHistory(prompt, query), Turner(s), s.ask);
    }
  }

  /** As written, the post-loop check is `iteration >= 15`, which also holds
      when the fifteenth iteration answered: that iteration yields the
      answer, then `Max research depth reached.` and the answer of one more
      completion. */
  lemma AnswerOnLastIteration(h: seq<ChatInput>, s: Services, reply: AiReply, fin: AiReply)
    requires s.ask(h) == Some(reply)
    requires CallsToProcess(reply, MaxIterations, s) == Calls([])
    requires s.ask(h + [Ai(reply.content, reply.toolCalls)]) == Some(fin)
    ensures FinishAsWritten(Iterate(MaxIterations - 1, h, Turner(s)), s.ask).events ==
      [Status(Analyzing)] + ReasoningOf(reply)
        + [Status(Formulating), Answer(reply.content), Status(MaxDepth), Answer(fin.content)]
    ensures CountWhere(FinishAsWritten(Iterate(MaxIterations - 1, h, Turner(s)), s.ask).events, IsAnswer) == 2
  {
    var r := Iterate(MaxIterations - 1, h, Turner(s));
    var head := [Status(Analyzing)] + ReasoningOf(reply);
    var t := TakeTurn(MaxIterations - 1, h, s);
    assert t == Turn(head + [Status(Formulating), Answer(reply.content)], h + [Ai(reply.content, reply.toolCalls)], Answers);
    assert r == Run(t.events, t.history, MaxIterations, true, false);
    RespondShape(h, reply, Calls([]), s);
    FinishShape(r, s.ask);
    assert FinishAsWritten(r, s.ask).events == r.events + [Status(MaxDepth)] + [Answer(fin.content)];
  }
}
