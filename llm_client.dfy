/** The chat-completion client of the research agent (backend/agent.py,
    `NvidiaLLM.ainvoke`, lines 25-99): it formats the conversation into the
    wire messages of the completion API, makes sure a `/think` directive is
    among them, sends them, and turns the reply into an assistant message,
    splitting off the `<think>` block as reasoning and parsing each tool
    call's arguments. The completion service and the JSON codec are
    parameters. */
module LlmClient {
  import opened Options
  import opened Text
  import opened Types

  /** A tool call as an assistant message holds it (`{"name", "args", "id"}`). */
  datatype ToolCall = ToolCall(name: string, args: Json, id: string)

  /** An entry of the conversation handed to `ainvoke`: a plain dict, passed
      through as it is, or a message object by its `type`. A message object of
      any other type (`Unlisted`) matches no branch of the formatting loop. */
  datatype ChatInput =
    | Raw(fields: map<string, Json>)
    | Human(content: string)
    | System(content: string)
    | Ai(content: string, toolCalls: seq<ToolCall>)
    | ToolResult(toolCallId: string, content: string, name: string)
    | Unlisted(kind: string)

  /** A message as sent to the completion API: a JSON object. */
  type Wire = map<string, Json>

  /** A tool call in the completion's reply: `tc.id`, `tc.function.name` and
      `tc.function.arguments`, which may be missing. */
  datatype WireCall = WireCall(id: string, name: string, arguments: Option<string>)

  /** The first choice's message of a completion. */
  datatype Completion = Completion(content: Option<string>, toolCalls: seq<WireCall>)

  /** The assistant message `ainvoke` returns; `reasoning` is the entry of
      `additional_kwargs`, present only when set. */
  datatype AiReply = AiReply(content: string, reasoning: Option<string>, toolCalls: seq<ToolCall>)

  /** Python's `json` module as the client uses it: `loads` is none when the
      text does not parse. */
  datatype Codec = Codec(loads: string -> Option<Json>, dumps: Json -> string)

  const ThinkDirective := "/think"
  const Open := "<think>"
  const Close := "</think>"

  function EmptyObject(): Json {
    JObject(map[])
  }

  /** The system message inserted at the front (line 57). */
  function ThinkMessage(): Wire {
    map["role" := JString("system"), "content" := JString(ThinkDirective)]
  }

  // ----- Formatting (lines 26-57) -----

  /** A tool call's `arguments` text (lines 42-48): the arguments themselves
      when they already are a string, else their JSON encoding. */
  function ArgsText(args: Json, dumps: Json -> string): string {
    if args.JString? then args.s else dumps(args)
  }

  /** One entry of `safe_tool_calls` (line 49). */
  function WireToolCall(tc: ToolCall, dumps: Json -> string): Json {
    JObject(map[
      "id" := JString(tc.id),
      "type" := JString("function"),
      "function" := JObject(map["name" := JString(tc.name), "arguments" := JString(ArgsText(tc.args, dumps))])])
  }

  function WireToolCalls(tcs: seq<ToolCall>, dumps: Json -> string): seq<Json> {
    if tcs == [] then []
    else WireToolCalls(tcs[..|tcs| - 1], dumps) + [WireToolCall(tcs[|tcs| - 1], dumps)]
  }

  /** The wire form of one entry (lines 28-53), none for an unlisted type. An
      assistant message carries `content` only when its content is non-empty
      and `tool_calls` only when it has some. */
  function FormatOne(m: ChatInput, dumps: Json -> string): Option<Wire> {
    match m
    case Raw(fields) => Some(fields)
    case Human(c) => Some(map["role" := JString("user"), "content" := JString(c)])
    case System(c) => Some(map["role" := JString("system"), "content" := JString(c)])
    case Ai(c, tcs) =>
      var d := map["role" := JString("assistant")];
      var d' := if c != "" then d["content" := JString(c)] else d;
      Some(if tcs != [] then d'["tool_calls" := JArray(WireToolCalls(tcs, dumps))] else d')
    case ToolResult(id, c, _) =>
      Some(map["role" := JString("tool"), "tool_call_id" := JString(id), "content" := JString(c)])
    case Unlisted(_) => None
  }

  /** The formatted entries, in order, before the directive check. */
  function Formatted(ms: seq<ChatInput>, dumps: Json -> string): seq<Wire> {
    if ms == [] then []
    else
      var w := FormatOne(ms[|ms| - 1], dumps);
      Formatted(ms[..|ms| - 1], dumps) + (if w.Some? then [w.value] else [])
  }

  /** `m.get("content") == "/think"`. */
  predicate IsThink(w: Wire) {
    "content" in w && w["content"] == JString(ThinkDirective)
  }

  /** The `any(...)` of line 55. */
  function AnyThink(ws: seq<Wire>): bool {
    if ws == [] then false else AnyThink(ws[..|ws| - 1]) || IsThink(ws[|ws| - 1])
  }

  /** Lines 55-57: the directive goes in front unless some message is one. */
  function WithThink(ws: seq<Wire>): seq<Wire> {
    if AnyThink(ws) then ws else [ThinkMessage()] + ws
  }

  /** The messages sent to the completion API. */
  function Format(ms: seq<ChatInput>, dumps: Json -> string): seq<Wire> {
    WithThink(Formatted(ms, dumps))
  }

  /** The formatting loop and the directive check (lines 26-57). */
  method FormatMessages(ms: seq<ChatInput>, dumps: Json -> string) returns (formatted: seq<Wire>)
    ensures formatted == Format(ms, dumps)
  {
    formatted := [];
    for k := 0 to |ms|
      invariant formatted == Formatted(ms[..k], dumps)
    {
      assert ms[..k + 1][..k] == ms[..k];
      var w := FormatOne(ms[k], dumps);
      if w.Some? {
        formatted := formatted + [w.value];
      }
    }
    assert ms[..|ms|] == ms;
    var hasThink := AnyThink(formatted);
    if !hasThink {
      formatted := [ThinkMessage()] + formatted;
    }
  }

  // ----- Reply (lines 70-99) -----

  /** The `<think>(.*?)</think>` search (lines 73-78): the leftmost match
      starts at the first `<think>` and ends at the nearest `</think>` after
      it. With a match, the reasoning is the stripped text between the tags
      and the content is stripped after every occurrence of the matched text
      is removed; without one, the reasoning is empty and the content is left
      as it is. The result is (reasoning, content). */
  function ExtractThink(content: string): (string, string) {
    match ThinkSpan(content)
    case NoMatch => ("", content)
    case Match(open, textStart, textEnd, end) => (StripPy(content[textStart..textEnd]), StripPy(RemoveAll(content, content[open..end])))
  }

  /** The leftmost match, if any: where it starts and ends, and where the
      text between its tags starts and ends. */
  datatype Span = NoMatch | Match(open: nat, textStart: nat, textEnd: nat, end: nat)

  /** The leftmost `<think>(.*?)</think>` match: from the first `<think>` to
      the end of the nearest `</think>` after it. */
  function ThinkSpan(content: string): (m: Span)
    ensures m.Match? ==>
      && m.textStart == m.open + |Open| && m.end == m.textEnd + |Close|
      && m.textStart <= m.textEnd && m.end <= |content|
  {
    TagSpan(content, Open, Close)
  }

  /** The leftmost non-greedy match of `openTag`, any text, `closeTag`. */
  function TagSpan(content: string, openTag: string, closeTag: string): (m: Span)
    ensures m.Match? ==>
      && m.textStart == m.open + |openTag| && m.end == m.textEnd + |closeTag|
      && m.textStart <= m.textEnd && m.end <= |content|
  {
    match IndexOf(content, openTag, 0)
    case None => NoMatch
    case Some(i) =>
      match IndexOf(content, closeTag, i + |openTag|)
      case None => NoMatch
      case Some(j) => Match(i, i + |openTag|, j, j + |closeTag|)
  }

  /** A tool call's parsed arguments (lines 87-91): a missing or empty text
      reads as `"{}"`, a blank one gives `{}` without parsing, and one that
      does not parse gives `{}`. */
  function ParseArgs(arguments: Option<string>, loads: string -> Option<Json>): Json {
    var raw := if arguments.Some? && arguments.value != "" then arguments.value else "{}";
    if StripPy(raw) == "" then EmptyObject() else loads(raw).GetOr(EmptyObject())
  }

  function ParseCalls(tcs: seq<WireCall>, loads: string -> Option<Json>): seq<ToolCall> {
    if tcs == [] then []
    else
      var tc := tcs[|tcs| - 1];
      ParseCalls(tcs[..|tcs| - 1], loads) + [ToolCall(tc.name, ParseArgs(tc.arguments, loads), tc.id)]
  }

  /** The assistant message built from a completion: `message.content or ""`
      split by `ExtractThink`, the reasoning kept only when non-empty. */
  function Reply(c: Completion, loads: string -> Option<Json>): AiReply {
    var extracted := ExtractThink(c.content.GetOr(""));
    AiReply(extracted.1, if extracted.0 != "" then Some(extracted.0) else None, ParseCalls(c.toolCalls, loads))
  }

  /** A whole `ainvoke`: none when the completion request raises. */
  function Ainvoke(ms: seq<ChatInput>, complete: seq<Wire> -> Option<Completion>, codec: Codec): Option<AiReply> {
    match complete(Format(ms, codec.dumps))
    case None => None
    case Some(c) => Some(Reply(c, codec.loads))
  }

  /** `ainvoke` (lines 25-99), with the request to the completion service
      as the oracle `complete`. */
  method Invoke(ms: seq<ChatInput>, complete: seq<Wire> -> Option<Completion>, codec: Codec)
    returns (reply: Option<AiReply>)
    ensures reply == Ainvoke(ms, complete, codec)
  {
    var formatted := FormatMessages(ms, codec.dumps);
    var completion := complete(formatted);
    if completion.None? {
      return None;
    }
    var message := completion.value;
    var extracted := ExtractThink(message.content.GetOr(""));
    var calls: seq<ToolCall> := [];
    for k := 0 to |message.toolCalls|
      invariant calls == ParseCalls(message.toolCalls[..k], codec.loads)
    {
      assert message.toolCalls[..k + 1][..k] == message.toolCalls[..k];
      var tc := message.toolCalls[k];
      calls := calls + [ToolCall(tc.name, ParseArgs(tc.arguments, codec.loads), tc.id)];
    }
    assert message.toolCalls[..|message.toolCalls|] == message.toolCalls;
    reply := Some(AiReply(extracted.1, if extracted.0 != "" then Some(extracted.0) else None, calls));
  }

  // ----- Lemmas: formatting -----

  lemma {:induction false} AnyThinkIff(ws: seq<Wire>)
    ensures AnyThink(ws) <==> exists k :: 0 <= k < |ws| && IsThink(ws[k])
  {
    if ws != [] {
      var init := ws[..|ws| - 1];
      AnyThinkIff(init);
      if AnyThink(init) {
        var k :| 0 <= k < |init| && IsThink(init[k]);
        assert ws[k] == init[k];
      }
      if exists k :: 0 <= k < |ws| && IsThink(ws[k]) {
        var k :| 0 <= k < |ws| && IsThink(ws[k]);
        if k < |init| {
          assert init[k] == ws[k];
        }
      }
    }
  }

  /** The directive goes in front exactly when no formatted message is one;
      otherwise the messages are sent as formatted. Either way the messages
      sent hold a directive. */
  lemma ThinkInsertedIff(ms: seq<ChatInput>, dumps: Json -> string)
    ensures var f := Formatted(ms, dumps);
      && ((forall k :: 0 <= k < |f| ==> !IsThink(f[k])) ==> Format(ms, dumps) == [ThinkMessage()] + f)
      && ((exists k :: 0 <= k < |f| && IsThink(f[k])) ==> Format(ms, dumps) == f)
    ensures exists k :: 0 <= k < |Format(ms, dumps)| && IsThink(Format(ms, dumps)[k])
  {
    var f := Formatted(ms, dumps);
    AnyThinkIff(f);
    if !AnyThink(f) {
      assert ([ThinkMessage()] + f)[0] == ThinkMessage();
    }
  }

  /** Adding the directive is idempotent: a second check finds the one the
      first inserted. */
  lemma WithThinkIdempotent(ws: seq<Wire>)
    ensures WithThink(WithThink(ws)) == WithThink(ws)
  {
    if !AnyThink(ws) {
      var r := [ThinkMessage()] + ws;
      assert IsThink(r[0]);
      AnyThinkIff(r);
    }
  }

  /** Every entry of a listed type is formatted, one for one and in order;
      none is ever added. */
  lemma {:induction false} FormattedOneToOne(ms: seq<ChatInput>, dumps: Json -> string)
    ensures |Formatted(ms, dumps)| <= |ms|
    ensures (forall k :: 0 <= k < |ms| ==> !ms[k].Unlisted?) ==>
      |Formatted(ms, dumps)| == |ms|
      && forall k :: 0 <= k < |ms| ==> FormatOne(ms[k], dumps) == Some(Formatted(ms, dumps)[k])
  {
    if ms != [] {
      var init := ms[..|ms| - 1];
      FormattedOneToOne(init, dumps);
      if forall k :: 0 <= k < |ms| ==> !ms[k].Unlisted? {
        assert forall k :: 0 <= k < |init| ==> init[k] == ms[k];
      }
    }
  }

  lemma {:induction false} WireToolCallsSpec(tcs: seq<ToolCall>, dumps: Json -> string)
    ensures |WireToolCalls(tcs, dumps)| == |tcs|
    ensures forall k :: 0 <= k < |tcs| ==> WireToolCalls(tcs, dumps)[k] == WireToolCall(tcs[k], dumps)
  {
    if tcs != [] {
      WireToolCallsSpec(tcs[..|tcs| - 1], dumps);
    }
  }

  /** An assistant message is sent with role `assistant`, with `content`
      exactly when its content is non-empty, and with `tool_calls` exactly
      when it has tool calls, one wire call per call, in order. */
  lemma AssistantEntry(c: string, tcs: seq<ToolCall>, dumps: Json -> string)
    ensures var w := FormatOne(Ai(c, tcs), dumps).value;
      && w["role"] == JString("assistant")
      && ("content" in w <==> c != "")
      && (c != "" ==> w["content"] == JString(c))
      && ("tool_calls" in w <==> tcs != [])
      && (tcs != [] ==>
            && w["tool_calls"].JArray? && |w["tool_calls"].items| == |tcs|
            && forall k :: 0 <= k < |tcs| ==> w["tool_calls"].items[k] == WireToolCall(tcs[k], dumps))
  {
    WireToolCallsSpec(tcs, dumps);
  }

  // ----- Lemmas: reply -----

  /** Without a `<think>` followed by a `</think>`, nothing is extracted and
      the content is left as it is, not even stripped. */
  lemma ExtractThinkNoBlock(content: string)
    requires forall i: nat, j: nat :: OccursAt(content, Open, i) && OccursAt(content, Close, j) ==> j < i + |Open|
    ensures ExtractThink(content) == ("", content)
  {
    IndexOfSpec(content, Open, 0);
    var open := IndexOf(content, Open, 0);
    if open.Some? {
      IndexOfSpec(content, Close, open.value + |Open|);
    }
  }

  /** With the first `<think>` at `i` and the nearest `</think>` after it at
      `j`, ending at `end`, the reasoning is the stripped text between the
      tags, and the content is stripped after every copy of the block
      `content[i..end]` is removed. */
  lemma ExtractThinkBlock(content: string, i: nat, j: nat, end: nat)
    requires OccursAt(content, Open, i) && forall k :: 0 <= k < i ==> !OccursAt(content, Open, k)
    requires i + |Open| <= j && OccursAt(content, Close, j) && end == j + |Close|
    requires forall k :: i + |Open| <= k < j ==> !OccursAt(content, Close, k)
    ensures ExtractThink(content) == (StripPy(content[i + |Open|..j]), StripPy(RemoveAll(content, content[i..end])))
  {
    IndexOfAt(content, Open, 0, i);
    IndexOfAt(content, Close, i + |Open|, j);
    ThinkBlockFound(content, i, j, end);
  }

  /** Under the same conditions, removing the block keeps what precedes it
      and goes on removing copies of it after it. */
  lemma ThinkBlockRemoval(content: string, i: nat, j: nat, end: nat)
    requires OccursAt(content, Open, i) && forall k :: 0 <= k < i ==> !OccursAt(content, Open, k)
    requires i + |Open| <= j && OccursAt(content, Close, j) && end == j + |Close|
    requires forall k :: i + |Open| <= k < j ==> !OccursAt(content, Close, k)
    ensures RemoveAll(content, content[i..end]) == content[..i] + RemoveAll(content[end..], content[i..end])
  {
    IndexOfAt(content, Open, 0, i);
    IndexOfAt(content, Close, i + |Open|, j);
    ThinkBlockFound(content, i, j, end);
  }

  /** `ExtractThinkBlock` stated from what the two searches return. */
  lemma ThinkBlockFound(content: string, i: nat, j: nat, end: nat)
    requires IndexOf(content, Open, 0) == Some(i) && IndexOf(content, Close, i + |Open|) == Some(j)
    requires end == j + |Close|
    ensures ExtractThink(content) == (StripPy(content[i + |Open|..j]), StripPy(RemoveAll(content, content[i..end])))
    ensures RemoveAll(content, content[i..end]) == content[..i] + RemoveAll(content[end..], content[i..end])
  {
    SpanFound(content, i, j, end);
    ExtractAtSpan(content, i, j, end);
    BlockRemoved(content, Open, i, end);
  }

  /** The match the two searches give. */
  lemma SpanFound(content: string, i: nat, j: nat, end: nat)
    requires IndexOf(content, Open, 0) == Some(i) && IndexOf(content, Close, i + |Open|) == Some(j)
    requires end == j + |Close|
    ensures ThinkSpan(content) == Match(i, i + |Open|, j, end)
    ensures i + |Open| <= j && end <= |content|
  {
    TagSpanFound(content, Open, Close, i, i + |Open|, j);
  }

  /** The match found from what the two searches return. */
  lemma TagSpanFound(content: string, openTag: string, closeTag: string, i: nat, textStart: nat, j: nat)
    requires IndexOf(content, openTag, 0) == Some(i) && textStart == i + |openTag|
    requires IndexOf(content, closeTag, textStart) == Some(j)
    ensures TagSpan(content, openTag, closeTag) == Match(i, textStart, j, j + |closeTag|)
    ensures textStart <= j && j + |closeTag| <= |content|
  {
  }

  /** `ExtractThink` once the match is known. */
  lemma ExtractAtSpan(content: string, i: nat, j: nat, end: nat)
    requires ThinkSpan(content) == Match(i, i + |Open|, j, end)
    ensures ExtractThink(content) == (StripPy(content[i + |Open|..j]), StripPy(RemoveAll(content, content[i..end])))
  {
  }

  /** Removal at the block from where the search for `pat` finds `i` to
      `end`: what precedes the block is kept, and removal goes on after it. */
  lemma BlockRemoved(s: string, pat: string, i: nat, end: nat)
    requires IndexOf(s, pat, 0) == Some(i) && i + |pat| <= end <= |s| && pat != []
    ensures RemoveAll(s, s[i..end]) == s[..i] + RemoveAll(s[end..], s[i..end])
  {
    var block := s[i..end];
    assert OccursAt(s, block, i) && forall k :: 0 <= k < i ==> !OccursAt(s, block, k) by {
      IndexOfSpec(s, pat, 0);
      BlockFirstAt(s, pat, i, end);
    }
    RemoveAllAtFirst(s, block, i, end);
  }

  /** The text from the first occurrence of `pat`, at `i`, to any `end`
      past it occurs first at `i`. */
  lemma BlockFirstAt(s: string, pat: string, i: nat, end: nat)
    requires OccursAt(s, pat, i) && forall k :: 0 <= k < i ==> !OccursAt(s, pat, k)
    requires i + |pat| <= end <= |s|
    ensures OccursAt(s, s[i..end], i) && forall k :: 0 <= k < i ==> !OccursAt(s, s[i..end], k)
  {
    var block := s[i..end];
    StartsWithPrefix(s[i..], block);
    assert s[i..][..|block|] == block;
    StartsWithPrefix(s[i..], pat);
    StartsWithPrefix(block, pat);
    assert block[..|pat|] == s[i..][..|pat|];
    FirstOfLonger(s, pat, block, i);
  }

  /** A text that starts with `pat` and first occurs at `i` where `pat` first
      occurs: no earlier occurrence of the longer text is possible. */
  lemma FirstOfLonger(s: string, pat: string, block: string, i: nat)
    requires StartsWith(block, pat)
    requires forall k :: 0 <= k < i ==> !OccursAt(s, pat, k)
    ensures forall k :: 0 <= k < i ==> !OccursAt(s, block, k)
  {
    forall k | 0 <= k < i
      ensures !OccursAt(s, block, k)
    {
      if OccursAt(s, block, k) {
        StartsWithTrans(s[k..], block, pat);
        assert OccursAt(s, pat, k);
      }
    }
  }

  /** The reasoning is attached only when non-empty, and it never starts or
      ends with whitespace; the reply's calls are the completion's, in order,
      with their arguments parsed. */
  lemma ReplySpec(c: Completion, loads: string -> Option<Json>)
    ensures var r := Reply(c, loads);
      && (r.reasoning.Some? ==>
            && r.reasoning.value != ""
            && !IsPySpace(r.reasoning.value[0]) && !IsPySpace(r.reasoning.value[|r.reasoning.value| - 1]))
      && |r.toolCalls| == |c.toolCalls|
      && forall k :: 0 <= k < |c.toolCalls| ==>
           r.toolCalls[k] == ToolCall(c.toolCalls[k].name, ParseArgs(c.toolCalls[k].arguments, loads), c.toolCalls[k].id)
  {
    ReasoningStripped(c.content.GetOr(""));
    ParseCallsSpec(c.toolCalls, loads);
  }

  /** What `ExtractThink` gives as reasoning is stripped: when non-empty it
      neither starts nor ends with whitespace. */
  lemma ReasoningStripped(content: string)
    ensures var t := ExtractThink(content).0;
      t != "" ==> !IsPySpace(t[0]) && !IsPySpace(t[|t| - 1])
  {
    var m := ThinkSpan(content);
    if m.Match? {
      TrimSpec(content[m.textStart..m.textEnd], IsPySpace);
    }
  }

  lemma {:induction false} ParseCallsSpec(tcs: seq<WireCall>, loads: string -> Option<Json>)
    ensures |ParseCalls(tcs, loads)| == |tcs|
    ensures forall k :: 0 <= k < |tcs| ==>
      ParseCalls(tcs, loads)[k] == ToolCall(tcs[k].name, ParseArgs(tcs[k].arguments, loads), tcs[k].id)
  {
    if tcs != [] {
      ParseCallsSpec(tcs[..|tcs| - 1], loads);
    }
  }

  /** The argument fallbacks, for a parser that reads `{}` as the empty
      object: missing, empty or blank arguments give `{}`, unparseable ones
      give `{}`, and any other text gives what it parses to. */
  lemma ParseArgsSpec(arguments: Option<string>, loads: string -> Option<Json>)
    requires loads("{}") == Some(EmptyObject())
    ensures arguments.None? ==> ParseArgs(arguments, loads) == EmptyObject()
    ensures arguments.Some? && (forall k :: 0 <= k < |arguments.value| ==> IsPySpace(arguments.value[k])) ==>
      ParseArgs(arguments, loads) == EmptyObject()
    ensures arguments.Some? && (exists k :: 0 <= k < |arguments.value| && !IsPySpace(arguments.value[k])) ==>
      ParseArgs(arguments, loads) == loads(arguments.value).GetOr(EmptyObject())
  {
    TrimEmptyIff("{}", IsPySpace);
    if arguments.Some? {
      TrimEmptyIff(arguments.value, IsPySpace);
    }
  }

  /** Arguments survive the trip to the wire and back when they are not a
      string and the codec decodes what it encodes. A string argument is
      sent as its own text and parsed again, so it does not come back. */
  lemma ArgsRoundTrip(args: Json, codec: Codec)
    requires !args.JString?
    requires exists k :: 0 <= k < |codec.dumps(args)| && !IsPySpace(codec.dumps(args)[k])
    requires codec.loads(codec.dumps(args)) == Some(args)
    ensures ParseArgs(Some(ArgsText(args, codec.dumps)), codec.loads) == args
  {
    TrimEmptyIff(codec.dumps(args), IsPySpace);
  }
}
