/** The conversation state of the chat page (frontend/src/App.tsx): the list
    of messages, the text being typed and whether a response is in flight,
    with the updates `handleSubmit` and the three stream callbacks make.
    Identifiers, which the page draws from `Date.now()`, are parameters. */
module Conversation {
  import opened Options
  import opened Text
  import opened Types
  import StreamClient

  const WelcomeId := "welcome"
  const WelcomeText := "Hello! I am your Deep Research AI Assistant. What would you like me to research today? I will search the web, read pages, and synthesize information for you."
  const ErrorPrefix := "**Error:** An error occurred during research -> "

  /** The greeting the page starts with. */
  function Welcome(): Message {
    Message(WelcomeId, Assistant, WelcomeText, None, None)
  }

  /** The message for a submitted question: the input as typed, untrimmed. */
  function UserMessage(id: string, text: string): Message {
    Message(id, User, text, None, None)
  }

  /** The empty assistant message the answer is streamed into. */
  function Placeholder(id: string): Message {
    Message(id, Assistant, "", None, Some([]))
  }

  /** Whether a question may be sent: the input has a non-space character and
      no response is in flight. The submit button is enabled exactly then
      (line 166), and `handleSubmit` goes ahead exactly then (line 29). */
  predicate CanSubmit(input: string, isTyping: bool) {
    !(TrimJs(input) == [] || isTyping)
  }

  lemma CanSubmitIff(input: string, isTyping: bool)
    ensures CanSubmit(input, isTyping) <==>
      !isTyping && exists k :: 0 <= k < |input| && !IsJsSpace(input[k])
  {
    TrimEmptyIff(input, IsJsSpace);
  }

  /** `messages.findIndex(m => m.id === id)`, with -1 as `None`. */
  function FindIndex(ms: seq<Message>, id: string): (r: Option<nat>)
    ensures r.Some? ==> r.value < |ms| && ms[r.value].id == id
  {
    if ms == [] then None
    else if ms[0].id == id then Some(0)
    else match FindIndex(ms[1..], id)
      case None => None
      case Some(i) => Some(i + 1)
  }

  /** `FindIndex` finds the first message with the id, and fails only when
      there is none. */
  lemma {:induction false} FindIndexFirst(ms: seq<Message>, id: string)
    ensures var r := FindIndex(ms, id);
      && (r.Some? ==> forall k :: 0 <= k < r.value ==> ms[k].id != id)
      && (r.None? ==> forall k :: 0 <= k < |ms| ==> ms[k].id != id)
  {
    if ms != [] && ms[0].id != id {
      FindIndexFirst(ms[1..], id);
      var r := FindIndex(ms[1..], id);
      forall k | 1 <= k < |ms| && (r.None? || k < r.value + 1)
        ensures ms[k].id != id
      {
        assert ms[k] == ms[1..][k - 1];
      }
    }
  }

  /** Replacing a message by one with the same id does not move the search. */
  lemma {:induction false} FindIndexSameIds(ms: seq<Message>, i: nat, m: Message, id: string)
    requires i < |ms| && m.id == ms[i].id
    ensures FindIndex(ms[i := m], id) == FindIndex(ms, id)
  {
    if i > 0 && ms[0].id != id {
      assert ms[i := m][1..] == ms[1..][i - 1 := m];
      FindIndexSameIds(ms[1..], i - 1, m, id);
    }
  }

  /** Appending messages does not move a search that already succeeds, and a
      search that fails in `ms` looks in the appended part only. */
  lemma {:induction false} FindIndexAppend(ms: seq<Message>, more: seq<Message>, id: string)
    ensures FindIndex(ms, id).Some? ==> FindIndex(ms + more, id) == FindIndex(ms, id)
    ensures FindIndex(ms, id).None? ==> match FindIndex(more, id)
      case None => FindIndex(ms + more, id).None?
      case Some(j) => FindIndex(ms + more, id) == Some(|ms| + j)
  {
    if ms == [] {
      assert ms + more == more;
    } else {
      assert (ms + more)[0] == ms[0] && (ms + more)[1..] == ms[1..] + more;
      FindIndexAppend(ms[1..], more, id);
    }
  }

  // ----- The `onEvent` updater (lines 54-74) -----

  /** The assistant message after one event: `answer` replaces the content,
      `reasoning` extends the reasoning, any other event is appended to
      `events`; in every case `events` is materialised (line 60). */
  function UpdateWithEvent(m: Message, e: AgentEvent): Message {
    var events := EventsOf(m);
    if e.kind == "answer" then
      m.(content := e.content.GetOr(""), events := Some(events))
    else if e.kind == "reasoning" then
      m.(reasoning := Some(m.reasoning.GetOr("") + e.content.GetOr("")), events := Some(events))
    else
      m.(events := Some(events + [e]))
  }

  /** The `onEvent` updater: the first message with id `botId` is replaced by
      its update; without one, the list is returned as it was. */
  function ApplyEvent(ms: seq<Message>, botId: string, e: AgentEvent): seq<Message> {
    match FindIndex(ms, botId)
    case None => ms
    case Some(i) => ms[i := UpdateWithEvent(ms[i], e)]
  }

  /** The `onDone` updater (lines 77-84): `{ type: 'done' }` is appended to the
      events of the message with id `botId`. */
  function ApplyDone(ms: seq<Message>, botId: string): seq<Message> {
    match FindIndex(ms, botId)
    case None => ms
    case Some(i) => ms[i := ms[i].(events := Some(EventsOf(ms[i]) + [Bare("done")]))]
  }

  /** The `onError` updater (lines 88-95): the content of the message with id
      `botId` becomes the error notice. */
  function ApplyError(ms: seq<Message>, botId: string, error: string): seq<Message> {
    match FindIndex(ms, botId)
    case None => ms
    case Some(i) => ms[i := ms[i].(content := ErrorPrefix + error)]
  }

  // ----- Reference definitions for a whole run of events -----

  /** The events an assistant message lists: all but `answer` and `reasoning`. */
  predicate IsListed(e: AgentEvent) {
    e.kind != "answer" && e.kind != "reasoning"
  }

  function Listed(es: seq<AgentEvent>): seq<AgentEvent> {
    if es == [] then []
    else Listed(es[..|es| - 1]) + (if IsListed(es[|es| - 1]) then [es[|es| - 1]] else [])
  }

  /** The `content` fields of `es`, absent ones read as '', glued together. */
  function Contents(es: seq<AgentEvent>): string {
    if es == [] then "" else Contents(es[..|es| - 1]) + es[|es| - 1].content.GetOr("")
  }

  /** The content of the last `answer` event, if there is one. */
  function LastAnswer(es: seq<AgentEvent>): Option<string> {
    if es == [] then None
    else if es[|es| - 1].kind == "answer" then Some(es[|es| - 1].content.GetOr(""))
    else LastAnswer(es[..|es| - 1])
  }

  /** A message after the events `es`, one `onEvent` at a time. */
  function FoldEvents(m: Message, es: seq<AgentEvent>): Message {
    if es == [] then m else UpdateWithEvent(FoldEvents(m, es[..|es| - 1]), es[|es| - 1])
  }

  /** What a run of events leaves in the message: id and role as they were;
      `events` extended by the listed events in order, with no merging; the
      content of the last `answer`, or the old content if none came; the
      reasoning extended by the concatenated reasoning texts, or untouched
      when no reasoning event came. */
  lemma {:induction false} FoldEventsSpec(m: Message, es: seq<AgentEvent>)
    ensures var r := FoldEvents(m, es);
      && r.id == m.id && r.role == m.role
      && r.events == (if es == [] then m.events else Some(EventsOf(m) + Listed(es)))
      && r.content == LastAnswer(es).GetOr(m.content)
      && r.reasoning == (if OfKind(es, "reasoning") == [] then m.reasoning
                         else Some(m.reasoning.GetOr("") + Contents(OfKind(es, "reasoning"))))
  {
    if es != [] {
      var init := es[..|es| - 1];
      var e := es[|es| - 1];
      FoldEventsSpec(m, init);
      var prev := FoldEvents(m, init);
      assert EventsOf(prev) == EventsOf(m) + Listed(init) by {
        if init == [] {
          assert EventsOf(m) + [] == EventsOf(m);
        }
      }
      if IsListed(e) {
        assert EventsOf(m) + Listed(init) + [e] == EventsOf(m) + (Listed(init) + [e]);
      } else {
        assert Listed(init) + [] == Listed(init);
      }
      var reasons := OfKind(init, "reasoning");
      var text := e.content.GetOr("");
      var before := m.reasoning.GetOr("");
      if e.kind == "reasoning" {
        assert OfKind(es, "reasoning") == reasons + [e];
        assert Contents(reasons + [e]) == Contents(reasons) + text by {
          assert (reasons + [e])[..|reasons + [e]| - 1] == reasons;
        }
        if reasons == [] {
          assert Contents(reasons + [e]) == text;
          assert prev.reasoning == m.reasoning;
        } else {
          assert before + Contents(reasons) + text == before + (Contents(reasons) + text);
        }
      } else {
        assert OfKind(es, "reasoning") == reasons + [] == reasons;
      }
    }
  }

  /** A message with no `done` among its listed events gains one only by
      `onDone`: no event of a run through `onEvent` is itself `done`. */
  lemma {:induction false} ListedKinds(es: seq<AgentEvent>, kind: string)
    ensures (exists k :: 0 <= k < |Listed(es)| && Listed(es)[k].kind == kind)
        <==> (exists k :: 0 <= k < |es| && es[k].kind == kind && IsListed(es[k]))
  {
    if es != [] {
      var init := es[..|es| - 1];
      var e := es[|es| - 1];
      ListedKinds(init, kind);
      var tail := if IsListed(e) then [e] else [];
      assert Listed(es) == Listed(init) + tail;
      if exists k :: 0 <= k < |Listed(es)| && Listed(es)[k].kind == kind {
        var k :| 0 <= k < |Listed(es)| && Listed(es)[k].kind == kind;
        if k < |Listed(init)| {
          assert Listed(es)[k] == Listed(init)[k];
          var j :| 0 <= j < |init| && init[j].kind == kind && IsListed(init[j]);
          assert es[j] == init[j];
        } else {
          assert es[|es| - 1].kind == kind && IsListed(es[|es| - 1]);
        }
      }
      if exists k :: 0 <= k < |es| && es[k].kind == kind && IsListed(es[k]) {
        var k :| 0 <= k < |es| && es[k].kind == kind && IsListed(es[k]);
        if k < |init| {
          assert init[k] == es[k];
          var j :| 0 <= j < |Listed(init)| && Listed(init)[j].kind == kind;
          assert Listed(es)[j] == Listed(init)[j];
        } else {
          assert Listed(es)[|Listed(es)| - 1] == e;
        }
      }
    }
  }

  // ----- The updaters over a whole list -----

  /** One `onEvent` keeps the list's length, and every id and role; it
      changes the first message with id `botId` and no other, and changes
      nothing when there is none. */
  lemma ApplyEventFrame(ms: seq<Message>, botId: string, e: AgentEvent)
    ensures var r := ApplyEvent(ms, botId, e);
      && |r| == |ms|
      && (forall k :: 0 <= k < |ms| ==> r[k].id == ms[k].id && r[k].role == ms[k].role)
      && (FindIndex(ms, botId).None? ==> r == ms)
      && (FindIndex(ms, botId).Some? ==>
            var i := FindIndex(ms, botId).value;
            && r[i] == UpdateWithEvent(ms[i], e)
            && forall k :: 0 <= k < |ms| && k != i ==> r[k] == ms[k])
  {
  }

  /** `onEvent` applied to each event in turn. */
  function ApplyEvents(ms: seq<Message>, botId: string, es: seq<AgentEvent>): seq<Message> {
    if es == [] then ms else ApplyEvent(ApplyEvents(ms, botId, es[..|es| - 1]), botId, es[|es| - 1])
  }

  /** A run of `onEvent` calls updates the first message with the id in place,
      as `FoldEvents` says, and leaves every other message as it was. */
  lemma {:induction false} ApplyEventsFold(ms: seq<Message>, botId: string, es: seq<AgentEvent>)
    ensures FindIndex(ms, botId).None? ==> ApplyEvents(ms, botId, es) == ms
    ensures FindIndex(ms, botId).Some? ==>
      var i := FindIndex(ms, botId).value;
      ApplyEvents(ms, botId, es) == ms[i := FoldEvents(ms[i], es)]
  {
    if es != [] {
      var init := es[..|es| - 1];
      ApplyEventsFold(ms, botId, init);
      match FindIndex(ms, botId)
      case None =>
      case Some(i) =>
        var m := FoldEvents(ms[i], init);
        FoldEventsSpec(ms[i], init);
        FindIndexSameIds(ms, i, m, botId);
        assert ms[i := m][i := UpdateWithEvent(m, es[|es| - 1])]
            == ms[i := UpdateWithEvent(m, es[|es| - 1])];
    }
  }

  /** The page's messages after every callback of one run, in order. */
  function ApplyRun(ms: seq<Message>, botId: string, calls: StreamClient.Callbacks): seq<Message> {
    var afterEvents := ApplyEvents(ms, botId, calls.onEvent);
    match calls.ending
    case None => afterEvents
    case Some(Done) => ApplyDone(afterEvents, botId)
    case Some(Error(message)) => ApplyError(afterEvents, botId, message)
  }

  /** The assistant message a run leaves behind, from its placeholder: the
      error notice or else the last answer as content, the listed events
      followed by `done` when the run ended with `onDone`, and the reasoning
      texts glued together when there were any. */
  function FinalReply(botId: string, calls: StreamClient.Callbacks): Message {
    var es := calls.onEvent;
    var reasons := OfKind(es, "reasoning");
    Message(
      botId,
      Assistant,
      match calls.ending
        case Some(Error(message)) => ErrorPrefix + message
        case _ => LastAnswer(es).GetOr(""),
      if reasons == [] then None else Some(Contents(reasons)),
      Some(Listed(es) + if calls.ending == Some(StreamClient.Done) then [Bare("done")] else []))
  }

  /** One question and its answer: starting from the list a successful
      submit leaves (the old messages, then the question, then the
      placeholder), when neither the old messages nor the question carry the
      assistant's id, the run changes the placeholder into `FinalReply` and
      nothing else. */
  lemma Turn(prev: seq<Message>, userId: string, botId: string, question: string, calls: StreamClient.Callbacks)
    requires forall k :: 0 <= k < |prev| ==> prev[k].id != botId
    requires userId != botId
    ensures ApplyRun(prev + [UserMessage(userId, question), Placeholder(botId)], botId, calls)
         == prev + [UserMessage(userId, question), FinalReply(botId, calls)]
  {
    var ms := prev + [UserMessage(userId, question), Placeholder(botId)];
    var i := |prev| + 1;
    var tail := [UserMessage(userId, question), Placeholder(botId)];
    FindIndexFirst(prev, botId);
    FindIndexAppend(prev, tail, botId);
    assert tail[1..] == [Placeholder(botId)];
    assert FindIndex(ms, botId) == Some(i);
    ApplyEventsFold(ms, botId, calls.onEvent);
    var m := FoldEvents(Placeholder(botId), calls.onEvent);
    FoldEventsSpec(Placeholder(botId), calls.onEvent);
    var after := ms[i := m];
    assert EventsOf(m) == Listed(calls.onEvent) by {
      if calls.onEvent == [] {
        assert m == Placeholder(botId);
      } else {
        assert [] + Listed(calls.onEvent) == Listed(calls.onEvent);
      }
    }
    assert m.reasoning == (if OfKind(calls.onEvent, "reasoning") == [] then None
                           else Some(Contents(OfKind(calls.onEvent, "reasoning")))) by {
      assert "" + Contents(OfKind(calls.onEvent, "reasoning")) == Contents(OfKind(calls.onEvent, "reasoning"));
    }
    FindIndexSameIds(ms, i, m, botId);
    assert FindIndex(after, botId) == Some(i);
    assert after == prev + [UserMessage(userId, question), m];
    assert Listed(calls.onEvent) + [] == Listed(calls.onEvent);
    var reply := FinalReply(botId, calls);
    match calls.ending {
      case None =>
        assert m == reply;
      case Some(Done) =>
        assert m.(events := Some(EventsOf(m) + [Bare("done")])) == reply;
        assert after[i := reply] == prev + [UserMessage(userId, question), reply];
      case Some(Error(message)) =>
        assert m.(content := ErrorPrefix + message) == reply;
        assert after[i := reply] == prev + [UserMessage(userId, question), reply];
    }
  }

  /** A run's reply lists a `done` marker exactly when the client called
      `onDone`, since nothing the client hands to `onEvent` is of type `done`. */
  lemma DoneMarkerIffDone(botId: string, response: StreamClient.Response, parse: StreamClient.Parser)
    ensures var calls := StreamClient.ClientCalls(response, parse);
      var events := EventsOf(FinalReply(botId, calls));
      (exists k :: 0 <= k < |events| && events[k].kind == "done")
        <==> calls.ending == Some(StreamClient.Done)
  {
    var calls := StreamClient.ClientCalls(response, parse);
    StreamClient.EndingCases(response, parse);
    if response.Streamed? {
      StreamClient.StreamEventsAreNotTerminal(response.chunks, parse);
    }
    var es := calls.onEvent;
    assert forall k :: 0 <= k < |es| ==> es[k].kind != "done";
    ListedKinds(es, "done");
    var events := EventsOf(FinalReply(botId, calls));
    if calls.ending == Some(StreamClient.Done) {
      assert events[|events| - 1] == Bare("done");
    } else {
      assert events == Listed(es) + [];
      assert !(exists k :: 0 <= k < |Listed(es)| && Listed(es)[k].kind == "done");
      assert forall k :: 0 <= k < |events| ==> events[k] == Listed(es)[k];
    }
  }

  // ----- Which message shows the typing animation (line 137) -----

  /** Message `index` is rendered as typing: a response is in flight and it
      is the last message and an assistant's. */
  predicate ShowsTyping(ms: seq<Message>, isTyping: bool, index: nat)
    requires index < |ms|
  {
    isTyping && index == |ms| - 1 && ms[index].role == Assistant
  }

  /** While a run is in flight, the message rendered as typing is the one
      being streamed into, and no other, however many events have arrived. */
  lemma TypingTarget(prev: seq<Message>, userId: string, botId: string, question: string, es: seq<AgentEvent>)
    requires forall k :: 0 <= k < |prev| ==> prev[k].id != botId
    requires userId != botId
    ensures var ms := ApplyEvents(prev + [UserMessage(userId, question), Placeholder(botId)], botId, es);
      && |ms| == |prev| + 2
      && ms[|ms| - 1].id == botId
      && forall index :: 0 <= index < |ms| ==> (ShowsTyping(ms, true, index) <==> index == |ms| - 1)
  {
    Turn(prev, userId, botId, question, StreamClient.Callbacks(es, None));
  }

  // ----- The page's state -----

  /** The state `App` keeps with `useState`. */
  class ChatApp {
    var messages: seq<Message>
    var input: string
    var isTyping: bool

    /** The initial state (lines 8-16). */
    constructor()
      ensures messages == [Welcome()] && input == "" && !isTyping
    {
      messages := [Welcome()];
      input := "";
      isTyping := false;
    }

    /** The text area's `onChange` (line 156). */
    method SetInput(text: string)
      modifies this
      ensures input == text
      ensures messages == old(messages) && isTyping == old(isTyping)
    {
      input := text;
    }

    /** `handleSubmit` (lines 27-49): when the input is blank or a response is
      in flight nothing happens; otherwise the question and an empty
      assistant placeholder are appended, the input is cleared, typing is on,
      and the question is returned as the query to stream. */
    method HandleSubmit(userId: string, botId: string) returns (query: Option<string>)
      modifies this
      ensures query.Some? <==> CanSubmit(old(input), old(isTyping))
      ensures query.None? ==>
        messages == old(messages) && input == old(input) && isTyping == old(isTyping)
      ensures query.Some? ==>
        && query.value == old(input)
        && messages == old(messages) + [UserMessage(userId, old(input)), Placeholder(botId)]
        && input == ""
        && isTyping
    {
      if TrimJs(input) == [] || isTyping {
        return None;
      }
      var userMsg := UserMessage(userId, input);
      messages := messages + [userMsg];
      input := "";
      isTyping := true;
      messages := messages + [Placeholder(botId)];
      query := Some(userMsg.content);
    }

    /** The `onEvent` callback (lines 53-75). */
    method OnEvent(botId: string, e: AgentEvent)
      modifies this
      ensures messages == ApplyEvent(old(messages), botId, e)
      ensures input == old(input) && isTyping == old(isTyping)
    {
      var index := FindIndex(messages, botId);
      if index.None? {
        return;
      }
      var i := index.value;
      var botMsg := messages[i];
      if botMsg.events.None? {
        botMsg := botMsg.(events := Some([]));
      }
      if e.kind == "answer" {
        botMsg := botMsg.(content := e.content.GetOr(""));
      } else if e.kind == "reasoning" {
        botMsg := botMsg.(reasoning := Some(botMsg.reasoning.GetOr("") + e.content.GetOr("")));
      } else {
        botMsg := botMsg.(events := Some(botMsg.events.value + [e]));
      }
      messages := messages[i := botMsg];
    }

    /** The `onDone` callback (lines 76-86): the marker is appended and typing
      ends. */
    method OnDone(botId: string)
      modifies this
      ensures messages == ApplyDone(old(messages), botId)
      ensures !isTyping && input == old(input)
    {
      var index := FindIndex(messages, botId);
      if index.Some? {
        var i := index.value;
        messages := messages[i := messages[i].(events := Some(EventsOf(messages[i]) + [Bare("done")]))];
      }
      isTyping := false;
    }

    /** The `onError` callback (lines 87-97): the content becomes the notice
      and typing ends; events and reasoning stay. */
    method OnError(botId: string, error: string)
      modifies this
      ensures messages == ApplyError(old(messages), botId, error)
      ensures !isTyping && input == old(input)
    {
      var index := FindIndex(messages, botId);
      if index.Some? {
        var i := index.value;
        messages := messages[i := messages[i].(content := ErrorPrefix + error)];
      }
      isTyping := false;
    }
  }
}
