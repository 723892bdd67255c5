/** The collapsible research panel above an answer
    (frontend/src/components/ResearchingIndicator.tsx): derived from the
    message's events alone, as pure folds over them. */
module ResearchIndicator {
  import opened Options
  import opened Types
  import Links
  import StreamClient
  import Conversation

  const CompleteHeader := "Research Complete"
  const WorkingHeader := "Researching..."
  const ArgsLimit := 100

  /** What the panel derives from the events. */
  datatype Panel = Panel(
    done: bool,
    header: string,
    links: seq<Link>,
    latestStatus: Option<AgentEvent>,
    reasoning: seq<AgentEvent>)

  /** `events.some(e => e.type === 'answer' || e.type === 'done')` (line 15). */
  function IsDone(es: seq<AgentEvent>): bool {
    if es == [] then false
    else IsDone(es[..|es| - 1]) || es[|es| - 1].kind == "answer" || es[|es| - 1].kind == "done"
  }

  /** `events.filter(e => e.type === 'status').pop()` (line 26). */
  function LatestStatus(es: seq<AgentEvent>): Option<AgentEvent> {
    var statuses := OfKind(es, "status");
    if statuses == [] then None else Some(statuses[|statuses| - 1])
  }

  /** The header text (line 61): complete once done, else the latest status
      message when it is non-empty, else the working text. */
  function Header(es: seq<AgentEvent>): string {
    if IsDone(es) then CompleteHeader
    else match LatestStatus(es)
      case Some(s) => StreamClient.OrElse(s.message.GetOr(""), WorkingHeader)
      case None => WorkingHeader
  }

  /** The panel, or nothing for an empty event list (line 13). */
  function Render(es: seq<AgentEvent>): Option<Panel> {
    if es == [] then None
    else Some(Panel(IsDone(es), Header(es), Links.Collect(es), LatestStatus(es), OfKind(es, "reasoning")))
  }

  /** A tool call's argument text as shown (line 132): its first 100
      characters, and `...` exactly when it is longer. */
  function ArgsPreview(text: string): string {
    (if |text| <= ArgsLimit then text else text[..ArgsLimit]) + (if |text| > ArgsLimit then "..." else "")
  }

  // ----- Lemmas -----

  /** The done flag holds exactly when some event is an answer or the done
      marker. */
  lemma {:induction false} IsDoneIff(es: seq<AgentEvent>)
    ensures IsDone(es) <==> exists k :: 0 <= k < |es| && (es[k].kind == "answer" || es[k].kind == "done")
  {
    if es != [] {
      var init := es[..|es| - 1];
      IsDoneIff(init);
      if IsDone(init) {
        var k :| 0 <= k < |init| && (init[k].kind == "answer" || init[k].kind == "done");
        assert es[k] == init[k];
      }
      if exists k :: 0 <= k < |es| && (es[k].kind == "answer" || es[k].kind == "done") {
        var k :| 0 <= k < |es| && (es[k].kind == "answer" || es[k].kind == "done");
        if k < |init| {
          assert init[k] == es[k];
        }
      }
    }
  }

  /** The latest status is the last event of type `status`: it is one, and no
      later event is; there is none exactly when no event is a status. */
  lemma {:induction false} LatestStatusIsLast(es: seq<AgentEvent>)
    ensures LatestStatus(es).None? <==> forall k :: 0 <= k < |es| ==> es[k].kind != "status"
    ensures LatestStatus(es).Some? ==>
      exists k :: 0 <= k < |es| && es[k] == LatestStatus(es).value && es[k].kind == "status"
        && forall j :: k < j < |es| ==> es[j].kind != "status"
  {
    if es != [] {
      var init := es[..|es| - 1];
      var last := es[|es| - 1];
      LatestStatusIsLast(init);
      if last.kind == "status" {
        assert OfKind(es, "status") == OfKind(init, "status") + [last];
      } else {
        assert OfKind(es, "status") == OfKind(init, "status") + [] == OfKind(init, "status");
        if LatestStatus(init).Some? {
          var k :| 0 <= k < |init| && init[k] == LatestStatus(init).value && init[k].kind == "status"
            && forall j :: k < j < |init| ==> init[j].kind != "status";
          assert es[k] == init[k];
          forall j | k < j < |es|
            ensures es[j].kind != "status"
          {
            if j < |init| {
              assert es[j] == init[j];
            }
          }
        } else {
          forall k | 0 <= k < |es|
            ensures es[k].kind != "status"
          {
            if k < |init| {
              assert es[k] == init[k];
            }
          }
        }
      }
      if forall k :: 0 <= k < |es| ==> es[k].kind != "status" {
        forall k | 0 <= k < |init|
          ensures init[k].kind != "status"
        {
          assert init[k] == es[k];
        }
      }
    }
  }

  /** The preview never exceeds 103 characters, equals the text when it fits,
      and otherwise is its first 100 characters and an ellipsis. */
  lemma ArgsPreviewSpec(text: string)
    ensures |text| <= ArgsLimit ==> ArgsPreview(text) == text
    ensures |text| > ArgsLimit ==>
      && |ArgsPreview(text)| == ArgsLimit + 3
      && ArgsPreview(text)[..ArgsLimit] == text[..ArgsLimit]
      && ArgsPreview(text)[ArgsLimit..] == "..."
  {
  }

  /** The header names completion exactly when done; otherwise the latest
      status message if it is non-empty, else the working text. */
  lemma HeaderSpec(es: seq<AgentEvent>)
    ensures Header(es) == CompleteHeader <==>
      IsDone(es) || (LatestStatus(es).Some? && LatestStatus(es).value.message == Some(CompleteHeader))
    ensures !IsDone(es) && LatestStatus(es).Some? && LatestStatus(es).value.message.GetOr("") != "" ==>
      Header(es) == LatestStatus(es).value.message.value
    ensures !IsDone(es) && (LatestStatus(es).None? || LatestStatus(es).value.message.GetOr("") == "") ==>
      Header(es) == WorkingHeader
  {
  }

  /** For the events the page keeps on a reply, the panel never lists
      reasoning (the page diverts it into the message's own reasoning) and
      reads complete exactly when the run ended with `onDone`. */
  lemma PanelOfReply(botId: string, response: StreamClient.Response, parse: StreamClient.Parser)
    ensures var calls := StreamClient.ClientCalls(response, parse);
      var es := EventsOf(Conversation.FinalReply(botId, calls));
      && OfKind(es, "reasoning") == []
      && (IsDone(es) <==> calls.ending == Some(StreamClient.Done))
  {
    var calls := StreamClient.ClientCalls(response, parse);
    StreamClient.EndingCases(response, parse);
    if response.Streamed? {
      StreamClient.StreamEventsAreNotTerminal(response.chunks, parse);
    }
    var listed := Conversation.Listed(calls.onEvent);
    ListedPanel(calls.onEvent);
    var tail := if calls.ending == Some(StreamClient.Done) then [Bare("done")] else [];
    assert EventsOf(Conversation.FinalReply(botId, calls)) == listed + tail;
    OfKindAppend(listed, tail, "reasoning");
    IsDoneAppend(listed, tail);
    var one: seq<AgentEvent> := [Bare("done")];
    assert one[..0] == [];
  }

  /** The events a reply lists hold no reasoning, and none that makes the
      panel complete unless one of them is the done marker. */
  lemma {:induction false} ListedPanel(es: seq<AgentEvent>)
    ensures OfKind(Conversation.Listed(es), "reasoning") == []
    ensures (forall k :: 0 <= k < |es| ==> es[k].kind != "done") ==> !IsDone(Conversation.Listed(es))
  {
    if es != [] {
      var init := es[..|es| - 1];
      var last := es[|es| - 1];
      ListedPanel(init);
      var tail := if Conversation.IsListed(last) then [last] else [];
      assert Conversation.Listed(es) == Conversation.Listed(init) + tail;
      OfKindAppend(Conversation.Listed(init), tail, "reasoning");
      IsDoneAppend(Conversation.Listed(init), tail);
      assert tail == [] || tail[..0] == [];
      if forall k :: 0 <= k < |es| ==> es[k].kind != "done" {
        assert forall k :: 0 <= k < |init| ==> init[k] == es[k];
      }
    }
  }

  lemma {:induction false} IsDoneAppend(a: seq<AgentEvent>, b: seq<AgentEvent>)
    ensures IsDone(a + b) <==> IsDone(a) || IsDone(b)
    decreases |b|
  {
    if b == [] {
      assert a + b == a;
    } else {
      assert (a + b)[..|a + b| - 1] == a + b[..|b| - 1];
      IsDoneAppend(a, b[..|b| - 1]);
    }
  }
}
