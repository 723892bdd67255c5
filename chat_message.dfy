/** What one chat bubble shows (frontend/src/components/ChatMessage.tsx):
    which blocks are rendered, which typewriters are animating, and the
    source cards, as a function of the message and its `isTyping` flag. */
module ChatMessageView {
  import opened Options
  import opened Types
  import Links
  import StreamClient
  import Conversation

  /** The blocks of a bubble. A typing flag is the `isTyping` prop of a
      typewriter that is rendered, and false when its block is not; `sources`
      holds the card labels, empty when the block is not rendered. */
  datatype View = View(
    indicator: bool,
    reasoningPanel: bool,
    reasoningTyping: bool,
    body: bool,
    bodyTyping: bool,
    sources: seq<string>)

  /** The source list of a message; a message without events has none. */
  function MessageLinks(m: Message): seq<Link> {
    Links.Collect(EventsOf(m))
  }

  /** A card's label: the title, or the URL when the title is empty (line 111). */
  function CardLabel(l: Link): string {
    if l.title == "" then l.url else l.title
  }

  function CardLabels(ls: seq<Link>): seq<string> {
    if ls == [] then [] else CardLabels(ls[..|ls| - 1]) + [CardLabel(ls[|ls| - 1])]
  }

  /** The bubble (lines 43-118): the research indicator for an assistant
      message with events (43); the reasoning panel for an assistant message
      with non-empty reasoning (47), whose typewriter runs while the message
      is typing and has no content yet (69); the body when the content is
      non-empty (75), whose typewriter runs while typing for an assistant
      (84); the sources below an assistant body once typing is over (85). */
  function Render(m: Message, isTyping: bool): View {
    var isUser := m.role == User;
    var links := MessageLinks(m);
    var reasoningPanel := !isUser && m.reasoning.Some? && m.reasoning.value != "";
    var body := m.content != "";
    View(
      !isUser && m.events.Some? && |m.events.value| > 0,
      reasoningPanel,
      reasoningPanel && isTyping && m.content == "",
      body,
      body && !isUser && isTyping,
      if !isUser && m.content != "" && |links| > 0 && !isTyping then CardLabels(links) else [])
  }

  lemma {:induction false} CardLabelsSpec(ls: seq<Link>)
    ensures |CardLabels(ls)| == |ls|
    ensures forall k :: 0 <= k < |ls| ==>
      CardLabels(ls)[k] == (if ls[k].title == "" then ls[k].url else ls[k].title)
  {
    if ls != [] {
      CardLabelsSpec(ls[..|ls| - 1]);
    }
  }

  /** What the bubble promises: a question shows only its text; sources never
      show while the answer is being typed, and otherwise show one card per
      collected link, labelled by title or else URL; the reasoning stops
      animating as soon as the answer has content; a message without events
      has no sources. */
  lemma RenderSpec(m: Message, isTyping: bool)
    ensures var v := Render(m, isTyping);
      && (m.role == User ==> !v.indicator && !v.reasoningPanel && !v.bodyTyping && v.sources == [])
      && (isTyping ==> v.sources == [])
      && (m.content != "" ==> !v.reasoningTyping)
      && (v.reasoningTyping <==> v.reasoningPanel && isTyping && m.content == "")
      && (v.bodyTyping <==> v.body && m.role != User && isTyping)
      && (m.events.None? ==> MessageLinks(m) == [] && v.sources == [] && !v.indicator)
      && (m.role == Assistant && m.content != "" && !isTyping ==>
            v.sources == CardLabels(MessageLinks(m)) && |v.sources| == |MessageLinks(m)|)
  {
    CardLabelsSpec(MessageLinks(m));
  }

  /** The finished reply of a run that ended normally, with `onDone`: it
      shows no animation, and shows its sources, one card per URL any search
      found, when it has content. */
  lemma FinishedReplyShowsSources(botId: string, calls: StreamClient.Callbacks)
    requires calls.ending == Some(StreamClient.Done)
    ensures var reply := Conversation.FinalReply(botId, calls);
      var v := Render(reply, false);
      && v.indicator
      && !v.reasoningTyping && !v.bodyTyping
      && Links.Urls(MessageLinks(reply)) == Links.Urls(Links.Found(EventsOf(reply)))
      && (reply.content != "" ==> v.sources == CardLabels(MessageLinks(reply)))
  {
    var reply := Conversation.FinalReply(botId, calls);
    Links.CollectUrls(EventsOf(reply));
  }
}
