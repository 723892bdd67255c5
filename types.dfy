/** The records shared by the browser client: the agent's progress events and
    the conversation messages (frontend/src/types.ts), and the JSON values the
    server exchanges with its collaborators. */
module Types {
  import opened Options

  /** A JSON value as Python's `json` module and JavaScript's `JSON` see it.
      Objects are keyed maps: key order only matters for the serialised text,
      which this model does not produce. */
  datatype Json =
    | JNull
    | JBool(b: bool)
    | JNumber(text: string)
    | JString(s: string)
    | JArray(items: seq<Json>)
    | JObject(fields: map<string, Json>)

  /** A source found by a web search. */
  datatype Link = Link(title: string, url: string)

  /** An `AgentEvent` as the client holds it after `JSON.parse`. `kind` is
      the `type` field; every other field may be absent. A payload without a
      `type` is represented by a `kind` that is none of the event names, which
      every comparison in the client treats alike. */
  datatype AgentEvent = AgentEvent(
    kind: string,
    message: Option<string>,
    content: Option<string>,
    tool: Option<string>,
    args: Option<Json>,
    links: Option<seq<Link>>)

  /** An event carrying nothing but its type, such as `{ type: 'done' }`. */
  function Bare(kind: string): AgentEvent {
    AgentEvent(kind, None, None, None, None, None)
  }

  datatype Role = User | Assistant

  /** One conversation turn as the view stores it. `reasoning` and `events`
      are the optional fields of the TypeScript interface. */
  datatype Message = Message(
    id: string,
    role: Role,
    content: string,
    reasoning: Option<string>,
    events: Option<seq<AgentEvent>>)

  /** The `message.events || []` idiom. */
  function EventsOf(m: Message): seq<AgentEvent> {
    m.events.GetOr([])
  }

  /** The events of type `kind`, in their order: `events.filter(e => e.type === kind)`. */
  function OfKind(es: seq<AgentEvent>, kind: string): seq<AgentEvent> {
    if es == [] then []
    else OfKind(es[..|es| - 1], kind) + (if es[|es| - 1].kind == kind then [es[|es| - 1]] else [])
  }

  /** The filter keeps exactly the events of that type, and nothing else. */
  lemma {:induction false} OfKindMembers(es: seq<AgentEvent>, kind: string)
    ensures forall e :: e in OfKind(es, kind) <==> e in es && e.kind == kind
  {
    if es != [] {
      var init := es[..|es| - 1];
      OfKindMembers(init, kind);
      assert es == init + [es[|es| - 1]];
    }
  }

  /** Filtering the concatenation is concatenating the filtered parts. */
  lemma {:induction false} OfKindAppend(a: seq<AgentEvent>, b: seq<AgentEvent>, kind: string)
    ensures OfKind(a + b, kind) == OfKind(a, kind) + OfKind(b, kind)
    decreases |b|
  {
    if b == [] {
      assert a + b == a;
    } else {
      var init := b[..|b| - 1];
      assert (a + b)[..|a + b| - 1] == a + init;
      OfKindAppend(a, init, kind);
    }
  }
}
