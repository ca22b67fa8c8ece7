/**
 * The activity feed (src/components/LiveFeed.tsx): the agent filter, the
 * agent colours, and the icon and style class of each kind of event. Its
 * time labels are `Elapsed.FeedTime`.
 */
module Feed {
  import opened Wrappers
  import opened Seqs
  import opened Types

  function ByAgent(agent: string): ActivityEvent -> bool {
    (e: ActivityEvent) => e.agentId == agent
  }

  /**
   * `filteredEvents`: every event when no agent is chosen (an empty id
   * counts as none), otherwise the events of that agent, each as often as
   * in the feed.
   */
  function FilteredEvents(events: seq<ActivityEvent>, filter: Option<string>): (r: seq<ActivityEvent>)
    ensures filter.None? || filter.value == "" ==> r == events
    ensures filter.Some? && filter.value != "" ==>
      forall e :: multiset(r)[e] == if e.agentId == filter.value then multiset(events)[e] else 0
    ensures SubseqOf(r, events)
  {
    if filter.None? || filter.value == "" then SubseqSelf(events); events
    else
      var r := Filter(ByAgent(filter.value), events);
      FilterSubseq(ByAgent(filter.value), events);
      forall e
        ensures multiset(r)[e] == if e.agentId == filter.value then multiset(events)[e] else 0
      {
        FilterCount(ByAgent(filter.value), events, e);
      }
      r
  }

  /** `getAgentColor`: the palette colour of the agent's position; an unknown agent gets the first colour. */
  function FeedColor(agentId: string, gateways: seq<GatewayConfig>): (c: string)
    ensures var k := IndexOfGateway(gateways, agentId);
      (k.Some? ==> c == AgentColors[k.value % 7]) && (k.None? ==> c == AgentColors[0])
  {
    match IndexOfGateway(gateways, agentId)
    case None => AgentColors[0]
    case Some(k) => ColorAt(k)
  }

  /** `getEventIcon`. */
  function EventIcon(kind: EventKind): string {
    match kind
    case MessageEvent => "\U{1F4AC}"
    case TaskComplete => "\U{2705}"
    case TaskStart => "\U{1F680}"
    case ErrorEvent => "\U{26A0}\U{FE0F}"
    case StatusChange => "\U{1F504}"
    case OtherKind(_) => "\U{2022}"
  }

  /** `getEventTypeClass`. */
  function EventClass(kind: EventKind): string {
    match kind
    case MessageEvent => "event-message"
    case TaskComplete => "event-complete"
    case TaskStart => "event-start"
    case ErrorEvent => "event-error"
    case StatusChange => "event-status"
    case OtherKind(_) => ""
  }

  /**
   * The five declared kinds each have an icon and a class of their own;
   * any other kind gets the bullet and no class, and no declared kind does.
   */
  lemma EventMarks(a: EventKind, b: EventKind)
    ensures !a.OtherKind? && !b.OtherKind? ==> (EventIcon(a) == EventIcon(b) <==> a == b)
    ensures !a.OtherKind? && !b.OtherKind? ==> (EventClass(a) == EventClass(b) <==> a == b)
    ensures EventIcon(a) == "\U{2022}" <==> a.OtherKind?
    ensures EventClass(a) == "" <==> a.OtherKind?
  {
  }
}
