/**
 * A task card (src/components/TaskCard.tsx): the priority colour, the two
 * tags it shows, and the badge of the assigned agent. Its age label is
 * `Elapsed.TimeAgo`.
 */
module Card {
  import opened Wrappers
  import opened Seqs
  import opened Types

  /** `getPriorityColor`: a colour per priority; no priority is dim. */
  function PriorityColor(p: Option<TaskPriority>): string {
    match p
    case Some(High) => "#ff6b6b"
    case Some(Medium) => "#ffe66d"
    case Some(Low) => "#4ecdc4"
    case None => DimColor
  }

  /** Distinct priorities have distinct colours, and the three priorities are never dim. */
  lemma PriorityColorsDistinct(a: Option<TaskPriority>, b: Option<TaskPriority>)
    ensures PriorityColor(a) == PriorityColor(b) <==> a == b
    ensures PriorityColor(a) == DimColor <==> a.None?
  {
  }

  /** The tags a card shows and the `+k` note. */
  datatype TagLine = TagLine(shown: seq<string>, more: Option<nat>)

  /**
   * At most the first two tags; a `+k` note exactly when more tags exist,
   * `k` being how many are hidden.
   */
  function CardTags(tags: Option<seq<string>>): (r: TagLine)
    ensures tags.None? ==> r == TagLine([], None)
    ensures tags.Some? ==>
      && |r.shown| == Min(2, |tags.value|) && r.shown <= tags.value
      && (r.more.Some? <==> |tags.value| > 2)
      && |r.shown| + (if r.more.Some? then r.more.value else 0) == |tags.value|
    ensures tags.Some? && |tags.value| > 2 ==> r.more == Some(|tags.value| - 2) && r.shown == tags.value[..2]
  {
    match tags
    case None => TagLine([], None)
    case Some(ts) => TagLine(Take(ts, 2), if |ts| > 2 then Some(|ts| - 2) else None)
  }

  /**
   * The agent badge: shown only when the task names an agent (an empty id
   * counts as none) that is among the gateways; it reads the agent's
   * avatar, or the first character of its name when the avatar is absent or
   * empty.
   */
  function Badge(t: Task, gateways: seq<GatewayConfig>): (r: Option<string>)
    ensures r.Some? <==>
      t.assignedAgentId.Some? && t.assignedAgentId.value != "" && FindGateway(gateways, t.assignedAgentId.value).Some?
    ensures r.Some? ==>
      var g := FindGateway(gateways, t.assignedAgentId.value).value;
      && g.id == t.assignedAgentId.value && g in gateways
      && (g.avatar.Some? && g.avatar.value != "" ==> r.value == g.avatar.value)
      && (g.avatar.None? || g.avatar.value == "" ==> r.value == Take(g.name, 1))
  {
    if t.assignedAgentId.None? || t.assignedAgentId.value == "" then None
    else match FindGateway(gateways, t.assignedAgentId.value)
      case None => None
      case Some(g) => Some(if g.avatar.Some? && g.avatar.value != "" then g.avatar.value else Take(g.name, 1))
  }
}
