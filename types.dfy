/**
 * The shared data model: sessions and messages, gateway configurations,
 * channels, tasks and activity events, and the seven-colour palette that
 * several views cycle through.
 */
module Types {
  import opened Wrappers

  datatype Role = User | Assistant | System

  datatype MessageAttachment = MessageAttachment(dataUrl: string, mimeType: string)

  datatype Message = Message(
    id: string,
    role: Role,
    content: string,
    timestamp: int,
    attachments: seq<MessageAttachment>)

  /** A chat tab; an absent `isTyping` is `false`, an absent `gatewayId` is `None`. */
  datatype Session = Session(
    id: string,
    name: string,
    messages: seq<Message>,
    isActive: bool,
    isTyping: bool,
    createdAt: int,
    gatewayId: Option<string>)

  datatype GatewayStatus = Disconnected | Connecting | Connected | Error

  /** The statuses a single connection reports; `Error` is only ever set by the registry. */
  type ConnectionStatus = s: GatewayStatus | !s.Error? witness Disconnected

  /** A configured gateway ("agent"); `avatar` is the optional profile emoji. */
  datatype GatewayConfig = GatewayConfig(
    id: string,
    name: string,
    url: string,
    token: string,
    status: GatewayStatus,
    addedAt: int,
    lastConnected: Option<int>,
    error: Option<string>,
    avatar: Option<string>)

  datatype Channel = Channel(
    id: string,
    name: string,
    description: string,
    memberAgentIds: seq<string>,
    createdAt: int)

  datatype TaskStatus = Inbox | Assigned | InProgress | Review | Done

  datatype TaskPriority = Low | Medium | High

  datatype SourceKind = ChannelSource | SessionSource | ManualSource

  datatype TaskSource = TaskSource(kind: SourceKind, id: string, name: string)

  datatype Task = Task(
    id: string,
    title: string,
    description: Option<string>,
    status: TaskStatus,
    assignedAgentId: Option<string>,
    createdAt: int,
    updatedAt: int,
    source: TaskSource,
    tags: Option<seq<string>>,
    priority: Option<TaskPriority>)

  /**
   * The five kinds an activity event declares, and any other value a feed
   * may carry: `OtherKind` stands only for a type string that is none of
   * the five declared ones.
   */
  datatype EventKind = MessageEvent | TaskComplete | TaskStart | ErrorEvent | StatusChange | OtherKind(name: string)

  datatype ActivityEvent = ActivityEvent(
    id: string,
    kind: EventKind,
    agentId: string,
    agentName: string,
    summary: string,
    details: Option<string>,
    timestamp: int)

  /** The agent colours, in the order every view indexes them. */
  const AgentColors: seq<string> := ["#00ff9d", "#ff6b6b", "#4ecdc4", "#ffe66d", "#a855f7", "#06b6d4", "#f97316"]

  /** The colour for an index, cycling through the palette. */
  function ColorAt(index: nat): (c: string)
    ensures c in AgentColors
    ensures c == AgentColors[index % |AgentColors|]
  {
    AgentColors[index % 7]
  }

  const DimColor := "var(--text-dim)"

  /** The position of the first configuration with the given id (`findIndex`). */
  function IndexOfGateway(gateways: seq<GatewayConfig>, id: string): (r: Option<nat>)
    ensures r.Some? ==> r.value < |gateways| && gateways[r.value].id == id
    ensures r.Some? ==> forall k :: 0 <= k < r.value ==> gateways[k].id != id
    ensures r.None? ==> forall k :: 0 <= k < |gateways| ==> gateways[k].id != id
  {
    if gateways == [] then None
    else if gateways[0].id == id then Some(0)
    else match IndexOfGateway(gateways[1..], id)
      case None => None
      case Some(k) => Some(k + 1)
  }

  /** The first configuration with the given id (`find`). */
  function FindGateway(gateways: seq<GatewayConfig>, id: string): (r: Option<GatewayConfig>)
    ensures r.Some? ==> r.value in gateways && r.value.id == id
    ensures r.None? <==> forall k :: 0 <= k < |gateways| ==> gateways[k].id != id
    ensures r.Some? ==>
      exists k :: 0 <= k < |gateways| && gateways[k] == r.value && forall j :: 0 <= j < k ==> gateways[j].id != id
  {
    match IndexOfGateway(gateways, id)
    case None => None
    case Some(k) => Some(gateways[k])
  }
}
