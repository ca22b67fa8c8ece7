/**
 * The channel list (src/components/ChannelSidebar.tsx): how many of a
 * channel's member agents are online. Its two-click delete is
 * `Confirm.DeleteConfirm`.
 */
module ChannelList {
  import opened Wrappers
  import opened Seqs
  import opened Types
  import opened ChannelView

  /** Whether an id names a configured gateway that is connected. */
  function Online(gateways: seq<GatewayConfig>): string -> bool {
    id => FindGateway(gateways, id).Some? && FindGateway(gateways, id).value.status == Connected
  }

  /** `connectedMembers`: the member ids whose gateway is configured and connected. */
  function ConnectedMembers(ch: Channel, gateways: seq<GatewayConfig>): (n: nat)
    ensures n == |Filter(Online(gateways), ch.memberAgentIds)|
    ensures n <= |ch.memberAgentIds|
  {
    CountIsFilterLength(Online(gateways), ch.memberAgentIds);
    Count(Online(gateways), ch.memberAgentIds)
  }

  /**
   * The online count never exceeds the members the channel view can show:
   * every online member is a known agent.
   */
  lemma OnlineAreKnown(ch: Channel, gateways: seq<GatewayConfig>)
    ensures ConnectedMembers(ch, gateways) <= |MemberAgents(ch.memberAgentIds, gateways)|
  {
    var ids := ch.memberAgentIds;
    MemberAgentIds(ids, gateways);
    CountIsFilterLength(Known(gateways), ids);
    CountMonotone(Online(gateways), Known(gateways), ids);
  }
}
