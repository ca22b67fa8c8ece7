/**
 * The agent list (src/components/AgentSidebar.tsx): which sessions are
 * background ("ops") sessions, the per-gateway session and typing tallies,
 * and the status marks of a gateway.
 *
 * Each pattern of `OPS_PATTERNS` is a plain word matched case-insensitively,
 * so a test is "the lower-cased text contains the word".
 */
module Agents {
  import opened Wrappers
  import opened Seqs
  import opened Text
  import opened Types

  const OpsPatterns: seq<string> :=
    ["subagent", "sub-agent", "isolated", "cron", "heartbeat", "background", "worker", "spawned"]

  /** Whether some pattern of `ps` occurs in the lower-cased name or id (`OPS_PATTERNS.some`). */
  predicate AnyPattern(ps: seq<string>, name: string, id: string) {
    ps != [] && (Contains(Lower(name), ps[0]) || Contains(Lower(id), ps[0]) || AnyPattern(ps[1..], name, id))
  }

  /** `isOpsSession`. */
  predicate IsOpsSession(s: Session) {
    AnyPattern(OpsPatterns, s.name, s.id)
  }

  /** `some` holds exactly when one of the patterns is found in the name or the id. */
  lemma {:induction false} AnyPatternFound(ps: seq<string>, name: string, id: string)
    ensures AnyPattern(ps, name, id) <==>
      exists k :: 0 <= k < |ps| && (Contains(Lower(name), ps[k]) || Contains(Lower(id), ps[k]))
  {
    if ps != [] {
      AnyPatternFound(ps[1..], name, id);
      if exists k :: 0 <= k < |ps| && (Contains(Lower(name), ps[k]) || Contains(Lower(id), ps[k])) {
        var k :| 0 <= k < |ps| && (Contains(Lower(name), ps[k]) || Contains(Lower(id), ps[k]));
        if k > 0 {
          assert ps[1..][k - 1] == ps[k];
        }
      }
      if AnyPattern(ps[1..], name, id) {
        var k :| 0 <= k < |ps[1..]| && (Contains(Lower(name), ps[1..][k]) || Contains(Lower(id), ps[1..][k]));
        assert ps[k + 1] == ps[1..][k];
      }
    }
  }

  /**
   * A session is an ops session exactly when one of the eight words occurs,
   * at some position, in its lower-cased name or its lower-cased id.
   */
  lemma OpsSessionIff(s: Session)
    ensures IsOpsSession(s) <==>
      exists k, i :: 0 <= k < |OpsPatterns| && (OccursAt(Lower(s.name), OpsPatterns[k], i) || OccursAt(Lower(s.id), OpsPatterns[k], i))
  {
    AnyPatternFound(OpsPatterns, s.name, s.id);
    forall k | 0 <= k < |OpsPatterns|
      ensures Contains(Lower(s.name), OpsPatterns[k]) <==> exists i :: OccursAt(Lower(s.name), OpsPatterns[k], i)
      ensures Contains(Lower(s.id), OpsPatterns[k]) <==> exists i :: OccursAt(Lower(s.id), OpsPatterns[k], i)
    {
      ContainsAt(Lower(s.name), OpsPatterns[k]);
      ContainsAt(Lower(s.id), OpsPatterns[k]);
    }
  }

  // ---------------------------------------------------------------- tallies

  /** The gateway a chat (non-ops) session counts towards; an empty id counts as none. */
  function ChatKey(s: Session): Option<string> {
    if s.gatewayId.Some? && s.gatewayId.value != "" && !IsOpsSession(s) then s.gatewayId else None
  }

  /** The gateway a typing session counts towards, ops sessions included. */
  function TypingKey(s: Session): Option<string> {
    if s.gatewayId.Some? && s.gatewayId.value != "" && s.isTyping then s.gatewayId else None
  }

  /** `sessionCounts`: for each gateway the number of its chat sessions; gateways with none are absent. */
  method SessionCounts(sessions: seq<Session>) returns (counts: map<string, nat>)
    ensures forall g :: (g in counts <==> CountKey(ChatKey, sessions, g) > 0)
                        && (g in counts ==> counts[g] == CountKey(ChatKey, sessions, g))
  {
    counts := Tally(ChatKey, sessions);
  }

  /** `activeCounts`: for each gateway the number of its typing sessions; gateways with none are absent. */
  method ActiveCounts(sessions: seq<Session>) returns (counts: map<string, nat>)
    ensures forall g :: (g in counts <==> CountKey(TypingKey, sessions, g) > 0)
                        && (g in counts ==> counts[g] == CountKey(TypingKey, sessions, g))
  {
    counts := Tally(TypingKey, sessions);
  }

  predicate IsChat(s: Session) {
    !IsOpsSession(s)
  }

  /** `totalChatSessions`: the sessions that are not ops sessions. */
  function TotalChatSessions(sessions: seq<Session>): (n: nat)
    ensures n == |Filter(IsChat, sessions)|
  {
    CountIsFilterLength(IsChat, sessions);
    Count(IsChat, sessions)
  }

  /** The session tallies of distinct gateways add up to at most the chat sessions. */
  lemma SessionCountsWithinTotal(sessions: seq<Session>, gateways: seq<string>)
    requires Distinct(gateways)
    ensures SumCounts(ChatKey, sessions, gateways) <= TotalChatSessions(sessions)
  {
    SumCountsBound(ChatKey, IsChat, sessions, gateways);
    CountIsFilterLength(IsChat, sessions);
  }

  /** A typing ops session added to the list raises its gateway's typing tally by one and leaves its session tally as it was. */
  lemma TypingOpsSession(sessions: seq<Session>, s: Session, g: string)
    requires s.gatewayId == Some(g) && g != "" && s.isTyping && IsOpsSession(s)
    ensures CountKey(TypingKey, sessions + [s], g) == CountKey(TypingKey, sessions, g) + 1
    ensures CountKey(ChatKey, sessions + [s], g) == CountKey(ChatKey, sessions, g)
  {
    var t := sessions + [s];
    assert t[..|sessions| + 1] == t && t[..|sessions|] == sessions;
    CountKeySnoc(TypingKey, t, |sessions|, g);
    CountKeySnoc(ChatKey, t, |sessions|, g);
  }

  // ---------------------------------------------------------------- gateways

  function IsConnected(g: GatewayConfig): bool {
    g.status == Connected
  }

  /** `connectedCount`: the connected gateways, never more than there are. */
  function ConnectedCount(gateways: seq<GatewayConfig>): (n: nat)
    ensures n == |Filter(IsConnected, gateways)| && n <= |gateways|
  {
    CountIsFilterLength(IsConnected, gateways);
    Count(IsConnected, gateways)
  }

  /** `getStatusIcon`. */
  function StatusIcon(st: GatewayStatus): string {
    match st
    case Connected => "\U{25CF}"
    case Connecting => "\U{25D0}"
    case Disconnected => "\U{25CB}"
    case Error => "\U{2715}"
  }

  /** `getStatusClass`. */
  function StatusClass(st: GatewayStatus): string {
    match st
    case Connected => "status-online"
    case Connecting => "status-connecting"
    case Disconnected => "status-offline"
    case Error => "status-error"
  }

  /** Every status has its own icon and its own class, none of them the fallback `?` or empty class. */
  lemma StatusMarksDistinct(a: GatewayStatus, b: GatewayStatus)
    ensures StatusIcon(a) == StatusIcon(b) <==> a == b
    ensures StatusClass(a) == StatusClass(b) <==> a == b
    ensures StatusIcon(a) != "?" && StatusClass(a) != ""
  {
  }

  /** A click on a gateway's row: it selects the gateway exactly when the gateway is connected. */
  function Click(g: GatewayConfig): (r: Option<string>)
    ensures r.Some? <==> g.status == Connected
    ensures r.Some? ==> r.value == g.id
  {
    if g.status == Connected then Some(g.id) else None
  }
}
