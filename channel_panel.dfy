/**
 * The channel view (src/components/ChannelPanel.tsx): `@name` addressing
 * of a message, what Enter sends, renaming, and how member agents are
 * looked up, named and coloured.
 *
 * The pattern `^@(\w+)\s+` is written out: `\w` is an ASCII letter, a digit
 * or `_`, and `\s` is JavaScript white space.
 */
module ChannelView {
  import opened Wrappers
  import opened Seqs
  import opened Text
  import opened Types

  // ---------------------------------------------------------------- the mention pattern

  predicate IsWordChar(c: char) {
    'a' <= c <= 'z' || 'A' <= c <= 'Z' || '0' <= c <= '9' || c == '_'
  }

  predicate AllWord(s: string) {
    forall i :: 0 <= i < |s| ==> IsWordChar(s[i])
  }

  /** The length of the run of word characters of `s` starting at `i`. */
  function WordRun(s: string, i: nat): (n: nat)
    requires i <= |s|
    ensures i + n <= |s| && AllWord(s[i..i + n])
    ensures i + n == |s| || !IsWordChar(s[i + n])
    decreases |s| - i
  {
    if i < |s| && IsWordChar(s[i]) then 1 + WordRun(s, i + 1) else 0
  }

  /** The length of the run of white space of `s` starting at `i`. */
  function SpaceRun(s: string, i: nat): (n: nat)
    requires i <= |s|
    ensures i + n <= |s| && forall m :: i <= m < i + n ==> IsJsSpace(s[m])
    ensures i + n == |s| || !IsJsSpace(s[i + n])
    decreases |s| - i
  {
    if i < |s| && IsJsSpace(s[i]) then 1 + SpaceRun(s, i + 1) else 0
  }

  /** A match of the pattern: the captured name and the length of the whole match. */
  datatype Mention = Mention(name: string, length: nat)

  /** `text.match(/^@(\w+)\s+/)`. */
  function MatchMention(text: string): Option<Mention> {
    if text != [] && text[0] == '@' then
      var w := WordRun(text, 1);
      if w >= 1 && 1 + w < |text| && IsJsSpace(text[1 + w]) then
        Some(Mention(text[1..1 + w], 1 + w + SpaceRun(text, 1 + w)))
      else None
    else None
  }

  /** `@`, a word and white space begin `text`, the white space ending at `j`. */
  predicate MentionSplit(text: string, j: int) {
    2 <= j < |text| && text[0] == '@' && AllWord(text[1..j]) && IsJsSpace(text[j])
  }

  /**
   * The pattern matches exactly when the text starts with `@`, a word and
   * white space; the match captures the whole word, takes all the white
   * space after it, and the rest of the text does not start with white
   * space.
   */
  lemma MentionShape(text: string)
    ensures MatchMention(text).Some? <==> exists j :: MentionSplit(text, j)
    ensures MatchMention(text).Some? ==>
      var m := MatchMention(text).value;
      && MentionSplit(text, 1 + |m.name|)
      && 1 + |m.name| < m.length <= |text| && text[1..1 + |m.name|] == m.name
      && AllSpace(text[1 + |m.name|..m.length])
      && (m.length == |text| || !IsJsSpace(text[m.length]))
  {
    if exists j :: MentionSplit(text, j) {
      var j :| MentionSplit(text, j);
      SplitIsWordRun(text, j);
    }
    if MatchMention(text).Some? {
      MatchedMention(text);
    }
  }

  /** Where a mention's white space begins is where the word after `@` ends. */
  lemma SplitIsWordRun(text: string, j: int)
    requires MentionSplit(text, j)
    ensures WordRun(text, 1) == j - 1
  {
  }

  /** A match is a mention split after the captured word, with all the white space that follows. */
  lemma MatchedMention(text: string)
    requires MatchMention(text).Some?
    ensures var m := MatchMention(text).value;
      && MentionSplit(text, 1 + |m.name|)
      && 1 + |m.name| < m.length <= |text| && text[1..1 + |m.name|] == m.name
      && AllSpace(text[1 + |m.name|..m.length])
      && (m.length == |text| || !IsJsSpace(text[m.length]))
  {
    var w := WordRun(text, 1);
    var sp := SpaceRun(text, 1 + w);
    assert MatchMention(text).value == Mention(text[1..1 + w], 1 + w + sp);
    assert sp >= 1;
    assert AllSpace(text[1 + w..1 + w + sp]);
  }

  // ---------------------------------------------------------------- addressing

  /** The gateway a lower-cased mention names: its lower-cased name equals or starts with it. */
  predicate Addresses(g: GatewayConfig, mention: string) {
    var n := Lower(g.name);
    n == mention || mention <= n
  }

  /** The first gateway in list order that the mention addresses (`gateways.find`). */
  function Addressed(gateways: seq<GatewayConfig>, mention: string): (r: Option<nat>)
    ensures r.Some? ==> r.value < |gateways| && Addresses(gateways[r.value], mention)
    ensures r.Some? ==> forall k :: 0 <= k < r.value ==> !Addresses(gateways[k], mention)
    ensures r.None? ==> forall k :: 0 <= k < |gateways| ==> !Addresses(gateways[k], mention)
  {
    if gateways == [] then None
    else if Addresses(gateways[0], mention) then Some(0)
    else match Addressed(gateways[1..], mention)
      case None => None
      case Some(k) => Some(k + 1)
  }

  datatype Parsed = Parsed(cleanText: string, target: Option<string>)

  /** `parseMessage`: the target agent of a leading `@name`, and the text after the mention. */
  function ParseMessage(text: string, gateways: seq<GatewayConfig>): Parsed {
    var m := MatchMention(text);
    if m.None? then Parsed(text, None)
    else
      var k := Addressed(gateways, Lower(m.value.name));
      if k.None? then Parsed(text, None)
      else Parsed(text[m.value.length..], Some(gateways[k.value].id))
  }

  /**
   * Without a target the text comes back unchanged, and there is no target
   * exactly when the text carries no mention or its name addresses no
   * gateway. With a target, the target is the first gateway whose
   * lower-cased name equals or extends the lower-cased mention, and the
   * clean text is the suffix after the mention and its white space.
   */
  lemma ParseTargets(text: string, gateways: seq<GatewayConfig>)
    ensures var p, m := ParseMessage(text, gateways), MatchMention(text);
      && (p.target.None? ==> p.cleanText == text)
      && (p.target.None? <==>
            m.None? || forall k :: 0 <= k < |gateways| ==> !Addresses(gateways[k], Lower(m.value.name)))
      && (p.target.Some? ==>
            m.Some? && m.value.length <= |text| && text == text[..m.value.length] + p.cleanText
            && exists k :: 0 <= k < |gateways| && gateways[k].id == p.target.value
                 && Addresses(gateways[k], Lower(m.value.name))
                 && forall i :: 0 <= i < k ==> !Addresses(gateways[i], Lower(m.value.name)))
  {
    var m := MatchMention(text);
    MentionShape(text);
    if m.Some? {
      var k := Addressed(gateways, Lower(m.value.name));
      if k.Some? {
        assert text == text[..m.value.length] + text[m.value.length..];
        assert gateways[k.value].id == ParseMessage(text, gateways).target.value;
      }
    }
  }

  // ---------------------------------------------------------------- sending and renaming

  /** What `onSendMessage` receives. */
  datatype Outgoing = Outgoing(channelId: string, text: string, targetAgentId: Option<string>)

  /** A target id that JavaScript treats as true: present and non-empty. */
  predicate Truthy(target: Option<string>) {
    target.Some? && target.value != ""
  }

  /**
   * `handleSend`: the outgoing message, if any, and the input box after it.
   * Blank input sends nothing and stays; otherwise the trimmed input is
   * parsed and the box is cleared. The clean text is sent only for a truthy
   * target id; the target itself is passed on as parsed.
   */
  function HandleSend(input: string, channelId: string, gateways: seq<GatewayConfig>): (Option<Outgoing>, string) {
    var text := Trim(input);
    if text == [] then (None, input)
    else
      var p := ParseMessage(text, gateways);
      (Some(Outgoing(channelId, if Truthy(p.target) then p.cleanText else text, p.target)), "")
  }

  /**
   * Blank input sends nothing. Otherwise one message goes to the channel,
   * addressed to the parsed target: the trimmed input unless the target id
   * is truthy, and otherwise the non-empty text after the mention and its
   * white space (the trimmed input cannot end in that white space).
   */
  lemma SendOutcome(input: string, channelId: string, gateways: seq<GatewayConfig>)
    ensures var (o, rest) := HandleSend(input, channelId, gateways);
      && (o.None? <==> AllSpace(input))
      && (o.None? ==> rest == input)
      && (o.Some? ==>
            (rest == "" && o.value.channelId == channelId && o.value.text != []
             && o.value.targetAgentId == ParseMessage(Trim(input), gateways).target
             && (!Truthy(o.value.targetAgentId) ==> o.value.text == Trim(input))
             && (Truthy(o.value.targetAgentId) ==>
                   && MatchMention(Trim(input)).Some?
                   && Trim(input) == Trim(input)[..MatchMention(Trim(input)).value.length] + o.value.text)))
  {
    TrimEmptyIff(input);
    var text := Trim(input);
    ParseTargets(text, gateways);
    var p := ParseMessage(text, gateways);
    if text != [] && p.target.Some? {
      var m := MatchMention(text).value;
      MentionShape(text);
      TrimLastNotSpace(input);
    }
  }

  /** A non-empty trimmed string does not end in white space. */
  lemma TrimLastNotSpace(s: string)
    ensures Trim(s) != [] ==> !IsJsSpace(Trim(s)[|Trim(s)| - 1])
  {
    var i, j := TrimSlice(s);
  }

  /**
   * `handleRename`: the name handed to `onRename`, if any. A rename is
   * sent when the trimmed value is non-empty and the untrimmed value
   * differs from the current name; it is the trimmed value.
   */
  function HandleRename(renameValue: string, current: string): (r: Option<string>)
    ensures r.Some? ==> r.value == Trim(renameValue) && r.value != []
    ensures r.None? <==> AllSpace(renameValue) || renameValue == current
  {
    TrimEmptyIff(renameValue);
    if Trim(renameValue) != [] && renameValue != current then Some(Trim(renameValue)) else None
  }

  /** A value that differs only by surrounding white space renames to the current name itself. */
  lemma RenameToSameName(current: string)
    requires current != [] && !IsJsSpace(current[0]) && !IsJsSpace(current[|current| - 1])
    ensures HandleRename(" " + current, current) == Some(current)
  {
    var s := " " + current;
    assert SpaceEnd(s, 1) == 1;
    assert SpaceEnd(s, 0) == 1;
    assert SpaceStart(s, 1, |s|) == |s|;
    assert s[1..|s|] == current;
  }

  // ---------------------------------------------------------------- member agents

  /** `getAgentColor`: the palette colour of the agent's position, or the dim colour for an unknown id. */
  function AgentColor(agentId: string, gateways: seq<GatewayConfig>): (c: string)
    ensures var k := IndexOfGateway(gateways, agentId);
      (k.Some? ==> c == AgentColors[k.value % 7]) && (k.None? ==> c == DimColor)
  {
    match IndexOfGateway(gateways, agentId)
    case None => DimColor
    case Some(k) => ColorAt(k)
  }

  /** `getAgentName`: the agent's name; `Unknown` for an unknown id or an empty name. */
  function AgentName(agentId: string, gateways: seq<GatewayConfig>): (n: string)
    ensures n != []
    ensures n == "Unknown" <==>
      FindGateway(gateways, agentId).None? || FindGateway(gateways, agentId).value.name in {"", "Unknown"}
    ensures FindGateway(gateways, agentId).Some? && FindGateway(gateways, agentId).value.name != "" ==>
      n == FindGateway(gateways, agentId).value.name
  {
    match FindGateway(gateways, agentId)
    case None => "Unknown"
    case Some(g) => if g.name == "" then "Unknown" else g.name
  }

  /** Whether an id names a configured gateway. */
  function Known(gateways: seq<GatewayConfig>): string -> bool {
    id => FindGateway(gateways, id).Some?
  }

  function IdsOf(gs: seq<GatewayConfig>): (r: seq<string>)
    ensures |r| == |gs| && forall i :: 0 <= i < |gs| ==> r[i] == gs[i].id
  {
    seq(|gs|, i requires 0 <= i < |gs| => gs[i].id)
  }

  /** `memberAgents`: the configuration of each member id, in member order, unknown ids dropped. */
  function MemberAgents(ids: seq<string>, gateways: seq<GatewayConfig>): (r: seq<GatewayConfig>)
    ensures forall i :: 0 <= i < |r| ==> FindGateway(gateways, r[i].id) == Some(r[i])
  {
    if ids == [] then []
    else
      (match FindGateway(gateways, ids[0])
       case None => []
       case Some(g) => [g])
      + MemberAgents(ids[1..], gateways)
  }

  /** The member agents are the known member ids, in member order. */
  lemma {:induction false} MemberAgentIds(ids: seq<string>, gateways: seq<GatewayConfig>)
    ensures IdsOf(MemberAgents(ids, gateways)) == Filter(Known(gateways), ids)
  {
    if ids != [] {
      MemberAgentIds(ids[1..], gateways);
      var head := match FindGateway(gateways, ids[0]) case None => [] case Some(g) => [g];
      var rest := MemberAgents(ids[1..], gateways);
      assert MemberAgents(ids, gateways) == head + rest;
      IdsOfAppend(head, rest);
      assert IdsOf(head) == if Known(gateways)(ids[0]) then [ids[0]] else [];
    }
  }

  lemma IdsOfAppend(a: seq<GatewayConfig>, b: seq<GatewayConfig>)
    ensures IdsOf(a + b) == IdsOf(a) + IdsOf(b)
  {
  }
}
