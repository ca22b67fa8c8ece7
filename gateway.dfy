/**
 * The WebSocket client for one gateway (src/gateway.ts): connection status,
 * the challenge/handshake sequence, request/response correlation by id,
 * the reconnect-on-unexpected-close policy and the request payloads.
 *
 * The socket and the handler callbacks are modelled as data: `ws` is either
 * absent or the ready state of the current socket, and the socket events are
 * the methods `OnOpen`, `OnFrame` and `OnClose`. Promise settlements are
 * appended to `outcomes`, frames written to the socket to `sent`, and the
 * calls the client makes into its handlers to `notices`, which the owner of
 * the client relays. Whether `new WebSocket(url)` accepts the url is decided by
 * the browser and is passed in as `accepted`.
 */
module GatewayClient {
  import opened Wrappers
  import opened Seqs
  import opened Text
  import opened Json
  import opened Types

  datatype ReadyState = SocketConnecting | SocketOpen | SocketClosing

  /**
   * A frame received from the server. `ok` is the truthiness of the frame's
   * `ok` field. A frame that is not JSON, or whose type is neither a response
   * nor an event, is `Malformed`; so is one whose fields cannot be read.
   */
  datatype Frame =
    | Res(id: string, ok: bool, payload: Json, error: Json)
    | Event(name: string, payload: Json)
    | Malformed

  /** Who waits on a pending request: the handshake, or the caller of a public method. */
  datatype Waiter = HandshakeWaiter | CallerWaiter

  /** A `{type: 'req', id, method, params}` frame written to the socket. */
  datatype SentRequest = SentRequest(id: string, name: string, params: Json)

  /** How the promise of the request with this id settled. */
  datatype Outcome = Resolved(id: string, payload: Json) | Rejected(id: string, reason: Json)

  /** A call into the handlers: `onConnectionChange(status)` or `onChatEvent(payload, eventType)`. */
  datatype Notice = StatusChanged(status: ConnectionStatus) | ChatEvent(payload: Json, eventType: string)

  /** The fate of a request when it is made: refused with 'not connected', or sent under an id. */
  datatype Issued = NotConnected | Sent(id: string)

  /** An attachment as the chat view hands it over; a missing string is "". */
  datatype OutgoingAttachment = OutgoingAttachment(dataUrl: string, content: string, mimeType: Option<string>)

  const ProtocolVersion := 3

  /** The id of the `n`-th request: `String(n)`. */
  function RequestId(n: nat): string {
    DecimalString(n)
  }

  /** The socket handle after `ws.close()`: a present socket starts closing. */
  function AfterClose(w: Option<ReadyState>): (r: Option<ReadyState>)
    ensures r.Some? <==> w.Some?
    ensures w.Some? ==> r == Some(SocketClosing)
  {
    if w.Some? then Some(SocketClosing) else None
  }

  /** One rejection per pending id, in the map's insertion order. */
  function Rejections(ids: seq<string>, reason: Json): (r: seq<Outcome>)
    ensures |r| == |ids|
    ensures forall i :: 0 <= i < |ids| ==> r[i] == Rejected(ids[i], reason)
  {
    seq(|ids|, i requires 0 <= i < |ids| => Rejected(ids[i], reason))
  }

  const Disconnect_Reason := JStr("disconnected")

  // ---------------------------------------------------------------- request payloads

  /** The handshake parameters: protocol 3 exactly, the web-chat client, operator scopes, the token. */
  function ConnectParams(token: string): Json {
    JObj([
      Field("minProtocol", JNum(ProtocolVersion)),
      Field("maxProtocol", JNum(ProtocolVersion)),
      Field("client", JObj([
        Field("id", JStr("webchat")),
        Field("version", JStr("0.2.0")),
        Field("platform", JStr("web")),
        Field("mode", JStr("webchat"))])),
      Field("role", JStr("operator")),
      Field("scopes", JArr([JStr("operator.read"), JStr("operator.write")])),
      Field("caps", JArr([])),
      Field("commands", JArr([])),
      Field("permissions", JObj([])),
      Field("auth", JObj([Field("token", JStr(token))])),
      Field("locale", JStr("en-US")),
      Field("userAgent", JStr("ClawTabs/0.2.0"))])
  }

  /** The handshake asks for protocol 3 at both ends and authenticates with the client's token. */
  lemma ConnectParamsCarryToken(token: string)
    ensures Get(ConnectParams(token), "minProtocol") == JNum(3)
    ensures Get(ConnectParams(token), "maxProtocol") == JNum(3)
    ensures Get(Get(ConnectParams(token), "auth"), "token") == JStr(token)
    ensures Get(ConnectParams(token), "role") == JStr("operator")
  {
    var fs := ConnectParams(token).fields;
    LookupAt(fs, "minProtocol", 0);
    LookupAt(fs, "maxProtocol", 1);
    LookupAt(fs, "role", 3);
    LookupAt(fs, "auth", 8);
    LookupAt(fs[8].value.fields, "token", 0);
  }

  predicate IsLineTerminator(c: char) {
    c == '\n' || c == '\r' || c as int == 0x2028 || c as int == 0x2029
  }

  predicate NoLineTerminator(s: string) {
    forall i :: 0 <= i < |s| ==> !IsLineTerminator(s[i])
  }

  /** The position of the first ';' at or after `from`. */
  function SemicolonFrom(s: string, from: nat): (r: Option<nat>)
    requires from <= |s|
    ensures r.Some? ==> from <= r.value < |s| && s[r.value] == ';'
    ensures r.Some? ==> forall k :: from <= k < r.value ==> s[k] != ';'
    ensures r.None? ==> forall k :: from <= k < |s| ==> s[k] != ';'
    decreases |s| - from
  {
    if from == |s| then None else if s[from] == ';' then Some(from) else SemicolonFrom(s, from + 1)
  }

  /**
   * The capture of `/^data:[^;]+;base64,(.*)$/`: after "data:", a non-empty run
   * without ';', then ";base64,", then the rest, which `.` only matches when it
   * has no line terminator. `None` when the pattern does not match.
   */
  function Base64Payload(s: string): Option<string> {
    if !("data:" <= s) then None
    else match SemicolonFrom(s, 5)
      case None => None
      case Some(j) =>
        if j > 5 && ";base64," <= s[j..] && NoLineTerminator(s[j + 8..]) then Some(s[j + 8..]) else None
  }

  /** A base64 data URL. */
  function DataUrl(mime: string, data: string): string {
    "data:" + mime + ";base64," + data
  }

  /** Stripping the prefix of a data URL gives back its base64 data. */
  lemma {:induction false} Base64PayloadOfDataUrl(mime: string, data: string)
    requires mime != [] && ';' !in mime && NoLineTerminator(data)
    ensures Base64Payload(DataUrl(mime, data)) == Some(data)
  {
    var s := DataUrl(mime, data);
    var j := 5 + |mime|;
    assert s[..5] == "data:";
    assert s[5..j] == mime;
    assert s[j..] == ";base64," + data;
    assert s[j + 8..] == data;
    forall k | 5 <= k < j
      ensures s[k] != ';'
    {
      assert s[k] == mime[k - 5];
    }
    SemicolonFromFirst(s, 5, j);
  }

  lemma {:induction false} SemicolonFromFirst(s: string, from: nat, j: nat)
    requires from <= j < |s| && s[j] == ';'
    requires forall k :: from <= k < j ==> s[k] != ';'
    ensures SemicolonFrom(s, from) == Some(j)
    decreases j - from
  {
    if from < j {
      SemicolonFromFirst(s, from + 1, j);
    }
  }

  /** Text that does not start with "data:" is sent unchanged. */
  lemma Base64PayloadNeedsPrefix(s: string)
    requires !("data:" <= s)
    ensures Base64Payload(s) == None
  {
  }

  /** The attachment content sent: `dataUrl || content || ''`, without a data-URL prefix. */
  function AttachmentContent(att: OutgoingAttachment): string {
    var c := if att.dataUrl != "" then att.dataUrl else att.content;
    match Base64Payload(c)
    case Some(data) => data
    case None => c
  }

  /** `{content, mimeType}`; an absent mime type is dropped when the frame is serialised. */
  function AttachmentJson(att: OutgoingAttachment): Json {
    JObj([Field("content", JStr(AttachmentContent(att)))]
      + (if att.mimeType.Some? then [Field("mimeType", JStr(att.mimeType.value))] else []))
  }

  /** A data-URL attachment is sent as its bare base64 data with its declared mime type. */
  lemma AttachmentFromDataUrl(mime: string, data: string, declared: string)
    requires mime != [] && ';' !in mime && NoLineTerminator(data)
    ensures AttachmentJson(OutgoingAttachment(DataUrl(mime, data), "", Some(declared)))
      == JObj([Field("content", JStr(data)), Field("mimeType", JStr(declared))])
  {
    Base64PayloadOfDataUrl(mime, data);
  }

  /** `ct-${Date.now()}-${random}`, with the random part supplied. */
  function IdempotencyKey(now: nat, nonce: string): string {
    "ct-" + DecimalString(now) + "-" + nonce
  }

  function ChatSendParams(sessionKey: string, text: string, attachments: seq<OutgoingAttachment>, key: string): Json {
    JObj([Field("sessionKey", JStr(sessionKey)), Field("message", JStr(text)), Field("idempotencyKey", JStr(key))]
      + (if |attachments| > 0
         then [Field("attachments", JArr(seq(|attachments|, i requires 0 <= i < |attachments| => AttachmentJson(attachments[i]))))]
         else []))
  }

  /** The attachments key is present exactly when there is at least one attachment, and it lists every one of them. */
  lemma ChatSendAttachments(sessionKey: string, text: string, attachments: seq<OutgoingAttachment>, key: string)
    ensures Get(ChatSendParams(sessionKey, text, attachments, key), "message") == JStr(text)
    ensures Get(ChatSendParams(sessionKey, text, attachments, key), "sessionKey") == JStr(sessionKey)
    ensures |attachments| == 0 ==> Get(ChatSendParams(sessionKey, text, attachments, key), "attachments") == JNull
    ensures |attachments| > 0 ==>
      var a := Get(ChatSendParams(sessionKey, text, attachments, key), "attachments");
      a.JArr? && |a.items| == |attachments|
      && forall i :: 0 <= i < |attachments| ==> a.items[i] == AttachmentJson(attachments[i])
  {
    var fs := ChatSendParams(sessionKey, text, attachments, key).fields;
    LookupAt(fs, "sessionKey", 0);
    LookupAt(fs, "message", 1);
    if |attachments| == 0 {
      LookupMissing(fs, "attachments");
    } else {
      LookupAt(fs, "attachments", 3);
    }
  }

  /** `{sessionKey, ...(runId ? {runId} : {})}`: an empty run id is left out. */
  function ChatAbortParams(sessionKey: string, runId: Option<string>): Json {
    JObj([Field("sessionKey", JStr(sessionKey))]
      + (if runId.Some? && runId.value != "" then [Field("runId", JStr(runId.value))] else []))
  }

  lemma ChatAbortRunId(sessionKey: string, runId: Option<string>)
    ensures Get(ChatAbortParams(sessionKey, runId), "runId")
      == if runId.Some? && runId.value != "" then JStr(runId.value) else JNull
  {
    var fs := ChatAbortParams(sessionKey, runId).fields;
    if runId.Some? && runId.value != "" {
      LookupAt(fs, "runId", 1);
    } else {
      LookupMissing(fs, "runId");
    }
  }

  function SessionKeyParams(sessionKey: string): Json {
    JObj([Field("sessionKey", JStr(sessionKey))])
  }

  function RenameParams(sessionKey: string, name: string): Json {
    JObj([Field("sessionKey", JStr(sessionKey)), Field("displayName", JStr(name))])
  }

  /** What `listSessions`/`chatHistory` make of a response: `res?.[key] ?? res ?? []`. */
  function ListResult(res: Json, key: string): (r: Json)
    ensures r != JNull
  {
    Coalesce(Coalesce(Get(res, key), res), JArr([]))
  }

  /** The list field when present, else the response itself, else an empty list. */
  lemma ListResultCases(res: Json, key: string)
    ensures Get(res, key) != JNull ==> ListResult(res, key) == Get(res, key)
    ensures Get(res, key) == JNull && res != JNull ==> ListResult(res, key) == res
    ensures res == JNull ==> ListResult(res, key) == JArr([])
  {
  }

  // ---------------------------------------------------------------- the client

  class Gateway {
    const url: string
    const token: string
    var ws: Option<ReadyState>
    var reqId: nat
    /** The keys of the pending map, in insertion order. */
    var pendingOrder: seq<string>
    var pending: map<string, Waiter>
    var status: ConnectionStatus
    /** A reconnect callback is scheduled and has not run yet. */
    var reconnectPending: bool
    var intentionalClose: bool
    var sent: seq<SentRequest>
    var outcomes: seq<Outcome>
    var notices: seq<Notice>

    ghost predicate WasSent(id: string)
      reads this`sent
    {
      exists i :: 0 <= i < |sent| && sent[i].id == id
    }

    /**
     * The n-th request sent carries id String(n); every pending id was sent;
     * nothing is pending while there is no socket; a disconnected client has
     * no socket.
     */
    ghost predicate Valid()
      reads this
    {
      |sent| == reqId
      && (forall i :: 0 <= i < |sent| ==> sent[i].id == RequestId(i + 1))
      && Distinct(pendingOrder)
      && (forall id :: id in pending <==> id in pendingOrder)
      && (forall k :: 0 <= k < |pendingOrder| ==> WasSent(pendingOrder[k]))
      && (ws.None? ==> pendingOrder == [])
      && (status == Disconnected ==> ws.None?)
    }

    constructor (url: string, token: string)
      ensures Valid()
      ensures this.url == url && this.token == token
      ensures ws == None && reqId == 0 && pendingOrder == [] && pending == map[]
      ensures status == Disconnected && !reconnectPending && !intentionalClose
      ensures sent == [] && outcomes == [] && notices == []
    {
      this.url := url;
      this.token := token;
      ws := None;
      reqId := 0;
      pendingOrder := [];
      pending := map[];
      status := Disconnected;
      reconnectPending := false;
      intentionalClose := false;
      sent := [];
      outcomes := [];
      notices := [];
    }

    /** No two requests this client sent share an id. */
    lemma SentIdsDistinct()
      requires Valid()
      ensures forall i, j :: 0 <= i < j < |sent| ==> sent[i].id != sent[j].id
    {
      forall i, j | 0 <= i < j < |sent|
        ensures sent[i].id != sent[j].id
      {
        if sent[i].id == sent[j].id {
          DecimalInjective(i + 1, j + 1);
        }
      }
    }

    // ---------------------------------------------------------------- transitions

    twostate predicate SameRequests()
      reads this
    {
      reqId == old(reqId) && pending == old(pending) && pendingOrder == old(pendingOrder)
      && sent == old(sent) && outcomes == old(outcomes)
    }

    /** `request` registered a new id for `w` and wrote the request frame. */
    twostate predicate IssuedRequest(r: Issued, m: string, params: Json, w: Waiter)
      reads this
    {
      var id := RequestId(old(reqId) + 1);
      r == Sent(id) && reqId == old(reqId) + 1 && id !in old(pending)
      && pending == old(pending)[id := w] && pendingOrder == old(pendingOrder) + [id]
      && sent == old(sent) + [SentRequest(id, m, params)] && outcomes == old(outcomes)
    }

    /** `request` rejected at once with 'not connected' and changed nothing. */
    twostate predicate Refused(r: Issued)
      reads this
    {
      r == NotConnected && SameRequests()
    }

    twostate predicate ConnectStep(accepted: bool, thrown: bool)
      reads this`ws, this`status, this`notices, this`intentionalClose,
        this`reqId, this`pending, this`pendingOrder, this`sent, this`outcomes
    {
      reqId == old(reqId) && pending == old(pending) && pendingOrder == old(pendingOrder)
      && sent == old(sent) && outcomes == old(outcomes)
      && if old(ws).Some? then
        !thrown && ws == old(ws) && status == old(status) && notices == old(notices)
        && intentionalClose == old(intentionalClose)
      else
        !intentionalClose && status == Connecting && notices == old(notices) + [StatusChanged(Connecting)]
        && thrown == !accepted && ws == (if accepted then Some(SocketConnecting) else None)
    }

    twostate predicate OpenStep()
      reads this
    {
      SameRequests() && status == old(status) && notices == old(notices)
      && reconnectPending == old(reconnectPending) && intentionalClose == old(intentionalClose)
      && ws == (if old(ws) == Some(SocketConnecting) then Some(SocketOpen) else old(ws))
    }

    twostate predicate ResponseStep(id: string, ok: bool, payload: Json, error: Json)
      reads this
    {
      reconnectPending == old(reconnectPending) && intentionalClose == old(intentionalClose)
      && if id !in old(pending) then
        SameRequests() && ws == old(ws) && status == old(status) && notices == old(notices)
      else
        var w := old(pending)[id];
        pending == old(pending) - {id} && pendingOrder == OrderAfterDelete(old(pendingOrder), id)
        && outcomes == old(outcomes) + [if ok then Resolved(id, payload) else Rejected(id, error)]
        && reqId == old(reqId) && sent == old(sent)
        && if w == HandshakeWaiter && ok then
          status == Connected && notices == old(notices) + [StatusChanged(Connected)] && ws == old(ws)
        else
          status == old(status) && notices == old(notices)
          && ws == (if w == HandshakeWaiter then AfterClose(old(ws)) else old(ws))
    }

    twostate predicate EventStep(name: string, payload: Json)
      reads this
    {
      reconnectPending == old(reconnectPending) && intentionalClose == old(intentionalClose)
      && status == old(status)
      && if name == "connect.challenge" then
        notices == old(notices)
        && if old(ws) == Some(SocketOpen) then
          IssuedRequest(Sent(RequestId(old(reqId) + 1)), "connect", ConnectParams(token), HandshakeWaiter)
          && ws == old(ws)
        else
          Refused(NotConnected) && ws == AfterClose(old(ws))
      else
        SameRequests() && ws == old(ws)
        && notices == old(notices) + (if name == "chat" || name == "agent" then [ChatEvent(payload, name)] else [])
    }

    twostate predicate FrameStep(f: Frame)
      reads this
    {
      match f
      case Malformed => unchanged(this)
      case Res(id, ok, payload, error) => ResponseStep(id, ok, payload, error)
      case Event(name, payload) => EventStep(name, payload)
    }

    twostate predicate CloseStep()
      reads this
    {
      ws == None && pending == map[] && pendingOrder == []
      && outcomes == old(outcomes) + Rejections(old(pendingOrder), Disconnect_Reason)
      && status == Disconnected && notices == old(notices) + [StatusChanged(Disconnected)]
      && reconnectPending == (old(reconnectPending) || !old(intentionalClose))
      && intentionalClose == old(intentionalClose) && reqId == old(reqId) && sent == old(sent)
    }

    twostate predicate DisconnectStep()
      reads this
    {
      intentionalClose && !reconnectPending && ws == None && pending == map[] && pendingOrder == []
      && outcomes == old(outcomes) + Rejections(old(pendingOrder), Disconnect_Reason)
      && status == Disconnected && notices == old(notices) + [StatusChanged(Disconnected)]
      && reqId == old(reqId) && sent == old(sent)
    }

    // ---------------------------------------------------------------- operations

    method SetStatus(s: ConnectionStatus)
      modifies this`status, this`notices
      ensures status == s && notices == old(notices) + [StatusChanged(s)]
    {
      status := s;
      notices := notices + [StatusChanged(s)];
    }

    /** Opens a socket unless one exists; the client reports 'connecting' first. */
    method Connect(accepted: bool) returns (thrown: bool)
      requires Valid()
      modifies this
      ensures Valid()
      ensures ConnectStep(accepted, thrown) && reconnectPending == old(reconnectPending)
    {
      thrown := false;
      if ws.Some? {
        return;
      }
      intentionalClose := false;
      SetStatus(Connecting);
      if !accepted {
        thrown := true;
        return;
      }
      ws := Some(SocketConnecting);
    }

    /** The socket reached the OPEN ready state. */
    method OnOpen()
      requires Valid()
      modifies this`ws
      ensures Valid()
      ensures OpenStep()
    {
      if ws == Some(SocketConnecting) {
        ws := Some(SocketOpen);
      }
    }

    /** The next request id is not among the pending ones: every pending id was issued already, and ids are never issued twice. */
    lemma NextIdUnused()
      requires Valid()
      ensures RequestId(reqId + 1) !in pending && RequestId(reqId + 1) !in pendingOrder
    {
      var id := RequestId(reqId + 1);
      forall k | k in pending
        ensures k != id
      {
        assert k in pendingOrder;
        var p :| 0 <= p < |pendingOrder| && pendingOrder[p] == k;
        assert WasSent(pendingOrder[p]);
        var i :| 0 <= i < |sent| && sent[i].id == k;
        if k == id {
          DecimalInjective(i + 1, reqId + 1);
        }
      }
    }

    method Request(m: string, params: Json, w: Waiter) returns (r: Issued)
      requires Valid()
      modifies this`reqId, this`pending, this`pendingOrder, this`sent
      ensures Valid()
      ensures if ws == Some(SocketOpen) then IssuedRequest(r, m, params, w) else Refused(r)
    {
      if ws != Some(SocketOpen) {
        return NotConnected;
      }
      var id := RequestId(reqId + 1);
      NextIdUnused();
      reqId := reqId + 1;
      pending := pending[id := w];
      pendingOrder := pendingOrder + [id];
      sent := sent + [SentRequest(id, m, params)];
      r := Sent(id);
      assert WasSent(id) by {
        assert sent[|sent| - 1].id == id;
      }
      forall k | 0 <= k < |pendingOrder|
        ensures WasSent(pendingOrder[k])
      {
        if k < |pendingOrder| - 1 {
          assert old(WasSent(pendingOrder[k]));
          var i :| 0 <= i < |old(sent)| && old(sent)[i].id == pendingOrder[k];
          assert sent[i] == old(sent)[i];
        }
      }
    }

    method RejectAll(reason: Json)
      modifies this`pending, this`pendingOrder, this`outcomes
      ensures pending == map[] && pendingOrder == []
      ensures outcomes == old(outcomes) + Rejections(old(pendingOrder), reason)
    {
      var ids := pendingOrder;
      var i := 0;
      while i < |ids|
        invariant 0 <= i <= |ids|
        invariant outcomes == old(outcomes) + Rejections(ids[..i], reason)
      {
        assert Rejections(ids[..i + 1], reason) == Rejections(ids[..i], reason) + [Rejected(ids[i], reason)];
        outcomes := outcomes + [Rejected(ids[i], reason)];
        i := i + 1;
      }
      assert ids[..i] == ids;
      pending := map[];
      pendingOrder := [];
    }

    method Handshake() returns (r: Issued)
      requires Valid()
      modifies this`reqId, this`pending, this`pendingOrder, this`sent, this`ws
      ensures Valid()
      ensures if old(ws) == Some(SocketOpen) then
          IssuedRequest(r, "connect", ConnectParams(token), HandshakeWaiter) && ws == old(ws)
        else
          Refused(r) && ws == AfterClose(old(ws))
    {
      r := Request("connect", ConnectParams(token), HandshakeWaiter);
      if r == NotConnected {
        ws := AfterClose(ws);
      }
    }

    /** Handles one frame from the socket; a malformed one is ignored. */
    method OnFrame(f: Frame)
      requires Valid()
      modifies this
      ensures Valid()
      ensures FrameStep(f)
    {
      match f
      case Malformed =>
      case Res(id, ok, payload, error) => OnResponse(id, ok, payload, error);
      case Event(name, payload) => OnEvent(name, payload);
    }

    /** A response settles the pending request with its id, if any; the handshake's then runs. */
    method OnResponse(id: string, ok: bool, payload: Json, error: Json)
      requires Valid()
      modifies this
      ensures Valid()
      ensures ResponseStep(id, ok, payload, error)
    {
      if id in pending {
        var w := TakePending(id);
        if ok {
          outcomes := outcomes + [Resolved(id, payload)];
          if w == HandshakeWaiter {
            SetStatus(Connected);
          }
        } else {
          outcomes := outcomes + [Rejected(id, error)];
          if w == HandshakeWaiter {
            ws := AfterClose(ws);
          }
        }
      }
    }

    /** `pending.get(id)` followed by `pending.delete(id)`. */
    method TakePending(id: string) returns (w: Waiter)
      requires Valid() && id in pending
      modifies this`pending, this`pendingOrder
      ensures Valid()
      ensures w == old(pending)[id]
      ensures pending == old(pending) - {id} && pendingOrder == OrderAfterDelete(old(pendingOrder), id)
    {
      w := pending[id];
      pending := pending - {id};
      pendingOrder := OrderAfterDelete(pendingOrder, id);
      OrderAfterDeleteDistinct(old(pendingOrder), id);
      forall k | 0 <= k < |pendingOrder|
        ensures WasSent(pendingOrder[k])
      {
        var x := pendingOrder[k];
        assert x in old(pendingOrder);
        var p :| 0 <= p < |old(pendingOrder)| && old(pendingOrder)[p] == x;
        assert old(WasSent(pendingOrder[p]));
      }
    }

    /** A challenge starts the handshake; chat and agent events go to the chat handler. */
    method OnEvent(name: string, payload: Json)
      requires Valid()
      modifies this
      ensures Valid()
      ensures EventStep(name, payload)
    {
      if name == "connect.challenge" {
        var r := Handshake();
      } else if name == "chat" || name == "agent" {
        notices := notices + [ChatEvent(payload, name)];
      }
    }

    /** The socket closed: everything pending fails and, unless intended, a reconnect is scheduled. */
    method OnClose()
      requires Valid()
      modifies this
      ensures Valid()
      ensures CloseStep()
    {
      ws := None;
      RejectAll(Disconnect_Reason);
      SetStatus(Disconnected);
      if !intentionalClose {
        reconnectPending := true;
      }
    }

    /** The scheduled reconnect runs `connect()`. */
    method FireReconnect(accepted: bool) returns (thrown: bool)
      requires Valid()
      modifies this
      ensures Valid()
      ensures !reconnectPending
      ensures old(reconnectPending) ==> ConnectStep(accepted, thrown)
      ensures !old(reconnectPending) ==> !thrown && unchanged(this)
    {
      thrown := false;
      if reconnectPending {
        thrown := Connect(accepted);
        reconnectPending := false;
      }
    }

    /** Closes on purpose: no reconnect, everything pending fails, status 'disconnected'. */
    method Disconnect()
      requires Valid()
      modifies this
      ensures Valid()
      ensures DisconnectStep()
    {
      intentionalClose := true;
      reconnectPending := false;
      ws := None;
      RejectAll(Disconnect_Reason);
      SetStatus(Disconnected);
    }

    method ListSessions() returns (r: Issued)
      requires Valid()
      modifies this`reqId, this`pending, this`pendingOrder, this`sent
      ensures Valid()
      ensures if ws == Some(SocketOpen) then IssuedRequest(r, "sessions.list", JObj([]), CallerWaiter) else Refused(r)
    {
      r := Request("sessions.list", JObj([]), CallerWaiter);
    }

    method ChatHistory(sessionKey: string) returns (r: Issued)
      requires Valid()
      modifies this`reqId, this`pending, this`pendingOrder, this`sent
      ensures Valid()
      ensures if ws == Some(SocketOpen) then IssuedRequest(r, "chat.history", SessionKeyParams(sessionKey), CallerWaiter) else Refused(r)
    {
      r := Request("chat.history", SessionKeyParams(sessionKey), CallerWaiter);
    }

    method ChatSend(sessionKey: string, text: string, attachments: seq<OutgoingAttachment>, now: nat, nonce: string) returns (r: Issued)
      requires Valid()
      modifies this`reqId, this`pending, this`pendingOrder, this`sent
      ensures Valid()
      ensures if ws == Some(SocketOpen) then
          IssuedRequest(r, "chat.send", ChatSendParams(sessionKey, text, attachments, IdempotencyKey(now, nonce)), CallerWaiter)
        else Refused(r)
    {
      r := Request("chat.send", ChatSendParams(sessionKey, text, attachments, IdempotencyKey(now, nonce)), CallerWaiter);
    }

    method ChatAbort(sessionKey: string, runId: Option<string>) returns (r: Issued)
      requires Valid()
      modifies this`reqId, this`pending, this`pendingOrder, this`sent
      ensures Valid()
      ensures if ws == Some(SocketOpen) then IssuedRequest(r, "chat.abort", ChatAbortParams(sessionKey, runId), CallerWaiter) else Refused(r)
    {
      r := Request("chat.abort", ChatAbortParams(sessionKey, runId), CallerWaiter);
    }

    method DeleteSession(sessionKey: string) returns (r: Issued)
      requires Valid()
      modifies this`reqId, this`pending, this`pendingOrder, this`sent
      ensures Valid()
      ensures if ws == Some(SocketOpen) then IssuedRequest(r, "sessions.delete", SessionKeyParams(sessionKey), CallerWaiter) else Refused(r)
    {
      r := Request("sessions.delete", SessionKeyParams(sessionKey), CallerWaiter);
    }

    method RenameSession(sessionKey: string, name: string) returns (r: Issued)
      requires Valid()
      modifies this`reqId, this`pending, this`pendingOrder, this`sent
      ensures Valid()
      ensures if ws == Some(SocketOpen) then IssuedRequest(r, "session.update", RenameParams(sessionKey, name), CallerWaiter) else Refused(r)
    {
      r := Request("session.update", RenameParams(sessionKey, name), CallerWaiter);
    }
  }
}
