/**
 * The registry of gateways the application talks to
 * (src/store/GatewayManager.ts). It keeps one configuration per gateway id and
 * at most one live client per id, relays each client's status changes and chat
 * events to its listeners as registry events, records statuses in the
 * configurations, and routes requests to the right client.
 *
 * Listeners are opaque callbacks, so a delivery is logged as the pair
 * (listener, event). A client's handler callbacks are the client's `notices`
 * log; after every call into a client the registry relays the notices that call
 * produced (`Relay`), in the order the callbacks would have run. Persistence to
 * IndexedDB is not modelled; the configurations `initialize` loads are a
 * parameter and `Date.now()` is the parameter `now`.
 */
module GatewayRegistry {
  import opened Wrappers
  import opened Seqs
  import opened Json
  import opened Types
  import opened GatewayClient

  datatype ManagerEvent =
    | StatusReported(gatewayId: string, status: GatewayStatus)
    | ChatEventOf(gatewayId: string, payload: Json)
    | GatewayAdded(gatewayId: string, config: GatewayConfig)
    | GatewayRemoved(gatewayId: string)

  type ListenerId = nat

  datatype Delivery = Delivery(listener: ListenerId, event: ManagerEvent)

  /** Why `connect(id)` rejects: the id is not configured, or the browser refused the URL. */
  datatype ConnectError = NotFound(id: string) | SocketRejected(url: string)

  /** `String(err)` for the two errors `connect` can raise. */
  function ErrorText(e: ConnectError): string {
    match e
    case NotFound(id) => "Error: Gateway " + id + " not found"
    case SocketRejected(url) => "SyntaxError: Failed to construct 'WebSocket': The URL '" + url + "' is invalid."
  }

  // ---------------------------------------------------------------- relaying

  /** `{ ...payload, eventType, _gatewayId: id }`. */
  function TagChatPayload(payload: Json, eventType: string, id: string): Json {
    JObj(Put(Put(Spread(payload), "eventType", JStr(eventType)), "_gatewayId", JStr(id)))
  }

  /** A relayed chat payload names its event type and gateway, and keeps every other property. */
  lemma TagChatPayloadFields(payload: Json, eventType: string, id: string, k: string)
    ensures Get(TagChatPayload(payload, eventType, id), "_gatewayId") == JStr(id)
    ensures Get(TagChatPayload(payload, eventType, id), "eventType") == JStr(eventType)
    ensures k != "eventType" && k != "_gatewayId" ==>
      Get(TagChatPayload(payload, eventType, id), k) == Lookup(Spread(payload), k)
  {
    var inner := Put(Spread(payload), "eventType", JStr(eventType));
    PutLookup(Spread(payload), "eventType", JStr(eventType), k);
    PutLookup(inner, "_gatewayId", JStr(id), k);
    PutLookup(inner, "_gatewayId", JStr(id), "eventType");
  }

  /** `updateStatus` on one configuration: `lastConnected` moves only on 'connected'. */
  function ApplyStatus(c: GatewayConfig, s: GatewayStatus, err: Option<string>, now: int): GatewayConfig {
    c.(status := s, error := err, lastConnected := if s == Connected then Some(now) else c.lastConnected)
  }

  /** `updateStatus(id, s, err)`: an unknown id changes nothing. */
  function UpdatedStatus(cfgs: map<string, GatewayConfig>, id: string, s: GatewayStatus, err: Option<string>, now: int): (r: map<string, GatewayConfig>)
    ensures r.Keys == cfgs.Keys
    ensures forall k :: k in cfgs && k != id ==> r[k] == cfgs[k]
    ensures id in cfgs ==> (r[id].status == s && r[id].error == err && r[id].id == cfgs[id].id
      && r[id].name == cfgs[id].name && r[id].url == cfgs[id].url && r[id].token == cfgs[id].token
      && r[id].lastConnected == (if s == Connected then Some(now) else cfgs[id].lastConnected))
  {
    if id in cfgs then cfgs[id := ApplyStatus(cfgs[id], s, err, now)] else cfgs
  }

  /** Setting the same status twice is the same as setting it once. */
  lemma UpdatedStatusTwice(cfgs: map<string, GatewayConfig>, id: string, s: GatewayStatus, err: Option<string>, now: int)
    ensures UpdatedStatus(UpdatedStatus(cfgs, id, s, err, now), id, s, err, now) == UpdatedStatus(cfgs, id, s, err, now)
  {
  }

  /** Relaying a single notice is one handler call. */
  lemma RelayConfigsOne(cfgs: map<string, GatewayConfig>, id: string, n: Notice, now: int)
    ensures RelayConfigs(cfgs, id, [n], now) == RelayStep(cfgs, id, n, now)
  {
    assert [n][..0] == [];
  }

  /**
   * What `connect` leaves in the configuration: 'connecting', after the old
   * client's 'disconnected' if there was one.
   */
  lemma ConnectingConfigs(cfgs: map<string, GatewayConfig>, id: string, stopped: bool, now: int)
    requires id in cfgs
    ensures var c1 := if stopped then UpdatedStatus(cfgs, id, Disconnected, None, now) else cfgs;
      UpdatedStatus(c1, id, Connecting, None, now) == cfgs[id := cfgs[id].(status := Connecting, error := None)]
  {
  }

  /** The registry event a client notice becomes. */
  function EventOf(id: string, n: Notice): ManagerEvent {
    match n
    case StatusChanged(s) => StatusReported(id, s)
    case ChatEvent(p, et) => ChatEventOf(id, TagChatPayload(p, et, id))
  }

  function RelayEvents(id: string, ns: seq<Notice>): (r: seq<ManagerEvent>)
    ensures |r| == |ns| && forall i :: 0 <= i < |ns| ==> r[i] == EventOf(id, ns[i])
  {
    seq(|ns|, i requires 0 <= i < |ns| => EventOf(id, ns[i]))
  }

  /** The configurations after the handler callback of one notice ran. */
  function RelayStep(cfgs: map<string, GatewayConfig>, id: string, n: Notice, now: int): map<string, GatewayConfig> {
    match n
    case StatusChanged(s) => UpdatedStatus(cfgs, id, s, None, now)
    case ChatEvent(_, _) => cfgs
  }

  /** The configurations after the handler callbacks of `ns` ran, in order. */
  function RelayConfigs(cfgs: map<string, GatewayConfig>, id: string, ns: seq<Notice>, now: int): map<string, GatewayConfig>
  {
    if ns == [] then cfgs
    else RelayStep(RelayConfigs(cfgs, id, ns[..|ns| - 1], now), id, ns[|ns| - 1], now)
  }

  /** Relaying never adds or removes a configuration, and leaves every other id alone. */
  lemma {:induction false} RelayConfigsFrame(cfgs: map<string, GatewayConfig>, id: string, ns: seq<Notice>, now: int)
    ensures RelayConfigs(cfgs, id, ns, now).Keys == cfgs.Keys
    ensures forall k :: k in cfgs && k != id ==> RelayConfigs(cfgs, id, ns, now)[k] == cfgs[k]
    decreases |ns|
  {
    if ns != [] {
      RelayConfigsFrame(cfgs, id, ns[..|ns| - 1], now);
    }
  }

  /** After relaying, a configuration holds the last status its client reported, with no error. */
  lemma {:induction false} RelayConfigsLastStatus(cfgs: map<string, GatewayConfig>, id: string, ns: seq<Notice>, now: int, i: nat)
    requires id in cfgs && i < |ns| && ns[i].StatusChanged?
    requires forall j :: i < j < |ns| ==> ns[j].ChatEvent?
    ensures id in RelayConfigs(cfgs, id, ns, now)
    ensures RelayConfigs(cfgs, id, ns, now)[id].status == ns[i].status
    ensures RelayConfigs(cfgs, id, ns, now)[id].error == None
    decreases |ns|
  {
    RelayConfigsFrame(cfgs, id, ns, now);
    if i < |ns| - 1 {
      RelayConfigsLastStatus(cfgs, id, ns[..|ns| - 1], now, i);
    } else {
      RelayConfigsFrame(cfgs, id, ns[..|ns| - 1], now);
    }
  }

  /** One `emit`: the event goes to every listener, in subscription order. */
  function Deliveries(ls: seq<ListenerId>, e: ManagerEvent): (r: seq<Delivery>)
    ensures |r| == |ls| && forall i :: 0 <= i < |ls| ==> r[i] == Delivery(ls[i], e)
  {
    seq(|ls|, i requires 0 <= i < |ls| => Delivery(ls[i], e))
  }

  /** Several `emit`s in a row: each event reaches every listener before the next event. */
  function Broadcast(ls: seq<ListenerId>, es: seq<ManagerEvent>): seq<Delivery> {
    if es == [] then [] else Broadcast(ls, es[..|es| - 1]) + Deliveries(ls, es[|es| - 1])
  }

  lemma BroadcastOne(ls: seq<ListenerId>, e: ManagerEvent)
    ensures Broadcast(ls, [e]) == Deliveries(ls, e)
  {
    assert [e][..0] == [];
    assert [] + Deliveries(ls, e) == Deliveries(ls, e);
  }

  lemma {:induction false} BroadcastAppend(ls: seq<ListenerId>, a: seq<ManagerEvent>, b: seq<ManagerEvent>)
    ensures Broadcast(ls, a + b) == Broadcast(ls, a) + Broadcast(ls, b)
    decreases |b|
  {
    if b != [] {
      assert (a + b)[..|a + b| - 1] == a + b[..|b| - 1];
      BroadcastAppend(ls, a, b[..|b| - 1]);
    } else {
      assert a + b == a;
    }
  }

  /** Every listener receives every event, and nobody else receives anything. */
  lemma {:induction false} BroadcastReaches(ls: seq<ListenerId>, es: seq<ManagerEvent>, d: Delivery)
    ensures d in Broadcast(ls, es) <==> d.listener in ls && d.event in es
    decreases |es|
  {
    if es != [] {
      var last := Deliveries(ls, es[|es| - 1]);
      BroadcastReaches(ls, es[..|es| - 1], d);
      if d in last {
        var i :| 0 <= i < |last| && last[i] == d;
        assert d.listener == ls[i];
      }
      if d.listener in ls && d.event == es[|es| - 1] {
        var i :| 0 <= i < |ls| && ls[i] == d.listener;
        assert last[i] == d;
      }
      assert es == es[..|es| - 1] + [es[|es| - 1]];
      assert d.event in es <==> d.event in es[..|es| - 1] || d.event == es[|es| - 1];
    }
  }

  // ---------------------------------------------------------------- queries

  predicate ReportsConnected(status: map<string, ConnectionStatus>, id: string) {
    id in status && status[id] == Connected
  }

  /** The connected ids that also have a configuration (`getConnected`). */
  function ConnectedIn(order: seq<string>, status: map<string, ConnectionStatus>, configured: set<string>): seq<string> {
    if order == [] then []
    else (ConnectedIn(order[..|order| - 1], status, configured)
      + (if ReportsConnected(status, order[|order| - 1]) && order[|order| - 1] in configured then [order[|order| - 1]] else []))
  }

  /** An id is listed exactly when it is in the order, connected and configured. */
  lemma {:induction false} ConnectedInMembers(order: seq<string>, status: map<string, ConnectionStatus>, configured: set<string>, id: string)
    ensures id in ConnectedIn(order, status, configured) <==> id in order && ReportsConnected(status, id) && id in configured
    decreases |order|
  {
    if order != [] {
      ConnectedInMembers(order[..|order| - 1], status, configured, id);
      assert order == order[..|order| - 1] + [order[|order| - 1]];
    }
  }

  /** Scanning one more id extends the list of connected ids by that id when it qualifies. */
  lemma ConnectedInSnoc(order: seq<string>, status: map<string, ConnectionStatus>, configured: set<string>, i: nat)
    requires i < |order|
    ensures ConnectedIn(order[..i + 1], status, configured) == ConnectedIn(order[..i], status, configured)
      + (if ReportsConnected(status, order[i]) && order[i] in configured then [order[i]] else [])
  {
    assert order[..i + 1][..i] == order[..i];
  }

  /** Listing the connected ids of two stretches of the map order lists each stretch in turn. */
  lemma {:induction false} ConnectedInAppend(a: seq<string>, b: seq<string>, status: map<string, ConnectionStatus>, configured: set<string>)
    ensures ConnectedIn(a + b, status, configured) == ConnectedIn(a, status, configured) + ConnectedIn(b, status, configured)
    decreases |b|
  {
    if b == [] {
      assert a + b == a;
    } else {
      assert (a + b)[..|a + b| - 1] == a + b[..|b| - 1];
      ConnectedInAppend(a, b[..|b| - 1], status, configured);
    }
  }

  /** The first qualifying id of the scan is the head of the whole list. */
  lemma FirstConnectedAt(order: seq<string>, status: map<string, ConnectionStatus>, configured: set<string>, i: nat)
    requires i < |order| && ConnectedIn(order[..i], status, configured) == []
    requires ReportsConnected(status, order[i]) && order[i] in configured
    ensures ConnectedIn(order, status, configured) != [] && ConnectedIn(order, status, configured)[0] == order[i]
  {
    ConnectedInSnoc(order, status, configured, i);
    assert order == order[..i + 1] + order[i + 1..];
    ConnectedInAppend(order[..i + 1], order[i + 1..], status, configured);
  }

  /** `Array.from(configs.values())` with the statuses `initialize` resets. */
  function Reset(stored: seq<GatewayConfig>): (r: seq<GatewayConfig>)
    ensures |r| == |stored|
    ensures forall i :: 0 <= i < |stored| ==> r[i] == stored[i].(status := Disconnected)
  {
    seq(|stored|, i requires 0 <= i < |stored| => stored[i].(status := Disconnected))
  }

  /** `configs.set(c.id, c)` for each loaded configuration, in order. */
  function LoadConfigs(cfgs: map<string, GatewayConfig>, stored: seq<GatewayConfig>): map<string, GatewayConfig> {
    if stored == [] then cfgs
    else
      var c := stored[|stored| - 1];
      LoadConfigs(cfgs, stored[..|stored| - 1])[c.id := c.(status := Disconnected)]
  }

  /** The key order the same `set` calls leave. */
  function LoadOrder(order: seq<string>, stored: seq<GatewayConfig>): seq<string> {
    if stored == [] then order
    else OrderAfterSet(LoadOrder(order, stored[..|stored| - 1]), stored[|stored| - 1].id)
  }

  /**
   * After loading, an id holds the last loaded configuration with that id, reset
   * to 'disconnected'; ids not loaded keep what they had.
   */
  lemma LoadConfigsLast(cfgs: map<string, GatewayConfig>, stored: seq<GatewayConfig>, k: string)
    ensures k in LoadConfigs(cfgs, stored) <==> k in cfgs || exists i :: 0 <= i < |stored| && stored[i].id == k
    ensures (forall i :: 0 <= i < |stored| ==> stored[i].id != k) && k in cfgs ==> LoadConfigs(cfgs, stored)[k] == cfgs[k]
    ensures forall i :: 0 <= i < |stored| && stored[i].id == k && (forall j :: i < j < |stored| ==> stored[j].id != k) ==>
      LoadConfigs(cfgs, stored)[k] == stored[i].(status := Disconnected)
  {
    LoadConfigsKeys(cfgs, stored, k);
    if k in cfgs && forall i :: 0 <= i < |stored| ==> stored[i].id != k {
      LoadConfigsUntouched(cfgs, stored, k);
    }
    forall i | 0 <= i < |stored| && stored[i].id == k && (forall j :: i < j < |stored| ==> stored[j].id != k)
      ensures LoadConfigs(cfgs, stored)[k] == stored[i].(status := Disconnected)
    {
      LoadConfigsLastWins(cfgs, stored, k, i);
    }
  }

  /** The ids after loading are the ones there were and the ones loaded. */
  lemma {:induction false} LoadConfigsKeys(cfgs: map<string, GatewayConfig>, stored: seq<GatewayConfig>, k: string)
    ensures k in LoadConfigs(cfgs, stored) <==> k in cfgs || exists i :: 0 <= i < |stored| && stored[i].id == k
    decreases |stored|
  {
    if stored != [] {
      var init := stored[..|stored| - 1];
      LoadConfigsKeys(cfgs, init, k);
      if exists i :: 0 <= i < |init| && init[i].id == k {
        var i :| 0 <= i < |init| && init[i].id == k;
        assert stored[i].id == k;
      }
    }
  }

  /** An id no stored configuration has keeps what it had. */
  lemma {:induction false} LoadConfigsUntouched(cfgs: map<string, GatewayConfig>, stored: seq<GatewayConfig>, k: string)
    requires k in cfgs && forall i :: 0 <= i < |stored| ==> stored[i].id != k
    ensures k in LoadConfigs(cfgs, stored) && LoadConfigs(cfgs, stored)[k] == cfgs[k]
    decreases |stored|
  {
    if stored != [] {
      var init := stored[..|stored| - 1];
      assert forall i :: 0 <= i < |init| ==> init[i] == stored[i];
      LoadConfigsUntouched(cfgs, init, k);
    }
  }

  /** The last stored configuration with an id is the one that id holds, reset to 'disconnected'. */
  lemma {:induction false} LoadConfigsLastWins(cfgs: map<string, GatewayConfig>, stored: seq<GatewayConfig>, k: string, i: nat)
    requires i < |stored| && stored[i].id == k && forall j :: i < j < |stored| ==> stored[j].id != k
    ensures k in LoadConfigs(cfgs, stored) && LoadConfigs(cfgs, stored)[k] == stored[i].(status := Disconnected)
    decreases |stored|
  {
    if i < |stored| - 1 {
      var init := stored[..|stored| - 1];
      assert forall j :: 0 <= j < |init| ==> init[j] == stored[j];
      LoadConfigsLastWins(cfgs, init, k, i);
    }
  }

  /** Loading keeps the key order duplicate-free and in step with the map's keys. */
  lemma {:induction false} LoadKeepsOrder(order: seq<string>, cfgs: map<string, GatewayConfig>, stored: seq<GatewayConfig>)
    requires Distinct(order) && forall id :: id in cfgs <==> id in order
    ensures Distinct(LoadOrder(order, stored))
    ensures forall id :: id in LoadConfigs(cfgs, stored) <==> id in LoadOrder(order, stored)
    ensures forall id :: id in LoadConfigs(cfgs, stored) ==> LoadConfigs(cfgs, stored)[id].id == id || (id in cfgs && LoadConfigs(cfgs, stored)[id] == cfgs[id])
    decreases |stored|
  {
    if stored != [] {
      var init := stored[..|stored| - 1];
      LoadKeepsOrder(order, cfgs, init);
      OrderAfterSetDistinct(LoadOrder(order, init), stored[|stored| - 1].id);
      var o := LoadOrder(order, stored);
      forall id | id in o
        ensures id in LoadConfigs(cfgs, stored)
      {
        var i :| 0 <= i < |o| && o[i] == id;
      }
      forall id | id in LoadConfigs(cfgs, stored)
        ensures id in o
      {
        if id != stored[|stored| - 1].id {
          var prev := LoadOrder(order, init);
          var i :| 0 <= i < |prev| && prev[i] == id;
        }
      }
    }
  }

  /** A client `connect` has just created for `cfg` and started. */
  ghost predicate FreshClient(g: Gateway, cfg: GatewayConfig, accepted: bool)
    reads g
  {
    g.Valid() && g.url == cfg.url && g.token == cfg.token
    && g.status == Connecting && g.ws == (if accepted then Some(SocketConnecting) else None)
    && g.reqId == 0 && g.pending == map[] && g.pendingOrder == [] && g.sent == [] && g.outcomes == []
    && !g.reconnectPending && !g.intentionalClose && g.notices == [StatusChanged(Connecting)]
  }

  /** A fresh client depends on its configuration's url and token only. */
  lemma FreshClientCredentials(g: Gateway, c: GatewayConfig, d: GatewayConfig, accepted: bool)
    requires FreshClient(g, c, accepted) && c.url == d.url && c.token == d.token
    ensures FreshClient(g, d, accepted)
  {
  }

  /** What a client's socket or timer can do to it after `connect`. */
  datatype SocketEvent = Opened | Received(frame: Frame) | Closed | ReconnectDue

  twostate predicate ClientStep(g: Gateway, ev: SocketEvent, accepted: bool)
    reads g
  {
    match ev
    case Opened => g.OpenStep()
    case Received(f) => g.FrameStep(f)
    case Closed => g.CloseStep()
    case ReconnectDue =>
      !g.reconnectPending
      && (old(g.reconnectPending) ==> g.ConnectStep(accepted, old(g.ws).None? && !accepted))
      && (!old(g.reconnectPending) ==> unchanged(g))
  }

  // ---------------------------------------------------------------- configuration updates

  /** The fields `updateGateway` may change; an absent field is not a key of the update object. */
  datatype ConfigUpdate = ConfigUpdate(name: Option<string>, url: Option<string>, token: Option<string>)

  /** JavaScript truthiness of an optional string: present and non-empty. */
  predicate Truthy(o: Option<string>) {
    o.Some? && o.value != ""
  }

  /** `Object.assign(config, updates)`: every present field overwrites, even with "". */
  function Assign(c: GatewayConfig, u: ConfigUpdate): (r: GatewayConfig)
    ensures r.name == (if u.name.Some? then u.name.value else c.name)
    ensures r.url == (if u.url.Some? then u.url.value else c.url)
    ensures r.token == (if u.token.Some? then u.token.value else c.token)
    ensures r.(name := c.name, url := c.url, token := c.token) == c
  {
    c.(name := if u.name.Some? then u.name.value else c.name,
       url := if u.url.Some? then u.url.value else c.url,
       token := if u.token.Some? then u.token.value else c.token)
  }

  /** The assignment touches neither the status nor the error, so it commutes with `updateStatus`. */
  lemma AssignStatus(c: GatewayConfig, u: ConfigUpdate, s: GatewayStatus, err: Option<string>)
    ensures Assign(c.(status := s, error := err), u) == Assign(c, u).(status := s, error := err)
  {
  }

  /** The update brings a non-empty url or token that differs from the current one. */
  predicate CredentialsChanged(c: GatewayConfig, u: ConfigUpdate) {
    (Truthy(u.url) && u.url.value != c.url) || (Truthy(u.token) && u.token.value != c.token)
  }

  /**
   * The configuration `connectAll` leaves for an id: untouched when its client
   * was active, 'connecting' when the new socket opened, 'error' with the
   * browser's message when it was refused.
   */
  function ConnectAllConfig(c: GatewayConfig, active: bool, accepted: bool, now: int): GatewayConfig {
    if active then c
    else if accepted then c.(status := Connecting, error := None)
    else ApplyStatus(c.(status := Connecting, error := None), Error, Some(ErrorText(SocketRejected(c.url))), now)
  }

  // ---------------------------------------------------------------- connecting every id

  /** What `connect(id)` resolves to on a configured id, given whether its client was active. */
  function ConnectOutcome(c: GatewayConfig, active: bool, accepted: bool): Result<(), ConnectError> {
    if active || accepted then Ok(()) else Err(SocketRejected(c.url))
  }

  /** The configurations after `connect` ran on each id of `ids` in turn; `act` holds the ids whose client was active. */
  function StartConfigs(cfgs: map<string, GatewayConfig>, ids: seq<string>, act: set<string>): (r: map<string, GatewayConfig>)
    ensures r.Keys == cfgs.Keys
  {
    if ids == [] then cfgs
    else
      var prev := StartConfigs(cfgs, ids[..|ids| - 1], act);
      var id := ids[|ids| - 1];
      if id in act || id !in prev then prev else prev[id := prev[id].(status := Connecting, error := None)]
  }

  /** Starting one more id. */
  lemma StartConfigsSnoc(cfgs: map<string, GatewayConfig>, ids: seq<string>, act: set<string>, i: nat)
    requires i < |ids|
    ensures var prev := StartConfigs(cfgs, ids[..i], act);
      StartConfigs(cfgs, ids[..i + 1], act)
        == if ids[i] in act || ids[i] !in prev then prev else prev[ids[i] := prev[ids[i]].(status := Connecting, error := None)]
  {
    assert ids[..i + 1][..i] == ids[..i];
  }

  /** The client statuses after `connect` ran on each id of `ids` in turn: a new client reports 'connecting'. */
  function StartStatuses(st: map<string, ConnectionStatus>, ids: seq<string>, act: set<string>): map<string, ConnectionStatus> {
    if ids == [] then st
    else
      var prev := StartStatuses(st, ids[..|ids| - 1], act);
      if ids[|ids| - 1] in act then prev else prev[ids[|ids| - 1] := Connecting]
  }

  lemma StartStatusesSnoc(st: map<string, ConnectionStatus>, ids: seq<string>, act: set<string>, i: nat)
    requires i < |ids|
    ensures var prev := StartStatuses(st, ids[..i], act);
      StartStatuses(st, ids[..i + 1], act) == if ids[i] in act then prev else prev[ids[i] := Connecting]
  {
    assert ids[..i + 1][..i] == ids[..i];
  }

  /** Every started id ends up with a client; one that was not active reports 'connecting'; nothing else changes. */
  lemma {:induction false} StartStatusesAt(st: map<string, ConnectionStatus>, ids: seq<string>, act: set<string>, k: string)
    requires forall a :: a in act ==> a in st
    ensures k in StartStatuses(st, ids, act) <==> k in st || k in ids
    ensures k in ids && k !in act ==> StartStatuses(st, ids, act)[k] == Connecting
    ensures k in st && (k !in ids || k in act) ==> StartStatuses(st, ids, act)[k] == st[k]
    decreases |ids|
  {
    if ids != [] {
      StartStatusesAt(st, ids[..|ids| - 1], act, k);
      assert ids == ids[..|ids| - 1] + [ids[|ids| - 1]];
    }
  }

  /** The configurations after the rejection handlers for `rs` ran, in order. */
  function ApplyFailures(cfgs: map<string, GatewayConfig>, ids: seq<string>, rs: seq<Result<(), ConnectError>>, now: int): (r: map<string, GatewayConfig>)
    requires |rs| == |ids|
    ensures r.Keys == cfgs.Keys
  {
    if ids == [] then cfgs
    else
      var prev := ApplyFailures(cfgs, ids[..|ids| - 1], rs[..|rs| - 1], now);
      match rs[|rs| - 1]
      case Ok(_) => prev
      case Err(e) => UpdatedStatus(prev, ids[|ids| - 1], Error, Some(ErrorText(e)), now)
  }

  lemma DistinctInit<T>(s: seq<T>)
    requires Distinct(s) && s != []
    ensures Distinct(s[..|s| - 1]) && s[|s| - 1] !in s[..|s| - 1]
  {
    var init := s[..|s| - 1];
    forall i | 0 <= i < |init|
      ensures init[i] != s[|s| - 1]
    {
      assert init[i] == s[i];
    }
  }

  /** Each id is started once: a configuration is 'connecting' exactly when its id was started and was not active. */
  lemma {:induction false} StartConfigsAt(cfgs: map<string, GatewayConfig>, ids: seq<string>, act: set<string>, k: string)
    requires Distinct(ids) && k in cfgs
    ensures StartConfigs(cfgs, ids, act)[k] == (if k in ids && k !in act then cfgs[k].(status := Connecting, error := None) else cfgs[k])
    decreases |ids|
  {
    if ids != [] {
      var init := ids[..|ids| - 1];
      DistinctInit(ids);
      StartConfigsAt(cfgs, init, act, k);
      assert ids == init + [ids[|ids| - 1]];
    }
  }

  /** Running one more handler. */
  lemma ApplyFailuresSnoc(cfgs: map<string, GatewayConfig>, ids: seq<string>, rs: seq<Result<(), ConnectError>>, now: int, i: nat)
    requires |rs| == |ids| && i < |ids|
    ensures ApplyFailures(cfgs, ids[..i + 1], rs[..i + 1], now) == (if rs[i].Err?
      then UpdatedStatus(ApplyFailures(cfgs, ids[..i], rs[..i], now), ids[i], Error, Some(ErrorText(rs[i].error)), now)
      else ApplyFailures(cfgs, ids[..i], rs[..i], now))
  {
    assert ids[..i + 1][..i] == ids[..i] && rs[..i + 1][..i] == rs[..i];
  }

  /** An id no handler names keeps its configuration. */
  lemma {:induction false} ApplyFailuresAbsent(cfgs: map<string, GatewayConfig>, ids: seq<string>, rs: seq<Result<(), ConnectError>>, now: int, k: string)
    requires |rs| == |ids| && k in cfgs && k !in ids
    ensures ApplyFailures(cfgs, ids, rs, now)[k] == cfgs[k]
    decreases |ids|
  {
    if ids != [] {
      assert ids[|ids| - 1] != k;
      ApplyFailuresAbsent(cfgs, ids[..|ids| - 1], rs[..|rs| - 1], now, k);
    }
  }

  /** The handler of the `j`th id records that id's rejection, and nothing else touches it. */
  lemma {:induction false} ApplyFailuresAt(cfgs: map<string, GatewayConfig>, ids: seq<string>, rs: seq<Result<(), ConnectError>>, now: int, j: nat)
    requires |rs| == |ids| && Distinct(ids) && j < |ids| && ids[j] in cfgs
    ensures ApplyFailures(cfgs, ids, rs, now)[ids[j]] == (if rs[j].Err?
      then ApplyStatus(cfgs[ids[j]], Error, Some(ErrorText(rs[j].error)), now) else cfgs[ids[j]])
    decreases |ids|
  {
    var init, rinit := ids[..|ids| - 1], rs[..|rs| - 1];
    DistinctInit(ids);
    if j < |ids| - 1 {
      assert init[j] == ids[j] && rinit[j] == rs[j];
      ApplyFailuresAt(cfgs, init, rinit, now, j);
    } else {
      ApplyFailuresAbsent(cfgs, init, rinit, now, ids[j]);
    }
  }

  /**
   * What `connectAll` leaves in a configuration, given the outcome each
   * `connect` had.
   */
  lemma ConnectAllConfigs(cfgs: map<string, GatewayConfig>, ids: seq<string>, act: set<string>, rs: seq<Result<(), ConnectError>>,
                          accepts: string -> bool, now: int, j: nat)
    requires Distinct(ids) && |rs| == |ids| && j < |ids| && ids[j] in cfgs
    requires rs[j] == ConnectOutcome(cfgs[ids[j]], ids[j] in act, accepts(cfgs[ids[j]].url))
    ensures ApplyFailures(StartConfigs(cfgs, ids, act), ids, rs, now)[ids[j]]
      == ConnectAllConfig(cfgs[ids[j]], ids[j] in act, accepts(cfgs[ids[j]].url), now)
  {
    StartConfigsAt(cfgs, ids, act, ids[j]);
    ApplyFailuresAt(StartConfigs(cfgs, ids, act), ids, rs, now, j);
  }

  /** `act` holds exactly the ids whose client status in `st` is active. */
  ghost predicate ActiveIds(st: map<string, ConnectionStatus>, act: set<string>) {
    forall k :: k in act <==> k in st && (st[k] == Connected || st[k] == Connecting)
  }

  /** The first `i` calls of `connect` resolved as `ConnectOutcome` says. */
  ghost predicate Outcomes(ids: seq<string>, i: nat, cfgs: map<string, GatewayConfig>, act: set<string>,
                           results: seq<Result<(), ConnectError>>, accepts: string -> bool)
  {
    i <= |ids| && |results| == i
    && forall j :: 0 <= j < i ==> ids[j] in cfgs && results[j] == ConnectOutcome(cfgs[ids[j]], ids[j] in act, accepts(cfgs[ids[j]].url))
  }

  /** After the first `i` ids, each has a client, and the client of an active or not yet started id is the one it had. */
  ghost predicate ClientsSoFar(ids: seq<string>, i: nat, og: map<string, Gateway>, act: set<string>, gateways: map<string, Gateway>)
    requires i <= |ids|
  {
    (forall k :: k in gateways <==> k in og || k in ids[..i])
    && (forall k :: k in og && (k in act || k !in ids[..i]) ==> k in gateways && gateways[k] == og[k])
  }

  /**
   * Where the loop of `connectAll` stands after the first `i` ids: `cfgs`,
   * `og` and `st` are the configurations, clients and client statuses it
   * started from, `act` the ids whose client was active then; `configs`,
   * `order`, `gateways` and `statuses` are the registry's now.
   */
  ghost predicate Started(ids: seq<string>, i: nat, cfgs: map<string, GatewayConfig>, og: map<string, Gateway>,
                          st: map<string, ConnectionStatus>, act: set<string>, results: seq<Result<(), ConnectError>>,
                          accepts: string -> bool, configs: map<string, GatewayConfig>, order: seq<string>,
                          gateways: map<string, Gateway>, statuses: map<string, ConnectionStatus>)
  {
    Outcomes(ids, i, cfgs, act, results, accepts) && order == ids && cfgs.Keys == configs.Keys && ActiveIds(st, act)
    && configs == StartConfigs(cfgs, ids[..i], act)
    && statuses == StartStatuses(st, ids[..i], act)
    && ClientsSoFar(ids, i, og, act, gateways)
  }

  /** Before the first `connect` nothing has changed. */
  lemma StartedAtStart(ids: seq<string>, cfgs: map<string, GatewayConfig>, og: map<string, Gateway>,
                       st: map<string, ConnectionStatus>, act: set<string>, accepts: string -> bool,
                       configs: map<string, GatewayConfig>, order: seq<string>,
                       gateways: map<string, Gateway>, statuses: map<string, ConnectionStatus>)
    requires order == ids && cfgs == configs && og == gateways && st == statuses && ActiveIds(st, act)
    ensures Started(ids, 0, cfgs, og, st, act, [], accepts, configs, order, gateways, statuses)
  {
    assert ids[..0] == [];
  }

  /** The `i`th id of a duplicate-free sequence is not among the ones before it. */
  lemma NotYetStarted<T>(ids: seq<T>, i: nat)
    requires Distinct(ids) && i < |ids|
    ensures ids[i] !in ids[..i] && ids[..i + 1] == ids[..i] + [ids[i]]
  {
    assert ids[..i + 1] == ids[..i] + [ids[i]];
    DistinctInit(ids[..i + 1]);
    assert ids[..i + 1][..i] == ids[..i];
  }

  /** The configurations after one more `connect`. */
  lemma StartConfigsStep(cfgs: map<string, GatewayConfig>, ids: seq<string>, i: nat, act: set<string>,
                         c0: map<string, GatewayConfig>, active: bool, c1: map<string, GatewayConfig>)
    requires Distinct(ids) && i < |ids| && c0 == StartConfigs(cfgs, ids[..i], act) && ids[i] in c0
    requires active <==> ids[i] in act
    requires c1 == c0[ids[i] := if active then c0[ids[i]] else c0[ids[i]].(status := Connecting, error := None)]
    ensures c1 == StartConfigs(cfgs, ids[..i + 1], act)
  {
    StartConfigsSnoc(cfgs, ids, act, i);
    assert c0[ids[i] := c0[ids[i]]] == c0;
  }

  /** The outcomes after one more `connect`. */
  lemma OutcomesStep(ids: seq<string>, i: nat, cfgs: map<string, GatewayConfig>, act: set<string>,
                     results: seq<Result<(), ConnectError>>, accepts: string -> bool, r: Result<(), ConnectError>)
    requires Outcomes(ids, i, cfgs, act, results, accepts) && i < |ids| && ids[i] in cfgs
    requires r == ConnectOutcome(cfgs[ids[i]], ids[i] in act, accepts(cfgs[ids[i]].url))
    ensures Outcomes(ids, i + 1, cfgs, act, results + [r], accepts)
  {
    var rs := results + [r];
    forall j | 0 <= j < i + 1
      ensures ids[j] in cfgs && rs[j] == ConnectOutcome(cfgs[ids[j]], ids[j] in act, accepts(cfgs[ids[j]].url))
    {
      if j < i {
        assert rs[j] == results[j];
      }
    }
  }

  /** The clients after one more `connect`: the started id has one, which is its old one when it was active. */
  lemma ClientsStep(ids: seq<string>, i: nat, og: map<string, Gateway>, act: set<string>,
                    g0: map<string, Gateway>, g1: map<string, Gateway>)
    requires Distinct(ids) && i < |ids| && ClientsSoFar(ids, i, og, act, g0)
    requires g1.Keys == g0.Keys + {ids[i]} && (forall k :: k in g0 && k != ids[i] ==> g1[k] == g0[k])
    requires ids[i] in act && ids[i] in og ==> g1[ids[i]] == g0[ids[i]]
    ensures ClientsSoFar(ids, i + 1, og, act, g1)
  {
    NotYetStarted(ids, i);
  }

  /** Once every configured id was started, each has an active client status. */
  lemma StartedActive(cfgs: map<string, GatewayConfig>, ids: seq<string>, st: map<string, ConnectionStatus>,
                      act: set<string>, statuses: map<string, ConnectionStatus>)
    requires ActiveIds(st, act) && statuses == StartStatuses(st, ids, act) && forall k :: k in cfgs ==> k in ids
    ensures forall k :: k in cfgs ==> k in statuses && (statuses[k] == Connected || statuses[k] == Connecting)
  {
    forall k | k in cfgs
      ensures k in statuses && (statuses[k] == Connected || statuses[k] == Connecting)
    {
      StartStatusesAt(st, ids, act, k);
    }
  }

  /** Once every configured id was started, the rejection handlers leave each configuration as `ConnectAllConfig` says. */
  lemma FailuresRecorded(cfgs: map<string, GatewayConfig>, ids: seq<string>, act: set<string>,
                         results: seq<Result<(), ConnectError>>, accepts: string -> bool, now: int)
    requires Distinct(ids) && Outcomes(ids, |ids|, cfgs, act, results, accepts) && forall k :: k in cfgs ==> k in ids
    ensures forall id :: id in cfgs ==> (ApplyFailures(StartConfigs(cfgs, ids, act), ids, results, now)[id]
      == ConnectAllConfig(cfgs[id], id in act, accepts(cfgs[id].url), now))
  {
    forall id | id in cfgs
      ensures ApplyFailures(StartConfigs(cfgs, ids, act), ids, results, now)[id]
        == ConnectAllConfig(cfgs[id], id in act, accepts(cfgs[id].url), now)
    {
      var j :| 0 <= j < |ids| && ids[j] == id;
      ConnectAllConfigs(cfgs, ids, act, results, accepts, now, j);
    }
  }

  /**
   * One turn of the loop of `connectAll`, on values: `connect(ids[i])` with
   * the registry going from `c0`, `g0`, `s0` to `c1`, `g1`, `s1` as
   * `ConnectOne` promises keeps the loop state, one id further on.
   */
  lemma StartStep(ids: seq<string>, i: nat, cfgs: map<string, GatewayConfig>, og: map<string, Gateway>,
                  st: map<string, ConnectionStatus>, act: set<string>, results: seq<Result<(), ConnectError>>,
                  accepts: string -> bool, c0: map<string, GatewayConfig>, g0: map<string, Gateway>,
                  s0: map<string, ConnectionStatus>, active: bool, c1: map<string, GatewayConfig>,
                  g1: map<string, Gateway>, s1: map<string, ConnectionStatus>, r: Result<(), ConnectError>)
    requires Started(ids, i, cfgs, og, st, act, results, accepts, c0, ids, g0, s0) && i < |ids| && Distinct(ids)
    requires ids[i] in c0 && (active <==> ids[i] in s0 && (s0[ids[i]] == Connected || s0[ids[i]] == Connecting))
    requires g1.Keys == g0.Keys + {ids[i]} && (forall k :: k in g0 && k != ids[i] ==> g1[k] == g0[k])
    requires active ==> ids[i] in g0 && g1[ids[i]] == g0[ids[i]]
    requires s1 == if active then s0 else s0[ids[i] := Connecting]
    requires c1 == c0[ids[i] := if active then c0[ids[i]] else c0[ids[i]].(status := Connecting, error := None)]
    requires r == (if accepts(c0[ids[i]].url) || active then Ok(()) else Err(SocketRejected(c0[ids[i]].url)))
    ensures Started(ids, i + 1, cfgs, og, st, act, results + [r], accepts, c1, ids, g1, s1)
  {
    var id := ids[i];
    NotYetStarted(ids, i);
    StartStatusesAt(st, ids[..i], act, id);
    assert active <==> id in act;
    StartConfigsAt(cfgs, ids[..i], act, id);
    StartConfigsStep(cfgs, ids, i, act, c0, active, c1);
    StartStatusesSnoc(st, ids, act, i);
    OutcomesStep(ids, i, cfgs, act, results, accepts, r);
    ClientsStep(ids, i, og, act, g0, g1);
  }

  // ---------------------------------------------------------------- disconnecting every id

  /** The configurations after `disconnect` ran on each id of `ids` in turn. */
  function StopConfigs(cfgs: map<string, GatewayConfig>, ids: seq<string>, now: int): (r: map<string, GatewayConfig>)
    ensures r.Keys == cfgs.Keys
  {
    if ids == [] then cfgs
    else UpdatedStatus(StopConfigs(cfgs, ids[..|ids| - 1], now), ids[|ids| - 1], Disconnected, None, now)
  }

  lemma StopConfigsSnoc(cfgs: map<string, GatewayConfig>, ids: seq<string>, now: int, i: nat)
    requires i < |ids|
    ensures StopConfigs(cfgs, ids[..i + 1], now) == UpdatedStatus(StopConfigs(cfgs, ids[..i], now), ids[i], Disconnected, None, now)
  {
    assert ids[..i + 1][..i] == ids[..i];
  }

  /** Every listed id reads 'disconnected' with no error, however often it is listed; the others are untouched. */
  lemma {:induction false} StopConfigsAt(cfgs: map<string, GatewayConfig>, ids: seq<string>, now: int, k: string)
    requires k in cfgs
    ensures StopConfigs(cfgs, ids, now)[k] == if k in ids then ApplyStatus(cfgs[k], Disconnected, None, now) else cfgs[k]
    decreases |ids|
  {
    if ids != [] {
      StopConfigsAt(cfgs, ids[..|ids| - 1], now, k);
      assert ids == ids[..|ids| - 1] + [ids[|ids| - 1]];
    }
  }

  /** The events `disconnect` emits on each id of `ids` in turn, every id holding a client. */
  function StopEvents(ids: seq<string>): seq<ManagerEvent> {
    seq(|ids|, i requires 0 <= i < |ids| => StatusReported(ids[i], Disconnected))
  }

  lemma StopEventsSnoc(ids: seq<string>, i: nat)
    requires i < |ids|
    ensures StopEvents(ids[..i + 1]) == StopEvents(ids[..i]) + [StatusReported(ids[i], Disconnected)]
  {
  }

  /** The ids listed in `s`. */
  function Members(s: seq<string>): set<string> {
    set k | k in s
  }

  /** A client `disconnect()` stopped: closed on purpose, no socket, no reconnect timer, nothing pending. */
  ghost predicate Halted(g: Gateway)
    reads g
  {
    g.intentionalClose && !g.reconnectPending && g.ws.None? && g.pending == map[] && g.status == Disconnected
  }

  /** No client serves two ids. */
  ghost predicate OneIdPerClient(gs: map<string, Gateway>) {
    forall a, b :: a in gs && b in gs && a != b ==> gs[a] != gs[b]
  }

  /**
   * Where the loop of `disconnectAll` stands after the first `i` ids of the
   * client order `ids`: `og`, `cfgs` and `d0` are the clients, configurations
   * and deliveries it started from; the rest is the registry's now.
   */
  ghost predicate Stopped(ids: seq<string>, i: nat, og: map<string, Gateway>, cfgs: map<string, GatewayConfig>,
                          d0: seq<Delivery>, ls: seq<ListenerId>, now: int, gateways: map<string, Gateway>,
                          order: seq<string>, configs: map<string, GatewayConfig>, delivered: seq<Delivery>)
  {
    i <= |ids| && order == ids[i..]
    && gateways == og - Members(ids[..i])
    && configs == StopConfigs(cfgs, ids[..i], now)
    && delivered == d0 + Broadcast(ls, StopEvents(ids[..i]))
  }

  /** Before the first `disconnect` nothing has changed. */
  lemma StoppedAtStart(ids: seq<string>, og: map<string, Gateway>, cfgs: map<string, GatewayConfig>,
                       d0: seq<Delivery>, ls: seq<ListenerId>, now: int)
    ensures Stopped(ids, 0, og, cfgs, d0, ls, now, og, ids, cfgs, d0)
  {
    assert ids[..0] == [] && ids[0..] == ids && Members(ids[..0]) == {};
    assert og - {} == og && d0 + [] == d0;
  }

  /** One turn of the loop of `disconnectAll`, on values, with the registry going as `disconnect` promises. */
  lemma StopStep(ids: seq<string>, i: nat, og: map<string, Gateway>, cfgs: map<string, GatewayConfig>,
                 d0: seq<Delivery>, ls: seq<ListenerId>, now: int,
                 g0: map<string, Gateway>, o0: seq<string>, c0: map<string, GatewayConfig>, e0: seq<Delivery>,
                 g1: map<string, Gateway>, o1: seq<string>, c1: map<string, GatewayConfig>, e1: seq<Delivery>)
    requires Stopped(ids, i, og, cfgs, d0, ls, now, g0, o0, c0, e0) && i < |ids| && Distinct(ids)
    requires forall k :: k in og <==> k in ids
    requires g1 == g0 - {ids[i]} && o1 == OrderAfterDelete(o0, ids[i]) && c1 == UpdatedStatus(c0, ids[i], Disconnected, None, now)
    requires e1 == e0 + (if ids[i] in g0 then Deliveries(ls, StatusReported(ids[i], Disconnected)) else [])
    ensures ids[i] in g0 && g0[ids[i]] == og[ids[i]]
    ensures Stopped(ids, i + 1, og, cfgs, d0, ls, now, g1, o1, c1, e1)
  {
    var id := ids[i];
    StopClientsStep(ids, i, og, g0, g1);
    assert Distinct(ids[i..]) && ids[i..][0] == id && ids[i..][1..] == ids[i + 1..];
    DeleteFirst(ids[i..]);
    StopConfigsSnoc(cfgs, ids, now, i);
    StopDeliveriesStep(ids, i, d0, ls, e0, e1);
  }

  /** The clients after one more `disconnect`: the id loses its client, which is the one it started with. */
  lemma StopClientsStep(ids: seq<string>, i: nat, og: map<string, Gateway>, g0: map<string, Gateway>, g1: map<string, Gateway>)
    requires i < |ids| && Distinct(ids) && (forall k :: k in og <==> k in ids)
    requires g0 == og - Members(ids[..i]) && g1 == g0 - {ids[i]}
    ensures ids[i] in g0 && g0[ids[i]] == og[ids[i]] && g1 == og - Members(ids[..i + 1])
  {
    NotYetStarted(ids, i);
    assert Members(ids[..i + 1]) == Members(ids[..i]) + {ids[i]};
  }

  /** The deliveries after one more `disconnect` on an id with a client. */
  lemma StopDeliveriesStep(ids: seq<string>, i: nat, d0: seq<Delivery>, ls: seq<ListenerId>, e0: seq<Delivery>, e1: seq<Delivery>)
    requires i < |ids| && e0 == d0 + Broadcast(ls, StopEvents(ids[..i]))
    requires e1 == e0 + Deliveries(ls, StatusReported(ids[i], Disconnected))
    ensures e1 == d0 + Broadcast(ls, StopEvents(ids[..i + 1]))
  {
    var e := StatusReported(ids[i], Disconnected);
    StopEventsSnoc(ids, i);
    BroadcastAppend(ls, StopEvents(ids[..i]), [e]);
    BroadcastOne(ls, e);
    AppendAssoc(d0, Broadcast(ls, StopEvents(ids[..i])), Deliveries(ls, e));
  }

  /** Once every id of the client order was disconnected. */
  lemma StopAllDone(ids: seq<string>, og: map<string, Gateway>, cfgs: map<string, GatewayConfig>, now: int,
                    gateways: map<string, Gateway>, order: seq<string>, configs: map<string, GatewayConfig>)
    requires forall k :: k in og <==> k in ids
    requires gateways == og - Members(ids[..|ids|]) && order == ids[|ids|..] && configs == StopConfigs(cfgs, ids[..|ids|], now)
    ensures gateways == map[] && order == [] && ids[..|ids|] == ids
    ensures forall k :: k in cfgs ==> (configs[k] == if k in og then ApplyStatus(cfgs[k], Disconnected, None, now) else cfgs[k])
  {
    assert ids[..|ids|] == ids;
    forall k | k in cfgs
      ensures configs[k] == if k in og then ApplyStatus(cfgs[k], Disconnected, None, now) else cfgs[k]
    {
      StopConfigsAt(cfgs, ids, now, k);
    }
  }

  // ---------------------------------------------------------------- routing requests

  /** Why a routed request fails before reaching a client. */
  datatype RouteError = NoConnectedGateway | GatewayNotConnected(gatewayId: string)

  /** The message of the `Error` the registry throws. */
  function RouteErrorText(e: RouteError): string {
    match e
    case NoConnectedGateway => "No connected gateway available"
    case GatewayNotConnected(id) => "Gateway " + id + " not connected"
  }

  /** The message for an id that is not connected names that id. */
  lemma RouteErrorNamesId(id: string)
    ensures var t := RouteErrorText(GatewayNotConnected(id));
      |t| == |id| + 22 && t[..8] == "Gateway " && t[8..8 + |id|] == id && t[8 + |id|..] == " not connected"
  {
  }

  /** The server's answer to one `sessions.list` request. */
  datatype Answer = Answer(ok: bool, payload: Json, error: Json)

  /** Why one client's `listSessions()` rejects. */
  datatype ListError =
    | ListRejected(reason: Json)   // the request was refused or the server answered with an error
    | NotIterable(value: Json)     // the result is neither an array nor a string: `for ... of` throws

  /** A session tagged with the id of the gateway that listed it. */
  datatype SessionEntry = SessionEntry(session: Json, gatewayId: string)

  const NotConnectedReason := JStr("not connected")

  /**
   * What one client's `listSessions()` settles to: refused without an open
   * socket, else the server's error, else the sessions `res?.sessions ?? res
   * ?? []` lists.
   */
  function SessionsOf(open: bool, a: Answer): (r: Result<seq<Json>, ListError>)
    ensures !open ==> r == Err(ListRejected(NotConnectedReason))
    ensures open && !a.ok ==> r == Err(ListRejected(a.error))
    ensures open && a.ok && ListResult(a.payload, "sessions").JArr? ==> r == Ok(ListResult(a.payload, "sessions").items)
  {
    if !open then Err(ListRejected(NotConnectedReason))
    else if !a.ok then Err(ListRejected(a.error))
    else
      var v := ListResult(a.payload, "sessions");
      match Iterate(v)
      case None => Err(NotIterable(v))
      case Some(xs) => Ok(xs)
  }

  /** `results.push({ session, gatewayId })` for each session, in order. */
  function Tagged(xs: seq<Json>, id: string): (r: seq<SessionEntry>)
    ensures |r| == |xs| && forall i :: 0 <= i < |xs| ==> r[i] == SessionEntry(xs[i], id)
  {
    seq(|xs|, i requires 0 <= i < |xs| => SessionEntry(xs[i], id))
  }

  /** `if (gatewayId)`: an id was passed and it is not the empty string. */
  predicate Named(gatewayId: Option<string>) {
    gatewayId.Some? && gatewayId.value != ""
  }

  /** `listSessions(id)` for one connected client: its sessions tagged with `id`, or its rejection. */
  function Tag(res: Result<seq<Json>, ListError>, id: string): (r: Result<seq<SessionEntry>, ListError>)
    ensures r.Ok? <==> res.Ok?
    ensures res.Err? ==> r.error == res.error
    ensures res.Ok? ==> (|r.value| == |res.value|
      && forall i :: 0 <= i < |res.value| ==> r.value[i].session == res.value[i] && r.value[i].gatewayId == id)
  {
    match res
    case Ok(xs) => Ok(Tagged(xs, id))
    case Err(e) => Err(e)
  }

  /** What the fan-out keeps from one connected client: its sessions, or nothing when it failed. */
  function Harvest(id: string, open: map<string, bool>, answers: string -> Answer): seq<SessionEntry> {
    match SessionsOf(id in open && open[id], answers(id))
    case Ok(xs) => Tagged(xs, id)
    case Err(_) => []
  }

  /** `listSessions()` with no id: every client of `order` that reports 'connected' is asked in turn. */
  function Gather(order: seq<string>, st: map<string, ConnectionStatus>, open: map<string, bool>,
                  answers: string -> Answer): seq<SessionEntry>
  {
    if order == [] then []
    else
      var id := order[|order| - 1];
      Gather(order[..|order| - 1], st, open, answers) + (if ReportsConnected(st, id) then Harvest(id, open, answers) else [])
  }

  lemma GatherSnoc(order: seq<string>, st: map<string, ConnectionStatus>, open: map<string, bool>,
                   answers: string -> Answer, i: nat)
    requires i < |order|
    ensures Gather(order[..i + 1], st, open, answers)
      == Gather(order[..i], st, open, answers) + (if ReportsConnected(st, order[i]) then Harvest(order[i], open, answers) else [])
  {
    assert order[..i + 1][..i] == order[..i];
  }

  /**
   * An entry is gathered exactly when it is a session a connected client of
   * `order` listed successfully, tagged with that client's id: a failing
   * client contributes nothing and stops nobody else.
   */
  lemma {:induction false} GatherMembers(order: seq<string>, st: map<string, ConnectionStatus>, open: map<string, bool>,
                                         answers: string -> Answer, e: SessionEntry)
    ensures var res := SessionsOf(e.gatewayId in open && open[e.gatewayId], answers(e.gatewayId));
      (e in Gather(order, st, open, answers)) <==>
        (e.gatewayId in order && ReportsConnected(st, e.gatewayId) && res.Ok? && e.session in res.value)
    decreases |order|
  {
    if order != [] {
      var init, id := order[..|order| - 1], order[|order| - 1];
      GatherMembers(init, st, open, answers, e);
      assert order == init + [id];
      var res := SessionsOf(id in open && open[id], answers(id));
      if res.Ok? && e.gatewayId == id && e.session in res.value {
        var k :| 0 <= k < |res.value| && res.value[k] == e.session;
        assert Tagged(res.value, id)[k] == e;
      }
    }
  }

  /**
   * One client's `listSessions()` with the server answering `a`: the request
   * goes out only over an open socket and is settled by the response; the
   * client's socket, status and handler notices do not change.
   */
  method FetchSessions(g: Gateway, a: Answer) returns (r: Result<seq<Json>, ListError>)
    requires g.Valid()
    modifies g
    ensures g.Valid()
    ensures r == SessionsOf(old(g.ws) == Some(SocketOpen), a)
    ensures g.ws == old(g.ws) && g.status == old(g.status) && g.notices == old(g.notices)
    ensures g.reconnectPending == old(g.reconnectPending) && g.intentionalClose == old(g.intentionalClose)
    ensures g.pending == old(g.pending) && g.pendingOrder == old(g.pendingOrder)
    ensures if old(g.ws) == Some(SocketOpen) then
        var id := RequestId(old(g.reqId) + 1);
        g.sent == old(g.sent) + [SentRequest(id, "sessions.list", JObj([]))]
        && g.outcomes == old(g.outcomes) + [if a.ok then Resolved(id, a.payload) else Rejected(id, a.error)]
      else g.sent == old(g.sent) && g.outcomes == old(g.outcomes)
  {
    var issued := g.ListSessions();
    if issued.Sent? {
      Settle(g, old(g.pending), old(g.pendingOrder), issued.id, a);
    }
    r := SessionsOf(issued.Sent?, a);
  }

  /** The response to the request `id` just issued: its waiter is removed and the outcome recorded. */
  method Settle(g: Gateway, ghost p0: map<string, Waiter>, ghost o0: seq<string>, id: string, a: Answer)
    requires g.Valid() && id !in o0 && id !in p0 && g.pending == p0[id := CallerWaiter] && g.pendingOrder == o0 + [id]
    modifies g
    ensures g.Valid()
    ensures g.pending == p0 && g.pendingOrder == o0
    ensures g.outcomes == old(g.outcomes) + [if a.ok then Resolved(id, a.payload) else Rejected(id, a.error)]
    ensures g.ws == old(g.ws) && g.status == old(g.status) && g.notices == old(g.notices)
    ensures g.reconnectPending == old(g.reconnectPending) && g.intentionalClose == old(g.intentionalClose)
    ensures g.sent == old(g.sent) && g.reqId == old(g.reqId)
  {
    assert id in g.pending && g.pending[id] == CallerWaiter;
    g.OnResponse(id, a.ok, a.payload, a.error);
    DeleteLast(o0, id);
    assert p0[id := CallerWaiter] - {id} == p0;
  }

  // ---------------------------------------------------------------- the registry

  /** An element of `getConnected()`: a connected client and its configuration. */
  datatype ConnectedEntry = ConnectedEntry(gateway: Gateway, config: GatewayConfig)

  /** `new Gateway(url, token)` followed by its `connect()`. */
  method OpenClient(cfg: GatewayConfig, accepted: bool) returns (g: Gateway, thrown: bool)
    ensures fresh(g) && FreshClient(g, cfg, accepted) && thrown == !accepted
  {
    g := new Gateway(cfg.url, cfg.token);
    thrown := g.Connect(accepted);
  }

  /** Runs one socket or timer callback on the client. */
  method Deliver(g: Gateway, ev: SocketEvent, accepted: bool)
    requires g.Valid()
    modifies g
    ensures g.Valid() && ClientStep(g, ev, accepted) && old(g.notices) <= g.notices
  {
    match ev
    case Opened => g.OnOpen();
    case Received(f) => g.OnFrame(f);
    case Closed => g.OnClose();
    case ReconnectDue =>
      var thrown := g.FireReconnect(accepted);
  }

  class GatewayManager {
    /** The keys of `gateways`, in insertion order (a JavaScript `Map` iterates that way). */
    var gatewayOrder: seq<string>
    var gateways: map<string, Gateway>
    var configOrder: seq<string>
    var configs: map<string, GatewayConfig>
    /** The subscribed listeners, in subscription order (a `Set`). */
    var listeners: seq<ListenerId>
    var delivered: seq<Delivery>
    var initialized: bool

    /** The client order is duplicate-free and lists exactly the ids with a client. */
    ghost predicate Ordered()
      reads this`gatewayOrder, this`gateways
    {
      Distinct(gatewayOrder) && (forall id :: id in gateways <==> id in gatewayOrder)
      && (forall i :: 0 <= i < |gatewayOrder| ==> gatewayOrder[i] in gateways)
    }

    /** ... and no client serves two ids; a listener is subscribed once. */
    ghost predicate Indexed()
      reads this`gatewayOrder, this`gateways, this`listeners
    {
      Ordered()
      && (forall a, b :: a in gateways && b in gateways && a != b ==> gateways[a] != gateways[b])
      && Distinct(listeners)
    }

    /** The configuration order lists exactly the configured ids, and each configuration is filed under its own id. */
    ghost predicate ConfigsIndexed()
      reads this`configOrder, this`configs
    {
      Distinct(configOrder) && (forall id :: id in configs <==> id in configOrder)
      && (forall i :: 0 <= i < |configOrder| ==> configOrder[i] in configs)
      && (forall id :: id in configs ==> configs[id].id == id)
    }

    ghost predicate ClientsValid()
      reads this`gateways, gateways.Values
    {
      forall g :: g in gateways.Values ==> g.Valid()
    }

    ghost predicate Valid()
      reads this`gatewayOrder, this`gateways, this`configOrder, this`configs, this`listeners, gateways.Values
    {
      Indexed() && ConfigsIndexed() && ClientsValid()
    }

    /** Each id's client status. */
    ghost function Statuses(): map<string, ConnectionStatus>
      reads this`gateways, gateways.Values
    {
      map id | id in gateways :: gateways[id].status
    }

    /** The client `connect`/`disconnect` on `id` may change: the current one, if any. */
    ghost function InstanceOf(id: string): set<Gateway>
      reads this`gateways
    {
      if id in gateways then {gateways[id]} else {}
    }

    /** The id has a client that reports 'connected' or 'connecting'. */
    ghost predicate IsActive(id: string)
      reads this`gateways, gateways.Values
    {
      id in gateways && (gateways[id].status == Connected || gateways[id].status == Connecting)
    }

    constructor ()
      ensures Valid()
      ensures gatewayOrder == [] && gateways == map[] && configOrder == [] && configs == map[]
      ensures listeners == [] && delivered == [] && !initialized
    {
      gatewayOrder := [];
      gateways := map[];
      configOrder := [];
      configs := map[];
      listeners := [];
      delivered := [];
      initialized := false;
    }

    /** `initialize()`: loads the stored configurations once, every one reset to 'disconnected'. */
    method Initialize(stored: seq<GatewayConfig>) returns (r: seq<GatewayConfig>)
      requires Valid()
      modifies this`configs, this`configOrder, this`initialized
      ensures Valid()
      ensures initialized
      ensures old(initialized) ==> r == ConfigList() && configs == old(configs) && configOrder == old(configOrder)
      ensures !old(initialized) ==> (r == Reset(stored)
        && configs == LoadConfigs(old(configs), stored) && configOrder == LoadOrder(old(configOrder), stored))
    {
      if initialized {
        r := ConfigList();
        return;
      }
      Load(stored);
      LoadKeepsOrder(old(configOrder), old(configs), stored);
      initialized := true;
      r := Reset(stored);
    }

    /** The loop of `initialize`: each stored configuration, reset to 'disconnected', is filed under its id. */
    method Load(stored: seq<GatewayConfig>)
      modifies this`configs, this`configOrder
      ensures configs == LoadConfigs(old(configs), stored) && configOrder == LoadOrder(old(configOrder), stored)
    {
      var i := 0;
      while i < |stored|
        invariant 0 <= i <= |stored|
        invariant configs == LoadConfigs(old(configs), stored[..i])
        invariant configOrder == LoadOrder(old(configOrder), stored[..i])
      {
        assert stored[..i + 1][..i] == stored[..i];
        var c := stored[i].(status := Disconnected);
        configs := configs[c.id := c];
        configOrder := OrderAfterSet(configOrder, c.id);
        i := i + 1;
      }
      assert stored[..i] == stored;
    }

    /** `Array.from(configs.values())`. */
    function ConfigList(): (r: seq<GatewayConfig>)
      requires Valid()
      reads this, gateways.Values
      ensures |r| == |configOrder| && forall i :: 0 <= i < |r| ==> r[i] == configs[configOrder[i]]
    {
      var order, cfgs := configOrder, configs;
      seq(|order|, i requires 0 <= i < |order| => cfgs[order[i]])
    }

    /** `addListener`: a `Set` keeps a listener once, at its first place. */
    method AddListener(l: ListenerId)
      requires Valid()
      modifies this`listeners
      ensures Valid()
      ensures listeners == OrderAfterSet(old(listeners), l)
    {
      OrderAfterSetDistinct(listeners, l);
      listeners := OrderAfterSet(listeners, l);
    }

    /** The unsubscribe function `addListener` returns. */
    method RemoveListener(l: ListenerId)
      requires Valid()
      modifies this`listeners
      ensures Valid()
      ensures listeners == OrderAfterDelete(old(listeners), l)
    {
      OrderAfterDeleteDistinct(listeners, l);
      listeners := OrderAfterDelete(listeners, l);
    }

    /** `emit`: a listener that throws does not stop the others. */
    method Emit(e: ManagerEvent)
      modifies this`delivered
      ensures delivered == old(delivered) + Deliveries(listeners, e)
    {
      var ls := listeners;
      var i := 0;
      while i < |ls|
        invariant 0 <= i <= |ls|
        invariant delivered == old(delivered) + seq(i, k requires 0 <= k < i => Delivery(ls[k], e))
      {
        delivered := delivered + [Delivery(ls[i], e)];
        i := i + 1;
      }
      assert delivered == old(delivered) + Deliveries(ls, e);
    }

    method UpdateStatus(id: string, s: GatewayStatus, err: Option<string>, now: int)
      requires ConfigsIndexed()
      modifies this`configs
      ensures ConfigsIndexed()
      ensures configs == UpdatedStatus(old(configs), id, s, err, now)
    {
      if id in configs {
        configs := configs[id := ApplyStatus(configs[id], s, err, now)];
      }
    }

    method RelayOne(id: string, n: Notice, now: int)
      requires ConfigsIndexed()
      modifies this`configs, this`delivered
      ensures ConfigsIndexed()
      ensures configs == RelayStep(old(configs), id, n, now)
      ensures delivered == old(delivered) + Deliveries(listeners, EventOf(id, n))
    {
      match n
      case StatusChanged(s) =>
        UpdateStatus(id, s, None, now);
        Emit(StatusReported(id, s));
      case ChatEvent(p, et) =>
        Emit(ChatEventOf(id, TagChatPayload(p, et, id)));
    }

    /** Runs the handlers `connect` installed on the client of `id` for the notices `ns`. */
    method Relay(id: string, ns: seq<Notice>, now: int)
      requires ConfigsIndexed()
      modifies this`configs, this`delivered
      ensures ConfigsIndexed()
      ensures configs == RelayConfigs(old(configs), id, ns, now)
      ensures delivered == old(delivered) + Broadcast(listeners, RelayEvents(id, ns))
    {
      var i := 0;
      while i < |ns|
        invariant 0 <= i <= |ns|
        invariant ConfigsIndexed()
        invariant configs == RelayConfigs(old(configs), id, ns[..i], now)
        invariant delivered == old(delivered) + Broadcast(listeners, RelayEvents(id, ns[..i]))
      {
        assert ns[..i + 1][..i] == ns[..i];
        assert RelayEvents(id, ns[..i + 1])[..i] == RelayEvents(id, ns[..i]);
        RelayOne(id, ns[i], now);
        AppendAssoc(old(delivered), Broadcast(listeners, RelayEvents(id, ns[..i])), Deliveries(listeners, EventOf(id, ns[i])));
        i := i + 1;
      }
      assert ns[..i] == ns;
    }
    /** Changing one client, and keeping it valid, keeps the registry valid. */
    twostate lemma ClientsStayValid(g: Gateway)
      requires old(ClientsValid()) && gateways == old(gateways)
      requires g.Valid()
      requires forall k :: k in gateways && gateways[k] != g ==> unchanged(gateways[k])
      ensures ClientsValid()
    {
      forall k | k in gateways
        ensures gateways[k].Valid()
      {
        if gateways[k] != g {
          assert old(gateways[k].Valid());
        }
      }
    }

    /** The client of `id` is closed on purpose and its handler relays 'disconnected'. */
    method StopClient(id: string, now: int)
      requires Valid() && id in gateways
      modifies this`configs, this`delivered, gateways[id]
      ensures Valid()
      ensures gateways[id].DisconnectStep()
      ensures configs == UpdatedStatus(old(configs), id, Disconnected, None, now)
      ensures delivered == old(delivered) + Deliveries(listeners, StatusReported(id, Disconnected))
    {
      var g := gateways[id];
      var seen := |g.notices|;
      g.Disconnect();
      ClientsStayValid(g);
      assert g.notices[seen..] == [StatusChanged(Disconnected)];
      Relay(id, g.notices[seen..], now);
      assert Indexed() && ClientsValid();
      BroadcastOne(listeners, StatusReported(id, Disconnected));
    }

    /** `gateways.delete(id)`. */
    method Forget(id: string)
      requires Valid()
      modifies this`gateways, this`gatewayOrder
      ensures Valid()
      ensures gateways == old(gateways) - {id} && gatewayOrder == OrderAfterDelete(old(gatewayOrder), id)
    {
      if id in gateways {
        gateways := gateways - {id};
        OrderAfterDeleteDistinct(gatewayOrder, id);
        gatewayOrder := OrderAfterDelete(gatewayOrder, id);
      } else {
        DeleteAbsent(gatewayOrder, id);
      }
    }

    /** `gateways.set(id, g)` for a client no id uses yet. */
    method Install(id: string, g: Gateway)
      requires Valid() && g.Valid() && g !in gateways.Values
      modifies this`gateways, this`gatewayOrder
      ensures Valid()
      ensures gateways == old(gateways)[id := g] && gatewayOrder == OrderAfterSet(old(gatewayOrder), id)
    {
      OrderAfterSetDistinct(gatewayOrder, id);
      gateways := gateways[id := g];
      gatewayOrder := OrderAfterSet(gatewayOrder, id);
      forall a, b | a in gateways && b in gateways && a != b
        ensures gateways[a] != gateways[b]
      {
        if a != id && b != id {
          assert gateways[a] == old(gateways)[a] && gateways[b] == old(gateways)[b];
        } else if a == id {
          assert gateways[b] in old(gateways).Values;
        } else {
          assert gateways[a] in old(gateways).Values;
        }
      }
    }

    /**
     * A new client for `id` takes the place of the old one, reports
     * 'connecting' and opens its socket. The new client's own steps do not
     * read the registry, so it is built and opened first; its handler's relay
     * of 'connecting' then runs after `updateStatus(id, 'connecting')`, as in
     * the source.
     */
    method Launch(id: string, accepted: bool, now: int) returns (thrown: bool)
      requires Valid() && id in configs
      modifies this`gateways, this`gatewayOrder, this`configs, this`delivered
      ensures Valid()
      ensures id in gateways && fresh(gateways[id]) && gateways == old(gateways)[id := gateways[id]]
      ensures gatewayOrder == OrderAfterSet(old(gatewayOrder), id)
      ensures FreshClient(gateways[id], old(configs[id]), accepted) && thrown == !accepted
      ensures configs == UpdatedStatus(old(configs), id, Connecting, None, now)
      ensures delivered == old(delivered) + Deliveries(listeners, StatusReported(id, Connecting))
    {
      var g;
      g, thrown := OpenClient(configs[id], accepted);
      Install(id, g);
      assert Indexed() && ClientsValid();
      Announce(id, g.notices, now);
      assert Indexed() && ClientsValid();
    }

    /** `updateStatus(id, 'connecting')`, then the new client's handler relays its own 'connecting'. */
    method Announce(id: string, ns: seq<Notice>, now: int)
      requires ConfigsIndexed() && ns == [StatusChanged(Connecting)]
      modifies this`configs, this`delivered
      ensures ConfigsIndexed()
      ensures configs == UpdatedStatus(old(configs), id, Connecting, None, now)
      ensures delivered == old(delivered) + Deliveries(listeners, StatusReported(id, Connecting))
    {
      UpdateStatus(id, Connecting, None, now);
      Relay(id, ns, now);
      RelayConfigsOne(UpdatedStatus(old(configs), id, Connecting, None, now), id, StatusChanged(Connecting), now);
      UpdatedStatusTwice(old(configs), id, Connecting, None, now);
      assert RelayEvents(id, [StatusChanged(Connecting)]) == [StatusReported(id, Connecting)];
      BroadcastOne(listeners, StatusReported(id, Connecting));
    }

    /**
     * `connect(id)`: an unknown id rejects; a client that is connected or
     * connecting is left alone; otherwise the old client, if any, is
     * disconnected (its handlers report 'disconnected'), and a new client takes
     * its place, reports 'connecting' and opens its socket, which the browser
     * may refuse.
     */
    method Connect(id: string, accepted: bool, now: int) returns (r: Result<(), ConnectError>)
      requires Valid()
      modifies this`gateways, this`gatewayOrder, this`configs, this`delivered, InstanceOf(id)
      ensures Valid()
      ensures id !in old(configs) ==> r == Err(NotFound(id)) && unchanged(this) && unchanged(old(InstanceOf(id)))
      ensures id in old(configs) && old(IsActive(id)) ==> r == Ok(()) && unchanged(this) && unchanged(old(InstanceOf(id)))
      ensures id in old(configs) && !old(IsActive(id)) ==> (
        id in gateways && fresh(gateways[id]) && gateways == old(gateways)[id := gateways[id]]
        && gatewayOrder == OrderAfterSet(old(gatewayOrder), id)
        && FreshClient(gateways[id], old(configs[id]), accepted)
        && configs == old(configs)[id := old(configs[id]).(status := Connecting, error := None)]
        && delivered == old(delivered)
          + (if id in old(gateways) then Deliveries(listeners, StatusReported(id, Disconnected)) else [])
          + Deliveries(listeners, StatusReported(id, Connecting))
        && (id in old(gateways) ==> old(gateways[id]).DisconnectStep())
        && r == (if accepted then Ok(()) else Err(SocketRejected(old(configs[id]).url))))
    {
      if id !in configs {
        return Err(NotFound(id));
      }
      if id in gateways && (gateways[id].status == Connected || gateways[id].status == Connecting) {
        return Ok(());
      }
      r := Restart(id, accepted, now);
    }

    /** The part of `connect` after its two early returns. */
    method Restart(id: string, accepted: bool, now: int) returns (r: Result<(), ConnectError>)
      requires Valid() && id in configs && !IsActive(id)
      modifies this`gateways, this`gatewayOrder, this`configs, this`delivered, InstanceOf(id)
      ensures Valid()
      ensures id in gateways && fresh(gateways[id]) && gateways == old(gateways)[id := gateways[id]]
      ensures gatewayOrder == OrderAfterSet(old(gatewayOrder), id)
      ensures FreshClient(gateways[id], old(configs[id]), accepted)
      ensures configs == old(configs)[id := old(configs[id]).(status := Connecting, error := None)]
      ensures delivered == old(delivered)
        + (if id in old(gateways) then Deliveries(listeners, StatusReported(id, Disconnected)) else [])
        + Deliveries(listeners, StatusReported(id, Connecting))
      ensures id in old(gateways) ==> old(gateways[id]).DisconnectStep()
      ensures r == (if accepted then Ok(()) else Err(SocketRejected(old(configs[id]).url)))
    {
      var url := configs[id].url;
      var thrown;
      if id in gateways {
        StopClient(id, now);
        thrown := Launch(id, accepted, now);
      } else {
        thrown := Launch(id, accepted, now);
        assert old(delivered) + [] == old(delivered);
      }
      ConnectingConfigs(old(configs), id, id in old(gateways), now);
      r := if thrown then Err(SocketRejected(url)) else Ok(());
    }

    /** `disconnect(id)`: the client, if any, is closed on purpose and dropped; the status becomes 'disconnected'. */
    method Disconnect(id: string, now: int)
      requires Valid()
      modifies this`gateways, this`gatewayOrder, this`configs, this`delivered, InstanceOf(id)
      ensures Valid()
      ensures gateways == old(gateways) - {id} && gatewayOrder == OrderAfterDelete(old(gatewayOrder), id)
      ensures configs == UpdatedStatus(old(configs), id, Disconnected, None, now)
      ensures delivered == old(delivered) + (if id in old(gateways) then Deliveries(listeners, StatusReported(id, Disconnected)) else [])
      ensures id in old(gateways) ==> old(gateways[id]).DisconnectStep()
    {
      if id in gateways {
        StopClient(id, now);
        UpdatedStatusTwice(old(configs), id, Disconnected, None, now);
      }
      Forget(id);
      UpdateStatus(id, Disconnected, None, now);
    }

    /**
     * A socket or timer callback of the current client of `id` ran; the
     * handlers `connect` installed relay what the client reported.
     */
    method OnClientEvent(id: string, ev: SocketEvent, accepted: bool, now: int)
      requires Valid() && id in gateways
      modifies this`configs, this`delivered, gateways[id]
      ensures Valid()
      ensures ClientStep(gateways[id], ev, accepted)
      ensures old(gateways[id].notices) <= gateways[id].notices
      ensures configs == RelayConfigs(old(configs), id, gateways[id].notices[|old(gateways[id].notices)|..], now)
      ensures delivered == old(delivered) + Broadcast(listeners, RelayEvents(id, gateways[id].notices[|old(gateways[id].notices)|..]))
    {
      var g := gateways[id];
      var seen := |g.notices|;
      Deliver(g, ev, accepted);
      ClientsStayValid(g);
      Relay(id, g.notices[seen..], now);
    }

    /** `configs.get(id)`. */
    function GetConfig(id: string): (r: Option<GatewayConfig>)
      reads this`configs
      ensures r.Some? <==> id in configs
      ensures r.Some? ==> r.value == configs[id]
    {
      if id in configs then Some(configs[id]) else None
    }

    /** `gateways.get(id)`. */
    function GetGateway(id: string): (r: Option<Gateway>)
      reads this`gateways
      ensures r.Some? <==> id in gateways
      ensures r.Some? ==> r.value == gateways[id]
    {
      if id in gateways then Some(gateways[id]) else None
    }

    /**
     * `getConnected()`: in client-map order, every client that reports
     * 'connected' and has a configuration, paired with that configuration.
     */
    method GetConnected() returns (r: seq<ConnectedEntry>)
      requires Ordered()
      ensures var ids := ConnectedIn(gatewayOrder, Statuses(), configs.Keys);
        |r| == |ids| && forall i :: 0 <= i < |ids| ==> (ids[i] in gateways && ids[i] in configs
          && r[i] == ConnectedEntry(gateways[ids[i]], configs[ids[i]]))
    {
      var order := gatewayOrder;
      ghost var st, cf := Statuses(), configs.Keys;
      r := [];
      ghost var ids: seq<string> := [];
      var i := 0;
      while i < |order|
        invariant 0 <= i <= |order|
        invariant ids == ConnectedIn(order[..i], st, cf)
        invariant |r| == |ids| && forall k :: 0 <= k < |ids| ==> (ids[k] in gateways && ids[k] in configs
          && r[k] == ConnectedEntry(gateways[ids[k]], configs[ids[k]]))
      {
        var id := order[i];
        var g := gateways[id];
        assert st[id] == g.status;
        ConnectedInSnoc(order, st, cf, i);
        if g.status == Connected {
          var c := GetConfig(id);
          if c.Some? {
            r := r + [ConnectedEntry(g, c.value)];
            ids := ids + [id];
          }
        }
        i := i + 1;
      }
      assert order[..i] == order;
    }

    /** `getFirstConnected()`: the first element `getConnected()` would list, if any. */
    method GetFirstConnected() returns (r: Option<ConnectedEntry>)
      requires Ordered()
      ensures var ids := ConnectedIn(gatewayOrder, Statuses(), configs.Keys);
        (r.None? <==> ids == [])
        && (r.Some? ==> ids[0] in gateways && ids[0] in configs && r.value == ConnectedEntry(gateways[ids[0]], configs[ids[0]]))
    {
      var order := gatewayOrder;
      ghost var st, cf := Statuses(), configs.Keys;
      var i := 0;
      while i < |order|
        invariant 0 <= i <= |order|
        invariant ConnectedIn(order[..i], st, cf) == []
      {
        var id := order[i];
        var g := gateways[id];
        assert st[id] == g.status;
        if g.status == Connected {
          var c := GetConfig(id);
          if c.Some? {
            FirstConnectedAt(order, st, cf, i);
            return Some(ConnectedEntry(g, c.value));
          }
        }
        ConnectedInSnoc(order, st, cf, i);
        i := i + 1;
      }
      assert order[..i] == order;
      return None;
    }

    /** `configs.set(config.id, config)` and the `gatewayAdded` event. */
    method Register(config: GatewayConfig)
      requires Valid()
      modifies this`configs, this`configOrder, this`delivered
      ensures Valid()
      ensures configs == old(configs)[config.id := config] && configOrder == OrderAfterSet(old(configOrder), config.id)
      ensures delivered == old(delivered) + Deliveries(listeners, GatewayAdded(config.id, config))
    {
      OrderAfterSetDistinct(configOrder, config.id);
      configs := configs[config.id := config];
      configOrder := OrderAfterSet(configOrder, config.id);
      Emit(GatewayAdded(config.id, config));
    }

    /**
     * `addGateway(config, autoConnect)`: the configuration is filed under its
     * id and announced; with `autoConnect` the id is then connected.
     */
    method AddGateway(config: GatewayConfig, autoConnect: bool, accepted: bool, now: int) returns (r: Result<(), ConnectError>)
      requires Valid()
      modifies this`gateways, this`gatewayOrder, this`configs, this`configOrder, this`delivered, InstanceOf(config.id)
      ensures Valid()
      ensures configOrder == OrderAfterSet(old(configOrder), config.id)
      ensures old(delivered) + Deliveries(listeners, GatewayAdded(config.id, config)) <= delivered
      ensures !autoConnect ==> (r == Ok(()) && configs == old(configs)[config.id := config]
        && gateways == old(gateways) && gatewayOrder == old(gatewayOrder)
        && delivered == old(delivered) + Deliveries(listeners, GatewayAdded(config.id, config)))
      ensures autoConnect ==> (IsActive(config.id) && config.id in configs
        && configs[config.id] == (if old(IsActive(config.id)) then config else config.(status := Connecting, error := None))
        && r == (if accepted || old(IsActive(config.id)) then Ok(()) else Err(SocketRejected(config.url))))
    {
      Register(config);
      if autoConnect {
        r := ConnectOne(config.id, accepted, now);
      } else {
        r := Ok(());
      }
    }

    /**
     * `connect(id)` on a configured id, summarised: afterwards the id has a
     * connected or connecting client, which is new unless the old one was
     * already active; no other client or configuration changes.
     */
    method ConnectOne(id: string, accepted: bool, now: int) returns (r: Result<(), ConnectError>)
      requires Valid() && id in configs
      modifies this`gateways, this`gatewayOrder, this`configs, this`delivered, InstanceOf(id)
      ensures Valid()
      ensures old(delivered) <= delivered
      ensures IsActive(id) && gateways.Keys == old(gateways).Keys + {id}
      ensures forall k :: k in old(gateways) && k != id ==> gateways[k] == old(gateways[k])
      ensures Statuses() == if old(IsActive(id)) then old(Statuses()) else old(Statuses())[id := Connecting]
      ensures if old(IsActive(id)) then gateways[id] == old(gateways[id]) else fresh(gateways[id])
      ensures configs == old(configs)[id := if old(IsActive(id)) then old(configs[id]) else old(configs[id]).(status := Connecting, error := None)]
      ensures r == (if accepted || old(IsActive(id)) then Ok(()) else Err(SocketRejected(old(configs[id]).url)))
    {
      if id in gateways && (gateways[id].status == Connected || gateways[id].status == Connecting) {
        r := ConnectActive(id, accepted, now);
      } else {
        r := ConnectFresh(id, accepted, now);
      }
    }

    /** `connect(id)` on an id whose client is active returns at once. */
    method ConnectActive(id: string, accepted: bool, now: int) returns (r: Result<(), ConnectError>)
      requires Valid() && id in configs && IsActive(id)
      modifies this`gateways, this`gatewayOrder, this`configs, this`delivered, InstanceOf(id)
      ensures Valid() && r == Ok(()) && IsActive(id)
      ensures gateways == old(gateways) && configs == old(configs) && delivered == old(delivered)
      ensures Statuses() == old(Statuses())
    {
      r := Connect(id, accepted, now);
      StatusesUpdate(id);
      assert old(Statuses())[id := gateways[id].status] == old(Statuses());
    }

    /** `connect(id)` on a configured id whose client, if any, is not active, with what it leaves in the statuses. */
    method ConnectFresh(id: string, accepted: bool, now: int) returns (r: Result<(), ConnectError>)
      requires Valid() && id in configs && !IsActive(id)
      modifies this`gateways, this`gatewayOrder, this`configs, this`delivered, InstanceOf(id)
      ensures Valid()
      ensures old(delivered) <= delivered
      ensures id in gateways && fresh(gateways[id]) && IsActive(id)
      ensures gateways.Keys == old(gateways).Keys + {id}
      ensures forall k :: k in old(gateways) && k != id ==> gateways[k] == old(gateways[k])
      ensures Statuses() == old(Statuses())[id := Connecting]
      ensures configs == old(configs)[id := old(configs[id]).(status := Connecting, error := None)]
      ensures r == (if accepted then Ok(()) else Err(SocketRejected(old(configs[id]).url)))
    {
      ghost var before := gateways;
      r := ConnectInactive(id, accepted, now);
      forall k | k in before && k != id
        ensures gateways[k] == before[k] && gateways[k].status == old(before[k].status)
      {
        assert id !in before || before[k] != before[id];
      }
      StatusesUpdate(id);
    }

    /**
     * `connect(id)` on a configured id whose client, if any, is not active:
     * neither early return applies, and a new client takes the old one's place.
     */
    method ConnectInactive(id: string, accepted: bool, now: int) returns (r: Result<(), ConnectError>)
      requires Valid() && id in configs && !IsActive(id)
      modifies this`gateways, this`gatewayOrder, this`configs, this`delivered, InstanceOf(id)
      ensures Valid()
      ensures old(delivered) <= delivered
      ensures id in gateways && fresh(gateways[id]) && gateways[id].status == Connecting
      ensures gateways.Keys == old(gateways).Keys + {id}
      ensures forall k :: k in old(gateways) && k != id ==> gateways[k] == old(gateways[k])
      ensures configs == old(configs)[id := old(configs[id]).(status := Connecting, error := None)]
      ensures r == (if accepted then Ok(()) else Err(SocketRejected(old(configs[id]).url)))
    {
      r := Restart(id, accepted, now);
    }

    /** The statuses after a step that changed, or replaced, the client of `id` only. */
    twostate lemma StatusesUpdate(id: string)
      requires id in gateways && gateways.Keys == old(gateways).Keys + {id}
      requires forall k :: k in old(gateways) && k != id ==> gateways[k] == old(gateways[k]) && gateways[k].status == old(gateways[k].status)
      ensures Statuses() == old(Statuses())[id := gateways[id].status]
    {
    }

    /** The id has a client that reports 'connected'. */
    ghost predicate IsConnected(id: string)
      reads this`gateways, gateways.Values
    {
      id in gateways && gateways[id].status == Connected
    }

    /**
     * `updateGateway(id, updates)`: an unknown id changes nothing. Otherwise
     * the update is assigned onto the configuration; when the client was
     * connected and the update brings a new url or token, the client is
     * disconnected first and a new one is connected with the new credentials,
     * which moves the id to the end of the client order.
     */
    method UpdateGateway(id: string, u: ConfigUpdate, accepted: bool, now: int) returns (r: Result<(), ConnectError>)
      requires Valid()
      modifies this`gateways, this`gatewayOrder, this`configs, this`delivered, InstanceOf(id)
      ensures Valid()
      ensures id !in old(configs) ==> (r == Ok(()) && configs == old(configs)
        && gateways == old(gateways) && gatewayOrder == old(gatewayOrder) && delivered == old(delivered))
      ensures id in old(configs) && !(old(IsConnected(id)) && CredentialsChanged(old(configs[id]), u)) ==> (
        r == Ok(()) && configs == old(configs)[id := Assign(old(configs[id]), u)]
        && gateways == old(gateways) && gatewayOrder == old(gatewayOrder) && delivered == old(delivered)
        && unchanged(old(InstanceOf(id))))
      ensures id in old(configs) && old(IsConnected(id)) && CredentialsChanged(old(configs[id]), u) ==> (
        id in gateways && fresh(gateways[id]) && gateways == old(gateways)[id := gateways[id]]
        && gatewayOrder == OrderAfterDelete(old(gatewayOrder), id) + [id]
        && FreshClient(gateways[id], Assign(old(configs[id]), u), accepted)
        && configs == old(configs)[id := Assign(old(configs[id]), u).(status := Connecting, error := None)]
        && delivered == old(delivered) + Deliveries(listeners, StatusReported(id, Disconnected))
          + Deliveries(listeners, StatusReported(id, Connecting))
        && r == (if accepted then Ok(()) else Err(SocketRejected(Assign(old(configs[id]), u).url))))
    {
      var c := GetConfig(id);
      if c.None? {
        return Ok(());
      }
      var wasConnected := id in gateways && gateways[id].status == Connected;
      if wasConnected && CredentialsChanged(c.value, u) {
        r := Reconnect(id, u, accepted, now);
      } else {
        r := Reassign(id, u, wasConnected, accepted, now);
      }
    }

    /** `Object.assign(config, updates)` on the stored configuration. */
    method AssignConfig(id: string, u: ConfigUpdate)
      requires ConfigsIndexed() && id in configs
      modifies this`configs
      ensures ConfigsIndexed()
      ensures configs == old(configs)[id := Assign(old(configs[id]), u)]
    {
      configs := configs[id := Assign(configs[id], u)];
    }

    /**
     * `updateGateway` on a connected client whose url or token changes:
     * `disconnect(id)`, the assignment, then `connect(id)`.
     */
    method Reconnect(id: string, u: ConfigUpdate, accepted: bool, now: int) returns (r: Result<(), ConnectError>)
      requires Valid() && id in configs && IsConnected(id) && CredentialsChanged(configs[id], u)
      modifies this`gateways, this`gatewayOrder, this`configs, this`delivered, InstanceOf(id)
      ensures Valid()
      ensures id in gateways && fresh(gateways[id]) && gateways == old(gateways)[id := gateways[id]]
      ensures gatewayOrder == OrderAfterDelete(old(gatewayOrder), id) + [id]
      ensures FreshClient(gateways[id], Assign(old(configs[id]), u), accepted)
      ensures configs == old(configs)[id := Assign(old(configs[id]), u).(status := Connecting, error := None)]
      ensures delivered == old(delivered) + Deliveries(listeners, StatusReported(id, Disconnected))
        + Deliveries(listeners, StatusReported(id, Connecting))
      ensures r == (if accepted then Ok(()) else Err(SocketRejected(Assign(old(configs[id]), u).url)))
    {
      ghost var c := configs[id];
      StopAndAssign(id, u, now);
      AssignStatus(c, u, Disconnected, None);
      r := ConnectStopped(id, accepted, now);
      RemoveThenSet(old(gateways), id, gateways[id]);
      FreshClientCredentials(gateways[id], Assign(c, u).(status := Disconnected, error := None), Assign(c, u), accepted);
      DeleteThenSetMovesLast(old(gatewayOrder), id);
      SetTwice(old(configs), id, Assign(c.(status := Disconnected, error := None), u), Assign(c, u).(status := Connecting, error := None));
    }

    /** The `disconnect(id)` and the assignment of `Reconnect`. */
    method StopAndAssign(id: string, u: ConfigUpdate, now: int)
      requires Valid() && id in configs && id in gateways
      modifies this`gateways, this`gatewayOrder, this`configs, this`delivered, InstanceOf(id)
      ensures Valid()
      ensures gateways == old(gateways) - {id} && gatewayOrder == OrderAfterDelete(old(gatewayOrder), id)
      ensures configs == old(configs)[id := Assign(old(configs[id]).(status := Disconnected, error := None), u)]
      ensures delivered == old(delivered) + Deliveries(listeners, StatusReported(id, Disconnected))
    {
      ghost var c := configs[id];
      Disconnect(id, now);
      assert ApplyStatus(c, Disconnected, None, now) == c.(status := Disconnected, error := None);
      AssignConfig(id, u);
      SetTwice(old(configs), id, c.(status := Disconnected, error := None), Assign(c.(status := Disconnected, error := None), u));
    }

    /** The `connect(id)` of `Reconnect`, on an id the registry holds no client for. */
    method ConnectStopped(id: string, accepted: bool, now: int) returns (r: Result<(), ConnectError>)
      requires Valid() && id in configs && id !in gateways
      modifies this`gateways, this`gatewayOrder, this`configs, this`delivered
      ensures Valid()
      ensures id in gateways && fresh(gateways[id]) && gateways == old(gateways)[id := gateways[id]]
      ensures gatewayOrder == OrderAfterSet(old(gatewayOrder), id)
      ensures FreshClient(gateways[id], old(configs[id]), accepted)
      ensures configs == old(configs)[id := old(configs[id]).(status := Connecting, error := None)]
      ensures delivered == old(delivered) + Deliveries(listeners, StatusReported(id, Connecting))
      ensures r == (if accepted then Ok(()) else Err(SocketRejected(old(configs[id]).url)))
    {
      r := Connect(id, accepted, now);
      assert old(delivered) + [] == old(delivered);
    }

    /**
     * `updateGateway` in every other case: the assignment, and a `connect(id)`
     * that returns at once because the client is still connected.
     */
    method Reassign(id: string, u: ConfigUpdate, wasConnected: bool, accepted: bool, now: int) returns (r: Result<(), ConnectError>)
      requires Valid() && id in configs && wasConnected == IsConnected(id)
      requires !(IsConnected(id) && CredentialsChanged(configs[id], u))
      modifies this`gateways, this`gatewayOrder, this`configs, this`delivered, InstanceOf(id)
      ensures Valid()
      ensures r == Ok(()) && configs == old(configs)[id := Assign(old(configs[id]), u)]
      ensures gateways == old(gateways) && gatewayOrder == old(gatewayOrder) && delivered == old(delivered)
      ensures unchanged(old(InstanceOf(id)))
    {
      AssignConfig(id, u);
      if wasConnected && (Truthy(u.url) || Truthy(u.token)) {
        r := Connect(id, accepted, now);
      } else {
        r := Ok(());
      }
    }

    /**
     * `connectAll()`: `connect` runs for every configured id in configuration
     * order, synchronously, before any rejection handler; then each rejected
     * id's handler records 'error' with the message in its configuration. No
     * event announces the 'error'; the new client keeps reporting 'connecting'.
     */
    method ConnectAll(accepts: string -> bool, now: int)
      requires Valid()
      modifies this`gateways, this`gatewayOrder, this`configs, this`delivered, gateways.Values
      ensures Valid()
      ensures configs.Keys == old(configs).Keys
      ensures forall id :: id in old(configs) ==> (IsActive(id)
        && configs[id] == ConnectAllConfig(old(configs[id]), old(IsActive(id)), accepts(old(configs[id]).url), now))
      ensures forall id :: id in gateways <==> id in old(gateways) || id in old(configs)
      ensures forall id :: id in old(gateways) && (old(IsActive(id)) || id !in old(configs)) ==> gateways[id] == old(gateways[id])
      ensures old(delivered) <= delivered
    {
      var ids := configOrder;
      ghost var cfgs, og, st := configs, gateways, Statuses();
      ghost var act := set k | k in st && (st[k] == Connected || st[k] == Connecting);
      assert forall k :: IsActive(k) <==> k in act;
      var results := StartAll(ids, cfgs, og, st, act, accepts, now);
      ghost var fin := Statuses();
      StartedActive(cfgs, ids, st, act, fin);
      FailuresRecorded(cfgs, ids, act, results, accepts, now);
      RecordFailures(ids, results, now);
      forall id | id in cfgs
        ensures IsActive(id) && configs[id] == ConnectAllConfig(cfgs[id], id in act, accepts(cfgs[id].url), now)
      {
        assert id in fin && fin[id] == gateways[id].status;
      }
    }

    /** The registry is well formed and the loop of `connectAll` stands after the first `i` ids. */
    ghost predicate Starting(ids: seq<string>, i: nat, cfgs: map<string, GatewayConfig>, og: map<string, Gateway>,
                             st: map<string, ConnectionStatus>, act: set<string>, results: seq<Result<(), ConnectError>>,
                             accepts: string -> bool)
      reads this`gatewayOrder, this`gateways, this`configOrder, this`configs, this`listeners, gateways.Values
    {
      Valid() && Started(ids, i, cfgs, og, st, act, results, accepts, configs, configOrder, gateways, Statuses())
    }

    /** The loop of `connectAll`: `connect` on every id of `ids`, in order. */
    method StartAll(ids: seq<string>, ghost cfgs: map<string, GatewayConfig>, ghost og: map<string, Gateway>,
                    ghost st: map<string, ConnectionStatus>, ghost act: set<string>, accepts: string -> bool, now: int)
      returns (results: seq<Result<(), ConnectError>>)
      requires Valid() && ids == configOrder && cfgs == configs && og == gateways && st == Statuses() && ActiveIds(st, act)
      modifies this`gateways, this`gatewayOrder, this`configs, this`delivered, gateways.Values
      ensures Valid() && Started(ids, |ids|, cfgs, og, st, act, results, accepts, configs, configOrder, gateways, Statuses())
      ensures ids[..|ids|] == ids && old(delivered) <= delivered
    {
      results := [];
      var i := 0;
      StartedAtStart(ids, cfgs, og, st, act, accepts, configs, configOrder, gateways, Statuses());
      while i < |ids|
        invariant Starting(ids, i, cfgs, og, st, act, results, accepts)
        invariant old(delivered) <= delivered
      {
        results := StartNext(ids, i, cfgs, og, st, act, results, accepts, now);
        i := i + 1;
      }
      assert ids[..i] == ids;
    }

    /**
     * `disconnectAll()`: `disconnect` runs for every id with a client, in
     * client order, each one to its end before the next starts; no id keeps a
     * client, and every configuration that had one reads 'disconnected'.
     */
    method DisconnectAll(now: int)
      requires Valid()
      modifies this`gateways, this`gatewayOrder, this`configs, this`delivered, gateways.Values
      ensures Valid() && gateways == map[] && gatewayOrder == []
      ensures configs.Keys == old(configs).Keys
      ensures forall k :: k in old(configs) ==> (configs[k]
        == if k in old(gateways) then ApplyStatus(old(configs[k]), Disconnected, None, now) else old(configs[k]))
      ensures delivered == old(delivered) + Broadcast(listeners, StopEvents(old(gatewayOrder)))
      ensures forall g :: g in old(gateways).Values ==> Halted(g)
    {
      var ids := gatewayOrder;
      ghost var og, cfgs := gateways, configs;
      StopAll(ids, og, cfgs, now);
      StopAllDone(ids, og, cfgs, now, gateways, gatewayOrder, configs);
      forall g | g in og.Values
        ensures Halted(g)
      {
        var id :| id in og && og[id] == g;
        var j :| 0 <= j < |ids| && ids[j] == id;
      }
    }

    /** The loop of `disconnectAll`: `disconnect` on every id of the client order `ids`, in order. */
    method StopAll(ids: seq<string>, ghost og: map<string, Gateway>, ghost cfgs: map<string, GatewayConfig>, now: int)
      requires Valid() && ids == gatewayOrder && og == gateways && cfgs == configs
      modifies this`gateways, this`gatewayOrder, this`configs, this`delivered, gateways.Values
      ensures Stopping(ids, |ids|, og, cfgs, old(delivered), now)
    {
      ghost var d0 := delivered;
      StoppedAtStart(ids, og, cfgs, d0, listeners, now);
      assert Distinct(ids) && (forall k :: k in og <==> k in ids) && OneIdPerClient(og);
      var i := 0;
      while i < |ids|
        invariant i <= |ids| && Stopping(ids, i, og, cfgs, d0, now)
      {
        StopNext(ids, i, og, cfgs, d0, now);
        i := i + 1;
      }
    }

    /**
     * The registry after `disconnect` ran on the first `i` ids of the client
     * order `ids`, starting from the clients `og`, the configurations `cfgs`
     * and the deliveries `d0`: each of those clients is halted.
     */
    ghost predicate Stopping(ids: seq<string>, i: nat, og: map<string, Gateway>, cfgs: map<string, GatewayConfig>, d0: seq<Delivery>, now: int)
      reads this, gateways.Values, og.Values
    {
      Valid() && Stopped(ids, i, og, cfgs, d0, listeners, now, gateways, gatewayOrder, configs, delivered)
      && forall j :: 0 <= j < i ==> ids[j] in og && Halted(og[ids[j]])
    }

    /** One turn of the loop of `disconnectAll`: `disconnect(ids[i])`. */
    method StopNext(ids: seq<string>, i: nat, ghost og: map<string, Gateway>, ghost cfgs: map<string, GatewayConfig>,
                    ghost d0: seq<Delivery>, now: int)
      requires Stopping(ids, i, og, cfgs, d0, now)
      requires i < |ids| && Distinct(ids) && (forall k :: k in og <==> k in ids) && OneIdPerClient(og)
      modifies this`gateways, this`gatewayOrder, this`configs, this`delivered, og.Values
      ensures Stopping(ids, i + 1, og, cfgs, d0, now)
    {
      ghost var g0, o0, c0, e0 := gateways, gatewayOrder, configs, delivered;
      Disconnect(ids[i], now);
      StopStep(ids, i, og, cfgs, d0, listeners, now, g0, o0, c0, e0, gateways, gatewayOrder, configs, delivered);
      forall j | 0 <= j < i + 1
        ensures ids[j] in og && Halted(og[ids[j]])
      {
        if j < i {
          assert og[ids[j]] != og[ids[i]];
        }
      }
    }

    /** One turn of the loop of `connectAll`: `connect(ids[i])`. */
    method StartNext(ids: seq<string>, i: nat, ghost cfgs: map<string, GatewayConfig>, ghost og: map<string, Gateway>,
                     ghost st: map<string, ConnectionStatus>, ghost act: set<string>, results: seq<Result<(), ConnectError>>,
                     accepts: string -> bool, now: int) returns (rs: seq<Result<(), ConnectError>>)
      requires Starting(ids, i, cfgs, og, st, act, results, accepts) && i < |ids|
      modifies this`gateways, this`gatewayOrder, this`configs, this`delivered, og.Values
      ensures Starting(ids, i + 1, cfgs, og, st, act, rs, accepts)
      ensures old(delivered) <= delivered
    {
      var id := ids[i];
      ghost var c0, g0, s0, active := configs, gateways, Statuses(), IsActive(id);
      var r := ConnectOne(id, accepts(configs[id].url), now);
      StartStep(ids, i, cfgs, og, st, act, results, accepts, c0, g0, s0, active, configs, gateways, Statuses(), r);
      rs := results + [r];
    }

    /** The rejection handlers of `connectAll`, in the order the promises were made. */
    method RecordFailures(ids: seq<string>, results: seq<Result<(), ConnectError>>, now: int)
      requires Valid() && |results| == |ids|
      modifies this`configs
      ensures Valid() && gateways == old(gateways) && Statuses() == old(Statuses())
      ensures configs == ApplyFailures(old(configs), ids, results, now)
    {
      var i := 0;
      while i < |ids|
        invariant 0 <= i <= |ids|
        invariant ConfigsIndexed()
        invariant configs == ApplyFailures(old(configs), ids[..i], results[..i], now)
      {
        ApplyFailuresSnoc(old(configs), ids, results, now, i);
        if results[i].Err? {
          UpdateStatus(ids[i], Error, Some(ErrorText(results[i].error)), now);
        }
        i := i + 1;
      }
      assert ids[..i] == ids && results[..i] == results;
    }

    /** `configs.delete(id)` and the `gatewayRemoved` event. */
    method Unregister(id: string)
      requires Valid()
      modifies this`configs, this`configOrder, this`delivered
      ensures Valid() && gateways == old(gateways) && gatewayOrder == old(gatewayOrder)
      ensures configs == old(configs) - {id} && configOrder == OrderAfterDelete(old(configOrder), id)
      ensures delivered == old(delivered) + Deliveries(listeners, GatewayRemoved(id))
    {
      DropConfig(id);
      Emit(GatewayRemoved(id));
    }

    /** `configs.delete(id)`. */
    method DropConfig(id: string)
      requires Valid()
      modifies this`configs, this`configOrder
      ensures Valid()
      ensures configs == old(configs) - {id} && configOrder == OrderAfterDelete(old(configOrder), id)
    {
      if id in configs {
        OrderAfterDeleteDistinct(configOrder, id);
      } else {
        DeleteAbsent(configOrder, id);
      }
      configs := configs - {id};
      configOrder := OrderAfterDelete(configOrder, id);
    }

    /**
     * `removeGateway(id)`: disconnects the id, forgets its configuration and
     * announces the removal; nothing else is touched.
     */
    method RemoveGateway(id: string, now: int)
      requires Valid()
      modifies this`gateways, this`gatewayOrder, this`configs, this`configOrder, this`delivered, InstanceOf(id)
      ensures Valid()
      ensures gateways == old(gateways) - {id} && gatewayOrder == OrderAfterDelete(old(gatewayOrder), id)
      ensures configs == old(configs) - {id} && configOrder == OrderAfterDelete(old(configOrder), id)
      ensures delivered == old(delivered)
        + (if id in old(gateways) then Deliveries(listeners, StatusReported(id, Disconnected)) else [])
        + Deliveries(listeners, GatewayRemoved(id))
    {
      Disconnect(id, now);
      Unregister(id);
      assert UpdatedStatus(old(configs), id, Disconnected, None, now) - {id} == old(configs) - {id};
    }

    // ---------------------------------------------------------------- routing requests

    /** Whether each client's socket is open, so that a request can go out on it. */
    ghost function Opens(): map<string, bool>
      reads this`gateways, gateways.Values
    {
      map id | id in gateways :: gateways[id].ws == Some(SocketOpen)
    }

    /**
     * The client `chatSend` routes to: the one filed under a non-empty
     * `gatewayId`, else the first connected client with a configuration.
     */
    ghost function ChatTarget(gatewayId: Option<string>): Option<string>
      reads this`gateways, this`gatewayOrder, this`configs, gateways.Values
    {
      if Named(gatewayId) then (if gatewayId.value in gateways then gatewayId else None)
      else
        var ids := ConnectedIn(gatewayOrder, Statuses(), configs.Keys);
        if ids == [] then None else Some(ids[0])
    }

    /**
     * Without a named id the message goes to a connected, configured client
     * that comes before every other such client, and fails only when there
     * is none.
     */
    lemma FallbackTarget(gatewayId: Option<string>)
      requires !Named(gatewayId)
      ensures var t := ChatTarget(gatewayId);
        (t.None? <==> forall id :: id in gatewayOrder ==> !(ReportsConnected(Statuses(), id) && id in configs))
        && (t.Some? ==> t.value in gatewayOrder && IsConnected(t.value) && t.value in configs)
    {
      var ids := ConnectedIn(gatewayOrder, Statuses(), configs.Keys);
      if ids == [] {
        forall id | id in gatewayOrder
          ensures !(ReportsConnected(Statuses(), id) && id in configs)
        {
          ConnectedInMembers(gatewayOrder, Statuses(), configs.Keys, id);
        }
      } else {
        ConnectedInMembers(gatewayOrder, Statuses(), configs.Keys, ids[0]);
        ConnectedInMembers(gatewayOrder, Statuses(), configs.Keys, gatewayOrder[0]);
      }
    }

    /**
     * The request went out on the client of `id` exactly as the client's
     * own method does it, and no other client changed.
     */
    twostate predicate Forwarded(id: string, r: Issued, m: string, params: Json)
      reads this`gateways, gateways.Values
    {
      id in gateways && gateways == old(gateways)
      && var g := gateways[id];
      (if old(g.ws) == Some(SocketOpen) then g.IssuedRequest(r, m, params, CallerWaiter) else g.Refused(r))
      && g.ws == old(g.ws) && g.status == old(g.status) && g.notices == old(g.notices)
      && g.reconnectPending == old(g.reconnectPending) && g.intentionalClose == old(g.intentionalClose)
      && forall h :: h in gateways.Values && h != g ==> unchanged(h)
    }

    /** The client `chatSend` picks, if any. */
    method Route(gatewayId: Option<string>) returns (r: Option<Gateway>)
      requires Ordered()
      ensures var t := ChatTarget(gatewayId);
        (r.Some? <==> t.Some?) && (t.Some? ==> t.value in gateways && r.value == gateways[t.value])
    {
      if gatewayId.Some? && gatewayId.value != "" {
        r := GetGateway(gatewayId.value);
      } else {
        var first := GetFirstConnected();
        r := if first.Some? then Some(first.value.gateway) else None;
      }
    }

    /**
     * `chatSend(...)`: the message goes to the routed client when it reports
     * 'connected'; otherwise the call fails and nothing changes.
     */
    method ChatSend(sessionKey: string, text: string, attachments: seq<OutgoingAttachment>, gatewayId: Option<string>,
                    now: nat, nonce: string) returns (r: Result<Issued, RouteError>)
      requires Valid()
      modifies gateways.Values
      ensures Valid()
      ensures var t := old(ChatTarget(gatewayId));
        if t.Some? && old(IsConnected(t.value)) then
          r.Ok? && Forwarded(t.value, r.value, "chat.send", ChatSendParams(sessionKey, text, attachments, IdempotencyKey(now, nonce)))
        else r == Err(NoConnectedGateway) && unchanged(gateways.Values)
    {
      var target := Route(gatewayId);
      r := Err(NoConnectedGateway);
      if target.Some? && target.value.status == Connected {
        var issued := SendVia(target.value, ChatTarget(gatewayId).value, sessionKey, text, attachments, now, nonce);
        r := Ok(issued);
      }
    }

    /** `gateway.chatSend(...)` on the routed client, filed under `id`. */
    method SendVia(g: Gateway, ghost id: string, sessionKey: string, text: string, attachments: seq<OutgoingAttachment>,
                   now: nat, nonce: string) returns (r: Issued)
      requires Valid() && id in gateways && gateways[id] == g
      modifies g
      ensures Valid()
      ensures Forwarded(id, r, "chat.send", ChatSendParams(sessionKey, text, attachments, IdempotencyKey(now, nonce)))
    {
      r := g.ChatSend(sessionKey, text, attachments, now, nonce);
      ClientsStayValid(g);
    }

    /** `chatHistory(sessionKey, id)`: asks the client of `id` when it reports 'connected', else fails. */
    method ChatHistory(sessionKey: string, gatewayId: string) returns (r: Result<Issued, RouteError>)
      requires Valid()
      modifies gateways.Values
      ensures Valid()
      ensures if old(IsConnected(gatewayId)) then
          r.Ok? && Forwarded(gatewayId, r.value, "chat.history", SessionKeyParams(sessionKey))
        else r == Err(GatewayNotConnected(gatewayId)) && unchanged(gateways.Values)
    {
      var g := GetGateway(gatewayId);
      if g.None? || g.value.status != Connected {
        return Err(GatewayNotConnected(gatewayId));
      }
      var issued := g.value.ChatHistory(sessionKey);
      ClientsStayValid(g.value);
      r := Ok(issued);
    }

    /** `chatAbort(sessionKey, id, runId)`: asks the client of `id` only when it reports 'connected'. */
    method ChatAbort(sessionKey: string, gatewayId: string, runId: Option<string>) returns (r: Option<Issued>)
      requires Valid()
      modifies gateways.Values
      ensures Valid()
      ensures if old(IsConnected(gatewayId)) then
          r.Some? && Forwarded(gatewayId, r.value, "chat.abort", ChatAbortParams(sessionKey, runId))
        else r.None? && unchanged(gateways.Values)
    {
      var g := GetGateway(gatewayId);
      r := None;
      if g.Some? && g.value.status == Connected {
        var issued := g.value.ChatAbort(sessionKey, runId);
        ClientsStayValid(g.value);
        r := Some(issued);
      }
    }

    /** `deleteSession(sessionKey, id)`: asks the client of `id` only when it reports 'connected'. */
    method DeleteSession(sessionKey: string, gatewayId: string) returns (r: Option<Issued>)
      requires Valid()
      modifies gateways.Values
      ensures Valid()
      ensures if old(IsConnected(gatewayId)) then
          r.Some? && Forwarded(gatewayId, r.value, "sessions.delete", SessionKeyParams(sessionKey))
        else r.None? && unchanged(gateways.Values)
    {
      var g := GetGateway(gatewayId);
      r := None;
      if g.Some? && g.value.status == Connected {
        var issued := g.value.DeleteSession(sessionKey);
        ClientsStayValid(g.value);
        r := Some(issued);
      }
    }

    /** `renameSession(sessionKey, name, id)`: asks the client of `id` only when it reports 'connected'. */
    method RenameSession(sessionKey: string, name: string, gatewayId: string) returns (r: Option<Issued>)
      requires Valid()
      modifies gateways.Values
      ensures Valid()
      ensures if old(IsConnected(gatewayId)) then
          r.Some? && Forwarded(gatewayId, r.value, "session.update", RenameParams(sessionKey, name))
        else r.None? && unchanged(gateways.Values)
    {
      var g := GetGateway(gatewayId);
      r := None;
      if g.Some? && g.value.status == Connected {
        var issued := g.value.RenameSession(sessionKey, name);
        ClientsStayValid(g.value);
        r := Some(issued);
      }
    }

    /** A client that kept its socket and status leaves every client's socket and status as they were. */
    twostate lemma ClientKept(g: Gateway)
      requires gateways == old(gateways)
      requires g.ws == old(g.ws) && g.status == old(g.status)
      requires forall k :: k in gateways && gateways[k] != g ==> unchanged(gateways[k])
      ensures Statuses() == old(Statuses()) && Opens() == old(Opens())
    {
      forall k | k in gateways
        ensures gateways[k].status == old(gateways[k].status) && gateways[k].ws == old(gateways[k].ws)
      {
      }
    }

    /**
     * `listSessions(gatewayId)`: a named id lists that client's sessions
     * when it reports 'connected' and passes its failure on; without one,
     * every connected client is asked in map order and a failing one is
     * skipped. Each server answers with `answers(id)`; no status changes.
     */
    method ListSessions(gatewayId: Option<string>, answers: string -> Answer) returns (r: Result<seq<SessionEntry>, ListError>)
      requires Valid()
      modifies gateways.Values
      ensures Valid() && Statuses() == old(Statuses()) && Opens() == old(Opens())
      ensures Named(gatewayId) ==>
        r == if old(IsConnected(gatewayId.value)) then
          Tag(SessionsOf(old(Opens())[gatewayId.value], answers(gatewayId.value)), gatewayId.value)
        else Ok([])
      ensures !Named(gatewayId) ==> r == Ok(Gather(old(gatewayOrder), old(Statuses()), old(Opens()), answers))
    {
      if gatewayId.Some? && gatewayId.value != "" {
        var g := GetGateway(gatewayId.value);
        r := Ok([]);
        if g.Some? && g.value.status == Connected {
          r := ListOne(gatewayId.value, answers(gatewayId.value));
        }
      } else {
        var results := ListAll(answers);
        r := Ok(results);
      }
    }

    /** One connected client's sessions, tagged with its id. */
    method ListOne(id: string, a: Answer) returns (r: Result<seq<SessionEntry>, ListError>)
      requires Valid() && id in gateways
      modifies gateways[id]
      ensures Valid() && Statuses() == old(Statuses()) && Opens() == old(Opens())
      ensures r == Tag(SessionsOf(old(Opens())[id], a), id)
    {
      var g := gateways[id];
      var res := FetchSessions(g, a);
      ClientsStayValid(g);
      ClientKept(g);
      r := Tag(res, id);
    }

    /** The fan-out over every client, in map order. */
    method ListAll(answers: string -> Answer) returns (results: seq<SessionEntry>)
      requires Valid()
      modifies gateways.Values
      ensures Valid() && Statuses() == old(Statuses()) && Opens() == old(Opens())
      ensures results == Gather(old(gatewayOrder), old(Statuses()), old(Opens()), answers)
    {
      var order := gatewayOrder;
      ghost var og, st, op := gateways, Statuses(), Opens();
      results := [];
      var i := 0;
      while i < |order|
        invariant i <= |order| && Listing(order, i, og, st, op, answers, results)
      {
        results := ListNext(order, i, og, st, op, answers, results);
        i := i + 1;
      }
      assert order[..i] == order;
    }

    ghost predicate Listing(order: seq<string>, i: nat, og: map<string, Gateway>, st: map<string, ConnectionStatus>,
                            op: map<string, bool>, answers: string -> Answer, results: seq<SessionEntry>)
      reads this`gatewayOrder, this`gateways, this`configOrder, this`configs, this`listeners, gateways.Values
    {
      Valid() && gateways == og && gatewayOrder == order && Statuses() == st && Opens() == op
      && i <= |order| && results == Gather(order[..i], st, op, answers)
    }

    /** Asks the next client of the fan-out if it reports 'connected'. */
    method ListNext(order: seq<string>, i: nat, ghost og: map<string, Gateway>, ghost st: map<string, ConnectionStatus>,
                    ghost op: map<string, bool>, answers: string -> Answer, results: seq<SessionEntry>)
      returns (results': seq<SessionEntry>)
      requires i < |order| && Listing(order, i, og, st, op, answers, results)
      modifies og.Values
      ensures Listing(order, i + 1, og, st, op, answers, results')
    {
      var id := order[i];
      var g := gateways[id];
      GatherSnoc(order, st, op, answers, i);
      results' := results;
      if g.status == Connected {
        var res := FetchSessions(g, answers(id));
        ClientsStayValid(g);
        ClientKept(g);
        results' := results + (if res.Ok? then Tagged(res.value, id) else []);
      }
    }
  }
}
