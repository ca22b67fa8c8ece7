/**
 * `testConnection(url, token)` of the registry (src/store/GatewayManager.ts):
 * a throw-away client is connected and watched. The first 'connected' report
 * passes the test and closes the client; the first 'disconnected' report
 * fails it; the timeout fails it and closes the client, unless one of the
 * others came first. The returned promise settles once; when `connect()`
 * throws inside the promise executor, the promise rejects instead.
 *
 * The timeout is the event `Fire`; socket and timer callbacks of the client
 * are `Step`. `timeoutMs` only says when the timeout fires and is not
 * modelled.
 */
module ConnectionProbe {
  import opened Wrappers
  import opened Types
  import opened GatewayClient
  import opened GatewayRegistry

  /** The value `testConnection` resolves with. */
  datatype TestResult = TestResult(success: bool, error: Option<string>)

  const Passed := TestResult(true, None)
  const Failed := TestResult(false, Some("Connection failed"))
  const TimedOut := TestResult(false, Some("Connection timeout"))

  /** How the promise settled: resolved with a result, or rejected because `connect()` threw. */
  datatype Settlement = ResolvedWith(result: TestResult) | Threw

  /** A status report the handler acts on: 'connected' or 'disconnected'. */
  predicate Decisive(n: Notice) {
    n.StatusChanged? && n.status != Connecting
  }

  /**
   * The handler's verdict on the reports it hears: the first 'connected'
   * passes, the first 'disconnected' fails; 'connecting' and chat events
   * decide nothing.
   */
  function Verdict(ns: seq<Notice>): (r: Option<TestResult>)
    ensures r.Some? ==> r.value == Passed || r.value == Failed
  {
    if ns == [] then None
    else if Decisive(ns[0]) then Some(if ns[0].status == Connected then Passed else Failed)
    else Verdict(ns[1..])
  }

  /** Once reached, a verdict is not changed by anything heard later. */
  lemma {:induction false} VerdictSettles(a: seq<Notice>, b: seq<Notice>)
    requires Verdict(a).Some?
    ensures Verdict(a + b) == Verdict(a)
  {
    assert a != [];
    if !Decisive(a[0]) {
      assert (a + b)[1..] == a[1..] + b;
      VerdictSettles(a[1..], b);
    }
  }

  /** Without a verdict, hearing one more report decides by that report alone. */
  lemma {:induction false} VerdictSnoc(a: seq<Notice>, n: Notice)
    requires Verdict(a).None?
    ensures Verdict(a + [n]) == Verdict([n])
  {
    if a != [] {
      assert (a + [n])[1..] == a[1..] + [n];
      VerdictSnoc(a[1..], n);
    }
  }

  /** There is no verdict exactly when nothing decisive was heard. */
  lemma {:induction false} VerdictNone(ns: seq<Notice>)
    ensures Verdict(ns).None? <==> forall i :: 0 <= i < |ns| ==> !Decisive(ns[i])
  {
    if ns != [] {
      VerdictNone(ns[1..]);
      assert forall i :: 1 <= i < |ns| ==> ns[i] == ns[1..][i - 1];
    }
  }

  /** The test passes exactly when the first decisive report is 'connected'. */
  lemma {:induction false} VerdictPassed(ns: seq<Notice>)
    ensures Verdict(ns) == Some(Passed) <==>
      exists i :: 0 <= i < |ns| && ns[i] == StatusChanged(Connected) && forall j :: 0 <= j < i ==> !Decisive(ns[j])
  {
    if ns != [] {
      VerdictPassed(ns[1..]);
      if Verdict(ns) == Some(Passed) && !Decisive(ns[0]) {
        var i :| 0 <= i < |ns[1..]| && ns[1..][i] == StatusChanged(Connected) && forall j :: 0 <= j < i ==> !Decisive(ns[1..][j]);
        assert forall j :: 0 <= j < i + 1 ==> !Decisive(ns[j]) by {
          forall j | 0 <= j < i + 1 ensures !Decisive(ns[j]) {
            if j > 0 { assert ns[j] == ns[1..][j - 1]; }
          }
        }
      }
      if exists i :: 0 <= i < |ns| && ns[i] == StatusChanged(Connected) && forall j :: 0 <= j < i ==> !Decisive(ns[j]) {
        var i :| 0 <= i < |ns| && ns[i] == StatusChanged(Connected) && forall j :: 0 <= j < i ==> !Decisive(ns[j]);
        if i > 0 {
          assert ns[1..][i - 1] == StatusChanged(Connected);
          assert forall j :: 0 <= j < i - 1 ==> !Decisive(ns[1..][j]) by {
            forall j | 0 <= j < i - 1 ensures !Decisive(ns[1..][j]) {
              assert ns[1..][j] == ns[j + 1];
            }
          }
        }
      }
    }
  }

  /** The client was closed on purpose: no socket, and no reconnect will run. */
  predicate Released(g: Gateway)
    reads g
  {
    g.intentionalClose && !g.reconnectPending && g.ws.None?
  }

  /** A released client stays released whatever its socket and timer callbacks do. */
  twostate lemma StaysReleased(g: Gateway, ev: SocketEvent, accepted: bool)
    requires old(Released(g)) && old(g.Valid()) && ClientStep(g, ev, accepted)
    ensures Released(g)
  {
    if ev.Received? && ev.frame.Res? {
      assert ev.frame.id !in old(g.pending);
    }
  }

  class ConnectionTest {
    const client: Gateway
    /** The `resolved` flag of the handler and the timeout callback. */
    var resolved: bool
    /** The timeout is scheduled and not cleared. */
    var timerPending: bool
    /** How the promise settled, once it has. */
    var outcome: Option<Settlement>
    /** How many of the client's reports the handler has run on. */
    var seen: nat
    /** The reports the handler heard before `resolved` was set. */
    ghost var heard: seq<Notice>

    /**
     * The handler has run on the first `seen` reports; the timeout is
     * pending exactly while nothing decided; a resolved value is the verdict
     * on what was heard, or the timeout's when nothing decisive was; a passed
     * or timed out test leaves the client released.
     */
    ghost predicate Watching()
      reads this, client
    {
      client.Valid() && seen <= |client.notices| && heard <= client.notices
      && timerPending == !resolved
      && (!resolved ==> heard == client.notices[..seen] && Verdict(heard).None?)
      && (outcome.Some? && outcome.value.ResolvedWith? ==>
            resolved && outcome.value.result == (if Verdict(heard).Some? then Verdict(heard).value else TimedOut))
      && (outcome == Some(ResolvedWith(Passed)) || outcome == Some(ResolvedWith(TimedOut)) ==> Released(client))
    }

    /** ... the handler has run on every report, and a decided test has settled. */
    ghost predicate Valid()
      reads this, client
    {
      Watching() && seen == |client.notices| && (outcome.None? ==> !resolved)
    }

    /**
     * The promise executor: a new client, the timeout, the handler, and
     * `connect()`; `accepted` says whether the WebSocket constructor accepts
     * the url.
     */
    constructor (url: string, token: string, accepted: bool)
      ensures Valid() && fresh(client)
      ensures client.url == url && client.token == token
      ensures !resolved && timerPending
      ensures outcome == (if accepted then None else Some(Threw))
      ensures client.status == Connecting && client.ws == (if accepted then Some(SocketConnecting) else None)
    {
      client := new Gateway(url, token);
      resolved := false;
      timerPending := true;
      outcome := None;
      seen := 0;
      heard := [];
      new;
      var thrown := client.Connect(accepted);
      // the handler ignores the 'connecting' report
      seen := |client.notices|;
      heard := client.notices;
      if thrown {
        outcome := Some(Threw);
      }
    }

    /** `resolve(value)`: only the first settlement of the promise counts. */
    method Settle(s: Settlement)
      modifies this`outcome
      ensures outcome == if old(outcome).None? then Some(s) else old(outcome)
    {
      if outcome.None? {
        outcome := Some(s);
      }
    }

    /** Runs the handler on every report of the client it has not run on yet. */
    method Hear()
      requires Watching()
      modifies this, client
      ensures Watching() && seen == |client.notices|
      ensures old(outcome.None? ==> !resolved) ==> (outcome.None? ==> !resolved)
      ensures old(resolved) ==> resolved && heard == old(heard) && outcome == old(outcome) && unchanged(client)
      ensures old(outcome).Some? ==> outcome == old(outcome)
    {
      while seen < |client.notices|
        invariant Watching()
        invariant old(outcome.None? ==> !resolved) ==> (outcome.None? ==> !resolved)
        invariant old(resolved) ==> resolved && heard == old(heard) && outcome == old(outcome) && unchanged(client)
        invariant old(outcome).Some? ==> outcome == old(outcome)
        decreases (if resolved then 0 else 1), |client.notices| - seen
      {
        HearNext();
      }
    }

    /** The handler on the next report: while unresolved, 'connected' passes and closes the client, 'disconnected' fails. */
    method HearNext()
      requires Watching() && seen < |client.notices|
      modifies this, client
      ensures Watching()
      ensures old(outcome.None? ==> !resolved) ==> (outcome.None? ==> !resolved)
      ensures old(outcome).Some? ==> outcome == old(outcome)
      ensures old(resolved) ==> resolved && heard == old(heard) && outcome == old(outcome) && unchanged(client) && seen == old(seen) + 1
      ensures !old(resolved) && !resolved ==> unchanged(client) && seen == old(seen) + 1
    {
      var n := client.notices[seen];
      seen := seen + 1;
      if !resolved {
        VerdictSnoc(heard, n);
        assert client.notices[..seen] == heard + [n];
        heard := heard + [n];
        if n.StatusChanged? && n.status == Connected {
          resolved := true;
          timerPending := false;
          client.Disconnect();
          Settle(ResolvedWith(Passed));
        } else if n.StatusChanged? && n.status == Disconnected {
          resolved := true;
          timerPending := false;
          Settle(ResolvedWith(Failed));
        }
      }
    }

    /** A socket or timer callback of the test client, and the handler's reaction to it. */
    method Step(ev: SocketEvent, accepted: bool)
      requires Valid()
      modifies this, client
      ensures Valid()
      ensures old(resolved) ==> resolved && heard == old(heard)
      ensures old(outcome).Some? ==> outcome == old(outcome)
    {
      Deliver(client, ev, accepted);
      Hear();
    }

    /** The timeout: unless the handler decided first, the test fails with 'Connection timeout' and the client is closed. */
    method Fire()
      requires Valid()
      modifies this, client
      ensures Valid() && resolved && !timerPending
      ensures old(outcome).Some? ==> outcome == old(outcome)
      ensures old(resolved) ==> heard == old(heard) && unchanged(client)
      ensures !old(resolved) ==> (Released(client) && heard == old(heard) && Verdict(heard).None?
        && outcome == (if old(outcome).None? then Some(ResolvedWith(TimedOut)) else old(outcome)))
    {
      if timerPending {
        timerPending := false;
        if !resolved {
          resolved := true;
          client.Disconnect();
          Hear();
          Settle(ResolvedWith(TimedOut));
        }
      }
    }
  }
}
