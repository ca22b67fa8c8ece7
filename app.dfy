/**
 * The chat tabs of the application shell (src/App.tsx): each update the shell
 * hands to its React setter, as a function from the tab list and the active
 * tab's id to the new pair, plus the preview line, the search filter and the
 * keyboard shortcuts that move between tabs. A fresh id and `Date.now()` are
 * parameters.
 */
module AppShell {
  import opened Wrappers
  import opened Seqs
  import opened Text
  import opened Types

  /** The tab list and the id the shell treats as active. */
  datatype Tabs = Tabs(sessions: seq<Session>, activeId: string)

  /** The active id names one of the tabs, and there is always a tab. */
  predicate WellFormed(t: Tabs) {
    t.sessions != [] && exists i :: 0 <= i < |t.sessions| && t.sessions[i].id == t.activeId
  }

  function Blank(id: string, name: string, now: int): Session {
    Session(id, name, [], true, false, now, None)
  }

  /** The tab the shell starts with. */
  function Initial(id: string, now: int): (r: Tabs)
    ensures WellFormed(r)
    ensures |r.sessions| == 1 && r.activeId == r.sessions[0].id == id
    ensures r.sessions[0].name == "General" && r.sessions[0].messages == [] && r.sessions[0].createdAt == now
  {
    var r := Tabs([Blank(id, "General", now)], id);
    assert r.sessions[0].id == id;
    r
  }

  /** `createSession()`: a blank tab named after the new tab count goes last and becomes active. */
  function CreateSession(t: Tabs, freshId: string, now: int): (r: Tabs)
    ensures |r.sessions| == |t.sessions| + 1 && r.sessions[..|t.sessions|] == t.sessions
    ensures var s := r.sessions[|t.sessions|];
      s.id == freshId && s.name == "Transmission " + DecimalString(|t.sessions| + 1) && s.messages == [] && s.isActive
      && !s.isTyping && s.createdAt == now
    ensures r.activeId == freshId && WellFormed(r)
  {
    var r := Tabs(t.sessions + [Blank(freshId, "Transmission " + DecimalString(|t.sessions| + 1), now)], freshId);
    assert r.sessions[|t.sessions|].id == freshId;
    r
  }

  /** The tabs whose id is not `id`, in order. */
  function Kept(sessions: seq<Session>, id: string): seq<Session> {
    Filter((s: Session) => s.id != id, sessions)
  }

  /**
   * `closeSession(id)`: every tab with that id goes. When none is left a
   * fresh 'General' tab replaces them and becomes active; otherwise the last
   * remaining tab becomes active if the closed one was.
   */
  function CloseSession(t: Tabs, id: string, freshId: string, now: int): (r: Tabs)
    ensures r.sessions != []
    ensures var kept := Kept(t.sessions, id);
      (kept == [] ==> r == Tabs([Blank(freshId, "General", now)], freshId))
      && (kept != [] ==>
            r.sessions == kept && r.activeId == (if t.activeId == id then kept[|kept| - 1].id else t.activeId))
  {
    var kept := Kept(t.sessions, id);
    if kept == [] then Tabs([Blank(freshId, "General", now)], freshId)
    else Tabs(kept, if t.activeId == id then kept[|kept| - 1].id else t.activeId)
  }

  /** Closing keeps the shell well formed, and no tab with the closed id survives unless it is the replacement. */
  lemma CloseWellFormed(t: Tabs, id: string, freshId: string, now: int)
    requires WellFormed(t)
    ensures var r := CloseSession(t, id, freshId, now);
      WellFormed(r) && forall i :: 0 <= i < |r.sessions| ==> r.sessions[i].id != id || r.sessions == [Blank(freshId, "General", now)]
  {
    var kept := Kept(t.sessions, id);
    var r := CloseSession(t, id, freshId, now);
    if kept == [] {
      assert r.sessions[0].id == r.activeId;
    } else if t.activeId == id {
      assert r.sessions[|kept| - 1].id == r.activeId;
    } else {
      var i :| 0 <= i < |t.sessions| && t.sessions[i].id == t.activeId;
      assert t.sessions[i] in kept;
      var j :| 0 <= j < |kept| && kept[j] == t.sessions[i];
      assert r.sessions[j].id == r.activeId;
    }
  }

  /** Closing the only tab leaves exactly one fresh 'General' tab, which is active. */
  lemma CloseLast(t: Tabs, freshId: string, now: int)
    requires |t.sessions| == 1
    ensures var r := CloseSession(t, t.sessions[0].id, freshId, now);
      |r.sessions| == 1 && r.sessions[0].name == "General" && r.sessions[0].messages == [] && r.activeId == freshId
  {
    var id := t.sessions[0].id;
    assert t.sessions[1..] == [];
    assert Kept(t.sessions, id) == [];
  }

  /** Closing a tab that was just created brings back the tab list from before. */
  lemma CloseUndoesCreate(t: Tabs, freshId: string, now: int, nextId: string)
    requires t.sessions != [] && forall i :: 0 <= i < |t.sessions| ==> t.sessions[i].id != freshId
    ensures var r := CloseSession(CreateSession(t, freshId, now), freshId, nextId, now);
      r.sessions == t.sessions && r.activeId == t.sessions[|t.sessions| - 1].id
  {
    var c := CreateSession(t, freshId, now);
    var p := (s: Session) => s.id != freshId;
    FilterAppend(p, t.sessions, [c.sessions[|t.sessions|]]);
    assert c.sessions == t.sessions + [c.sessions[|t.sessions|]];
    FilterAll(p, t.sessions);
  }

  /** The tab with the given id updated by `f`, every other tab as it was (`prev.map(...)`). */
  function Update(sessions: seq<Session>, id: string, f: Session -> Session): (r: seq<Session>)
    ensures |r| == |sessions|
    ensures forall i :: 0 <= i < |sessions| ==> r[i] == if sessions[i].id == id then f(sessions[i]) else sessions[i]
  {
    seq(|sessions|, i requires 0 <= i < |sessions| => if sessions[i].id == id then f(sessions[i]) else sessions[i])
  }

  /** `renameSession(id, name)`. */
  function RenameSession(sessions: seq<Session>, id: string, name: string): (r: seq<Session>)
    ensures |r| == |sessions|
    ensures forall i :: 0 <= i < |sessions| ==> r[i].id == sessions[i].id && r[i].messages == sessions[i].messages
    ensures forall i :: 0 <= i < |sessions| ==> r[i].name == if sessions[i].id == id then name else sessions[i].name
    ensures forall i :: 0 <= i < |sessions| ==> r[i].(name := sessions[i].name) == sessions[i]
  {
    Update(sessions, id, (s: Session) => s.(name := name))
  }

  /** Renaming twice is renaming once to the second name. */
  lemma RenameTwice(sessions: seq<Session>, id: string, a: string, b: string)
    ensures RenameSession(RenameSession(sessions, id, a), id, b) == RenameSession(sessions, id, b)
  {
    var x, y := RenameSession(RenameSession(sessions, id, a), id, b), RenameSession(sessions, id, b);
    forall i | 0 <= i < |sessions|
      ensures x[i] == y[i]
    {
      assert RenameSession(sessions, id, a)[i].id == sessions[i].id;
    }
  }

  /** `addMessage(sessionId, message)`: the message goes at the end of that tab's messages. */
  function AddMessage(sessions: seq<Session>, id: string, m: Message): (r: seq<Session>)
    ensures |r| == |sessions|
    ensures forall i :: 0 <= i < |sessions| ==> r[i].id == sessions[i].id
    ensures forall i :: 0 <= i < |sessions| ==>
      r[i].messages == sessions[i].messages + (if sessions[i].id == id then [m] else [])
    ensures forall i :: 0 <= i < |sessions| ==> r[i].(messages := sessions[i].messages) == sessions[i]
  {
    Update(sessions, id, (s: Session) => s.(messages := s.messages + [m]))
  }

  /** The number of messages over all tabs. */
  function MessageCount(sessions: seq<Session>): nat {
    if sessions == [] then 0 else |sessions[0].messages| + MessageCount(sessions[1..])
  }

  /** Adding a message adds one message per tab filed under that id, and no other. */
  lemma {:induction false} AddMessageCount(sessions: seq<Session>, id: string, m: Message)
    ensures MessageCount(AddMessage(sessions, id, m))
      == MessageCount(sessions) + Count((s: Session) => s.id == id, sessions)
  {
    if sessions != [] {
      AddMessageCount(sessions[1..], id, m);
      assert AddMessage(sessions, id, m)[1..] == AddMessage(sessions[1..], id, m);
    }
  }

  /** `setTyping(sessionId, typing)`. */
  function SetTyping(sessions: seq<Session>, id: string, typing: bool): (r: seq<Session>)
    ensures |r| == |sessions|
    ensures forall i :: 0 <= i < |sessions| ==> r[i].id == sessions[i].id
    ensures forall i :: 0 <= i < |sessions| ==> r[i].isTyping == if sessions[i].id == id then typing else sessions[i].isTyping
    ensures forall i :: 0 <= i < |sessions| ==> r[i].(isTyping := sessions[i].isTyping) == sessions[i]
  {
    Update(sessions, id, (s: Session) => s.(isTyping := typing))
  }

  /** `getPreview(session)`: the last message cut to 60 characters, with '...' only when cut. */
  function Preview(s: Session): (r: string)
    ensures s.messages == [] ==> r == "No messages yet"
    ensures s.messages != [] ==>
      var c := s.messages[|s.messages| - 1].content;
      (|c| <= 60 ==> r == c) && (|c| > 60 ==> |r| == 63 && r[..60] == c[..60] && r[60..] == "...")
  {
    if s.messages == [] then "No messages yet"
    else
      var c := s.messages[|s.messages| - 1].content;
      Take(c, 60) + (if |c| > 60 then "..." else "")
  }

  /** A tab matches a query when its name or one of its messages contains it, ignoring case. */
  predicate Matches(query: string, s: Session) {
    Contains(Lower(s.name), Lower(query))
    || exists i :: 0 <= i < |s.messages| && Contains(Lower(s.messages[i].content), Lower(query))
  }

  /** The search test as a value, for filtering. */
  function Matcher(query: string): Session -> bool {
    (s: Session) => Matches(query, s)
  }

  /**
   * `filteredSessions`: every tab for an empty query, else the matching tabs
   * in order: a subsequence of the tabs holding each matching tab once per
   * occurrence.
   */
  function Search(sessions: seq<Session>, query: string): (r: seq<Session>)
    ensures query == "" ==> r == sessions
    ensures forall s :: s in r <==> s in sessions && (query == "" || Matches(query, s))
    ensures SubseqOf(r, sessions)
    ensures query != "" ==> |r| == Count(Matcher(query), sessions)
    ensures |r| <= |sessions|
  {
    if query == "" then SubseqSelf(sessions); sessions
    else FilterSubseq(Matcher(query), sessions); Filter(Matcher(query), sessions)
  }

  /** JavaScript's `%`, whose result takes the sign of the dividend. */
  function JsRem(a: int, n: int): (r: int)
    requires n > 0
    ensures a >= 0 ==> r == a % n
    ensures -n < r < n
  {
    if a >= 0 then a % n else -((-a) % n)
  }

  /** `findIndex` on the tab ids: the first position with that id, or -1. */
  function IndexOf(sessions: seq<Session>, id: string): (r: int)
    ensures -1 <= r < |sessions|
    ensures r >= 0 ==> sessions[r].id == id && forall k :: 0 <= k < r ==> sessions[k].id != id
    ensures r == -1 ==> forall k :: 0 <= k < |sessions| ==> sessions[k].id != id
  {
    if sessions == [] then -1
    else if sessions[0].id == id then 0
    else
      var k := IndexOf(sessions[1..], id);
      if k == -1 then -1 else k + 1
  }

  /** The position Ctrl+Tab (or Ctrl+Shift+Tab, `back`) moves to from position `idx`. */
  function Cycle(idx: int, n: int, back: bool): (r: int)
    requires n > 0 && -1 <= idx < n
    ensures 0 <= r < n
    ensures !back ==> r == (idx + 1) % n
    ensures back && idx >= 0 ==> r == (idx - 1 + n) % n
    ensures back && idx == -1 ==> r == if n >= 2 then n - 2 else 0
  {
    if back then JsRem(idx - 1 + n, n) else JsRem(idx + 1, n)
  }

  /** A remainder of a number below twice the divisor. */
  lemma ModRange(a: int, n: int)
    requires n > 0 && 0 <= a < 2 * n
    ensures a % n == if a < n then a else a - n
  {
    if a < n {
      assert a == 0 * n + a;
    } else {
      assert a == 1 * n + (a - n);
    }
  }

  /** Moving forward and then back returns to the same tab. */
  lemma CycleBackForth(idx: int, n: int)
    requires 0 <= idx < n
    ensures Cycle(Cycle(idx, n, false), n, true) == idx
    ensures Cycle(Cycle(idx, n, true), n, false) == idx
  {
    ModRange(idx + 1, n);
    var f := Cycle(idx, n, false);
    ModRange(f - 1 + n, n);
    ModRange(idx - 1 + n, n);
    var b := Cycle(idx, n, true);
    ModRange(b + 1, n);
  }

  /** Ctrl+Tab / Ctrl+Shift+Tab: the next or previous tab becomes active, wrapping around. */
  function CycleTab(t: Tabs, back: bool): (r: Tabs)
    requires t.sessions != []
    ensures r.sessions == t.sessions && WellFormed(r)
    ensures var idx := IndexOf(t.sessions, t.activeId);
      r.activeId == t.sessions[Cycle(idx, |t.sessions|, back)].id
  {
    var next := Cycle(IndexOf(t.sessions, t.activeId), |t.sessions|, back);
    Tabs(t.sessions, t.sessions[next].id)
  }

  /** Ctrl+1 … Ctrl+9: the tab at position `digit - 1`, when there is one, becomes active. */
  function SelectByDigit(t: Tabs, digit: int): (r: Tabs)
    requires 1 <= digit <= 9
    ensures r.sessions == t.sessions
    ensures digit - 1 < |t.sessions| ==> r.activeId == t.sessions[digit - 1].id
    ensures digit - 1 >= |t.sessions| ==> r == t
  {
    if digit - 1 < |t.sessions| then Tabs(t.sessions, t.sessions[digit - 1].id) else t
  }
}
