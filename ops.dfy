/**
 * The operations dashboard (src/components/OpsPanel.tsx): the uptime
 * clock, the message and session counters, the feed of system messages,
 * and the connection status label.
 */
module Ops {
  import opened Wrappers
  import opened Seqs
  import opened Text
  import opened Types
  import opened AppShell

  // ---------------------------------------------------------------- uptime

  /** `formatUptime(s)`: `hh:mm:ss`, each field padded to two digits; the hours may use more. */
  function FormatUptime(s: nat): string {
    var h := s / 3600;
    var m := (s % 3600) / 60;
    var sec := s % 60;
    PadStart2(DecimalString(h)) + ":" + PadStart2(DecimalString(m)) + ":" + PadStart2(DecimalString(sec))
  }

  /** A number below 100 has at most two digits. */
  lemma SmallDecimal(n: nat)
    requires n < 100
    ensures |DecimalString(n)| <= 2
  {
    if n >= 10 {
      assert |DecimalString(n / 10)| == 1;
    }
  }

  /**
   * The clock reads back as the uptime: the text before the last two
   * colons is the hours, the two-digit minute and second fields are below
   * 60, and hours times 3600 plus minutes times 60 plus seconds is `s`.
   */
  lemma UptimeReadsBack(s: nat)
    ensures var r := FormatUptime(s);
      && |r| >= 8 && r[|r| - 6] == ':' && r[|r| - 3] == ':'
      && AllDigits(r[..|r| - 6]) && AllDigits(r[|r| - 5..|r| - 3]) && AllDigits(r[|r| - 2..])
      && var h, m, sec := DigitsValue(r[..|r| - 6]), DigitsValue(r[|r| - 5..|r| - 3]), DigitsValue(r[|r| - 2..]);
         m < 60 && sec < 60 && 3600 * h + 60 * m + sec == s
  {
    var h, m, sec := s / 3600, (s % 3600) / 60, s % 60;
    PaddedRoundTrip(h);
    PaddedRoundTrip(m);
    PaddedRoundTrip(sec);
    SmallDecimal(m);
    SmallDecimal(sec);
    ClockFields(PadStart2(DecimalString(h)), PadStart2(DecimalString(m)), PadStart2(DecimalString(sec)));
  }

  /** The three fields of `a:b:c`, read back from the end, when the last two have two characters. */
  lemma ClockFields(a: string, b: string, c: string)
    requires |b| == 2 && |c| == 2
    ensures var r := a + ":" + b + ":" + c;
      && |r| == |a| + 6 && r[|r| - 6] == ':' && r[|r| - 3] == ':'
      && r[..|r| - 6] == a && r[|r| - 5..|r| - 3] == b && r[|r| - 2..] == c
  {
    var r := a + ":" + b + ":" + c;
    assert r[..|r| - 6] == a;
    assert r[|r| - 5..|r| - 3] == b;
    assert r[|r| - 2..] == c;
  }

  // ---------------------------------------------------------------- counters

  /** Every message of every session, session by session. */
  function AllMessages(sessions: seq<Session>): seq<Message> {
    if sessions == [] then [] else sessions[0].messages + AllMessages(sessions[1..])
  }

  /** `totalMessages` is the number of messages there are, and it adds up over a split of the sessions. */
  lemma {:induction false} TotalMessagesCounts(a: seq<Session>, b: seq<Session>)
    ensures MessageCount(a) == |AllMessages(a)|
    ensures MessageCount(a + b) == MessageCount(a) + MessageCount(b)
  {
    if a != [] {
      TotalMessagesCounts(a[1..], b);
      assert (a + b)[1..] == a[1..] + b;
    } else {
      assert a + b == b;
    }
  }

  function IsTypingSession(s: Session): bool {
    s.isTyping
  }

  /** `activeSessions`: the sessions whose agent is typing. */
  function ActiveSessions(sessions: seq<Session>): (n: nat)
    ensures n == |Filter(IsTypingSession, sessions)|
    ensures n <= |sessions|
  {
    CountIsFilterLength(IsTypingSession, sessions);
    Count(IsTypingSession, sessions)
  }

  // ---------------------------------------------------------------- system messages

  /** A system message with the name and id of its session. */
  datatype SystemEntry = SystemEntry(message: Message, sessionName: string, sessionId: string)

  function IsSystem(m: Message): bool {
    m.role == System
  }

  /** The system messages of one session, tagged with it. */
  function TagSession(s: Session): (r: seq<SystemEntry>)
    ensures forall e :: e in r <==>
      (e.message in s.messages && IsSystem(e.message) && e.sessionName == s.name && e.sessionId == s.id)
  {
    var ms := Filter(IsSystem, s.messages);
    var r := seq(|ms|, i requires 0 <= i < |ms| => SystemEntry(ms[i], s.name, s.id));
    assert forall e :: e in r ==> e.message in ms;
    assert forall e: SystemEntry :: e.message in ms && e.sessionName == s.name && e.sessionId == s.id ==> e in r by {
      forall e: SystemEntry | e.message in ms && e.sessionName == s.name && e.sessionId == s.id
        ensures e in r
      {
        var i :| 0 <= i < |ms| && ms[i] == e.message;
        assert r[i] == e;
      }
    }
    r
  }

  /** The `flatMap`: every session's tagged system messages, session by session. */
  function Tagged(sessions: seq<Session>): seq<SystemEntry> {
    if sessions == [] then [] else TagSession(sessions[0]) + Tagged(sessions[1..])
  }

  /** An entry is tagged exactly when it is a system message of a session with that name and id. */
  lemma {:induction false} TaggedMembers(sessions: seq<Session>, e: SystemEntry)
    ensures e in Tagged(sessions) <==>
      exists k :: 0 <= k < |sessions| && e.message in sessions[k].messages && IsSystem(e.message)
                  && e.sessionName == sessions[k].name && e.sessionId == sessions[k].id
  {
    if sessions != [] {
      TaggedMembers(sessions[1..], e);
      if e in Tagged(sessions[1..]) {
        var k :| 0 <= k < |sessions[1..]| && e.message in sessions[1..][k].messages && IsSystem(e.message)
                 && e.sessionName == sessions[1..][k].name && e.sessionId == sessions[1..][k].id;
        assert sessions[k + 1] == sessions[1..][k];
      }
      if exists k :: 0 <= k < |sessions| && e.message in sessions[k].messages && IsSystem(e.message)
                     && e.sessionName == sessions[k].name && e.sessionId == sessions[k].id {
        var k :| 0 <= k < |sessions| && e.message in sessions[k].messages && IsSystem(e.message)
                 && e.sessionName == sessions[k].name && e.sessionId == sessions[k].id;
        if k > 0 {
          assert sessions[1..][k - 1] == sessions[k];
        }
      }
    }
  }

  /** The sort comparator `b.timestamp - a.timestamp`: later messages first. */
  function NewestFirst(e: SystemEntry): (int, int) {
    (-e.message.timestamp, 0)
  }

  /** `systemMessages`: the tagged system messages, latest first, at most 50. */
  function SystemMessages(sessions: seq<Session>): seq<SystemEntry> {
    Take(SortBy(NewestFirst, Tagged(sessions)), 50)
  }

  /**
   * The feed holds at most 50 tagged system messages in non-increasing
   * timestamp order, and every message left out is no later than every
   * message shown.
   */
  lemma SystemFeedOrder(sessions: seq<Session>)
    ensures var r, all := SystemMessages(sessions), Tagged(sessions);
      && |r| <= 50
      && (forall i, j :: 0 <= i < j < |r| ==> r[i].message.timestamp >= r[j].message.timestamp)
      && (forall e, x :: e in all && e !in r && x in r ==> x.message.timestamp >= e.message.timestamp)
  {
    var all := Tagged(sessions);
    var sorted := SortBy(NewestFirst, all);
    SortBySorted(NewestFirst, all);
    TakeSorted(NewestFirst, sorted, 50);
    var r := Take(sorted, 50);
    forall i, j | 0 <= i < j < |r|
      ensures r[i].message.timestamp >= r[j].message.timestamp
    {
      assert PairLe(NewestFirst(r[i]), NewestFirst(r[j]));
    }
    forall e, x | e in all && e !in r && x in r
      ensures x.message.timestamp >= e.message.timestamp
    {
      assert e in multiset(all);
      assert e in sorted;
      assert PairLe(NewestFirst(x), NewestFirst(e));
    }
  }

  /** The feed shows only tagged system messages, each at most as often as it occurs, and all of them when there are at most 50. */
  lemma SystemFeedMembers(sessions: seq<Session>)
    ensures multiset(SystemMessages(sessions)) <= multiset(Tagged(sessions))
    ensures |Tagged(sessions)| <= 50 ==> multiset(SystemMessages(sessions)) == multiset(Tagged(sessions))
    ensures |SystemMessages(sessions)| == if |Tagged(sessions)| < 50 then |Tagged(sessions)| else 50
  {
    var all := Tagged(sessions);
    var sorted := SortBy(NewestFirst, all);
    SortBySorted(NewestFirst, all);
    SortByLength(NewestFirst, all);
    TakeMultiset(sorted, 50);
  }

  // ---------------------------------------------------------------- status

  /** `statusLabel`. */
  function StatusLabel(st: ConnectionStatus): (r: string)
    ensures r == "ONLINE" <==> st == Connected
    ensures r == "CONNECTING" <==> st == Connecting
    ensures r == "OFFLINE" <==> st == Disconnected
  {
    if st == Connected then "ONLINE" else if st == Connecting then "CONNECTING" else "OFFLINE"
  }
}
