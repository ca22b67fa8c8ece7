/**
 * The command palette (src/components/CommandPalette.tsx): fuzzy scoring of
 * a command label against the query, the command list, the filtered and
 * ranked list, and keyboard navigation of the selection.
 *
 * `fuzzyMatch` is the loop method `FuzzyMatch`, proved equal to the
 * function `Fuzzy`, which states the score through the greedy left-to-right
 * embedding of the query in the label.
 */
module Palette {
  import opened Wrappers
  import opened Seqs
  import opened Text
  import opened Types
  import AppShell

  // ---------------------------------------------------------------- subsequences

  /** Positions `p` of `t`, increasing and from `from` on, that spell out `q`. */
  ghost predicate Embeds(p: seq<int>, q: string, t: string, from: nat) {
    |p| == |q|
    && (forall k :: 0 <= k < |p| ==> from <= p[k] < |t| && t[p[k]] == q[k])
    && (forall k :: 0 < k < |p| ==> p[k - 1] < p[k])
  }

  /** Prefixes `pos` to a scan result, keeping a failure a failure. */
  function Join(pos: seq<int>, o: Option<seq<int>>): Option<seq<int>> {
    if o.None? then None else Some(pos + o.value)
  }

  lemma JoinNil(o: Option<seq<int>>)
    ensures Join([], o) == o
  {
    if o.Some? {
      assert [] + o.value == o.value;
    }
  }

  lemma JoinSnoc(pos: seq<int>, i: int, o: Option<seq<int>>)
    ensures Join(pos, Join([i], o)) == Join(pos + [i], o)
  {
    if o.Some? {
      assert pos + ([i] + o.value) == (pos + [i]) + o.value;
    }
  }

  /**
   * The greedy scan from position `from`: each character of `q` is matched
   * at the first position of `t` after the previous match.
   */
  function Greedy(q: string, t: string, from: nat): (r: Option<seq<int>>)
    requires from <= |t|
    decreases |t| - from
    ensures r.Some? ==> |r.value| == |q|
  {
    if q == [] then Some([])
    else if from == |t| then None
    else if t[from] == q[0] then Join([from], Greedy(q[1..], t, from + 1))
    else Greedy(q, t, from + 1)
  }

  /** A successful scan spells out `q` at increasing positions of `t`. */
  lemma {:induction false} GreedyEmbeds(q: string, t: string, from: nat)
    requires from <= |t| && Greedy(q, t, from).Some?
    ensures Embeds(Greedy(q, t, from).value, q, t, from)
    decreases |t| - from
  {
    if q != [] {
      if t[from] == q[0] {
        GreedyEmbeds(q[1..], t, from + 1);
        var p := Greedy(q[1..], t, from + 1).value;
        assert Greedy(q, t, from).value == [from] + p;
      } else {
        GreedyEmbeds(q, t, from + 1);
      }
    }
  }

  /** A subsequence stays one when its first character is dropped. */
  lemma {:induction false} SubseqDropFirst(q: string, s: string)
    requires q != [] && SubseqOf(q, s)
    ensures SubseqOf(q[1..], s)
    decreases |s|
  {
    if q[1..] != [] {
      if q[0] == s[0] && SubseqOf(q[1..], s[1..]) {
      } else {
        SubseqDropFirst(q, s[1..]);
      }
    }
  }

  /** The greedy scan succeeds exactly when `q` is a subsequence of the rest of `t`. */
  lemma {:induction false} GreedyComplete(q: string, t: string, from: nat)
    requires from <= |t|
    ensures Greedy(q, t, from).Some? <==> SubseqOf(q, t[from..])
    decreases |t| - from
  {
    if q != [] && from < |t| {
      GreedyComplete(q, t, from + 1);
      assert t[from..][1..] == t[from + 1..];
      if t[from] == q[0] {
        GreedyComplete(q[1..], t, from + 1);
        if SubseqOf(q, t[from + 1..]) {
          SubseqDropFirst(q, t[from + 1..]);
        }
      }
    }
  }

  lemma {:induction false} SubseqOfPrefix(q: string, t: string)
    requires q <= t
    ensures SubseqOf(q, t)
  {
    if q != [] {
      assert q[1..] <= t[1..];
      SubseqOfPrefix(q[1..], t[1..]);
    }
  }

  lemma {:induction false} SubseqOfSuffix(q: string, t: string, i: nat)
    requires i <= |t| && SubseqOf(q, t[i..])
    ensures SubseqOf(q, t)
  {
    if i > 0 && q != [] {
      assert t[1..][i - 1..] == t[i..];
      SubseqOfSuffix(q, t[1..], i - 1);
    }
  }

  /** A substring is a subsequence. */
  lemma SubseqOfContains(q: string, t: string)
    requires Contains(t, q)
    ensures SubseqOf(q, t)
  {
    ContainsAt(t, q);
    var i :| OccursAt(t, q, i);
    assert q <= t[i..];
    SubseqOfPrefix(q, t[i..]);
    SubseqOfSuffix(q, t, i);
  }

  // ---------------------------------------------------------------- scoring

  datatype Match = Match(matched: bool, score: int)

  const NoMatch := Match(false, 0)

  /** The last matched position, -1 before the first (`lastMatchIdx`). */
  function Last(p: seq<int>): int {
    if p == [] then -1 else p[|p| - 1]
  }

  /**
   * `consecutiveBonus`: 5 for every match directly after the previous one;
   * a first match at position 0 counts, since the scan starts at -1.
   */
  function Bonus(p: seq<int>): int
    decreases |p|
  {
    if p == [] then 0
    else Bonus(p[..|p| - 1]) + (if p[|p| - 1] == Last(p[..|p| - 1]) + 1 then 5 else 0)
  }

  function Clamp(s: int): int {
    Max(10, Min(s, 69))
  }

  /**
   * `fuzzyMatch(query, text)` after lower-casing both: 100 for equal
   * strings, 90 for a prefix, 70 for a substring, otherwise the clamped
   * subsequence score of the greedy embedding, or no match.
   */
  function Fuzzy(query: string, text: string): Match {
    var lq, lt := Lower(query), Lower(text);
    if lt == lq then Match(true, 100)
    else if lq <= lt then Match(true, 90)
    else if Contains(lt, lq) then Match(true, 70)
    else
      var g := Greedy(lq, lt, 0);
      if g.None? then NoMatch
      else Match(true, Clamp(50 + Bonus(g.value) - (Last(g.value) - |lq|)))
  }

  /**
   * The score bands: each band is taken exactly by its kind of match, a
   * text matches exactly when the query is a subsequence of it, and a
   * non-match scores 0.
   */
  lemma FuzzyBands(query: string, text: string)
    ensures var r, lq, lt := Fuzzy(query, text), Lower(query), Lower(text);
      && (r.matched <==> SubseqOf(lq, lt))
      && (!r.matched ==> r.score == 0)
      && (r.score == 100 <==> lt == lq)
      && (r.score == 90 <==> lt != lq && lq <= lt)
      && (r.score == 70 <==> !(lq <= lt) && Contains(lt, lq))
      && (r.matched && r.score < 70 <==> !Contains(lt, lq) && SubseqOf(lq, lt))
      && (r.matched && r.score < 70 ==> 10 <= r.score <= 69)
  {
    var lq, lt := Lower(query), Lower(text);
    GreedyComplete(lq, lt, 0);
    assert lt[0..] == lt;
    if lq <= lt {
      SubseqOfPrefix(lq, lt);
    } else if Contains(lt, lq) {
      SubseqOfContains(lq, lt);
    }
  }

  /** The scoring of `fuzzyMatch`. */
  method FuzzyMatch(query: string, text: string) returns (r: Match)
    ensures r == Fuzzy(query, text)
  {
    var lq := Lower(query);
    var lt := Lower(text);
    if lt == lq {
      r := Match(true, 100);
    } else if lq <= lt {
      r := Match(true, 90);
    } else if Contains(lt, lq) {
      r := Match(true, 70);
    } else {
      var found, bonus, lastMatch := Scan(lq, lt);
      if found {
        var score := 50 + bonus - (lastMatch - |lq|);
        r := Match(true, Max(10, Min(score, 69)));
      } else {
        r := NoMatch;
      }
    }
  }

  /**
   * The loop of `fuzzyMatch`: it finds the greedy embedding of `lq` in
   * `lt` when there is one, with its bonus and its last position.
   */
  method Scan(lq: string, lt: string) returns (found: bool, bonus: int, lastMatch: int)
    ensures var g := Greedy(lq, lt, 0);
      found == g.Some? && (found ==> bonus == Bonus(g.value) && lastMatch == Last(g.value))
  {
    var queryIdx := 0;
    bonus := 0;
    lastMatch := -1;
    ghost var pos: seq<int> := [];
    var i := 0;
    assert lq[0..] == lq;
    JoinNil(Greedy(lq, lt, 0));
    while i < |lt| && queryIdx < |lq|
      invariant 0 <= i <= |lt| && 0 <= queryIdx <= |lq| && |pos| == queryIdx
      invariant lastMatch == Last(pos) && bonus == Bonus(pos)
      invariant Greedy(lq, lt, 0) == Join(pos, Greedy(lq[queryIdx..], lt, i))
    {
      if lt[i] == lq[queryIdx] {
        assert lq[queryIdx..][1..] == lq[queryIdx + 1..];
        assert (pos + [i])[..|pos|] == pos;
        JoinSnoc(pos, i, Greedy(lq[queryIdx + 1..], lt, i + 1));
        if lastMatch == i - 1 {
          bonus := bonus + 5;
        }
        lastMatch := i;
        queryIdx := queryIdx + 1;
        pos := pos + [i];
      }
      i := i + 1;
    }
    found := queryIdx == |lq|;
    if found {
      assert pos + [] == pos;
    }
  }

  // ---------------------------------------------------------------- commands

  datatype Category = SessionCategory | ViewCategory | HelpCategory

  /** What a command does when run; every one but `ShowShortcuts` also closes the palette. */
  datatype Action = NewSession | ToggleSplit | CloseSession(id: string) | ShowShortcuts | SwitchTo(id: string)

  datatype Command = Command(
    id: string,
    caption: string,
    shortcut: Option<string>,
    icon: string,
    category: Category,
    action: Action)

  const ActiveIcon := "\U{25CF}"
  const InactiveIcon := "\U{25CB}"

  /** The four commands that are always listed. */
  function Fixed(activeId: string, isSplit: bool): seq<Command> {
    [ Command("new-session", "New Session", Some("Ctrl+N"), "\U{2727}", SessionCategory, NewSession),
      Command("toggle-split", if isSplit then "Close Split View" else "Toggle Split View",
              Some("Ctrl+\\"), "\U{2AFF}", ViewCategory, ToggleSplit),
      Command("close-session", "Close Current Session", Some("Ctrl+W"), "\U{2715}", SessionCategory,
              CloseSession(activeId)),
      Command("shortcuts", "Show Keyboard Shortcuts", Some("?"), "\U{2318}", HelpCategory, ShowShortcuts) ]
  }

  /** The switch command of the session at position `idx`. */
  function SwitchCommand(s: Session, idx: nat, activeId: string): Command {
    Command("switch-" + s.id, "Switch to: " + s.name,
            if idx < 9 then Some("Ctrl+" + DecimalString(idx + 1)) else None,
            if s.id == activeId then ActiveIcon else InactiveIcon,
            SessionCategory, SwitchTo(s.id))
  }

  function Commands(sessions: seq<Session>, activeId: string, isSplit: bool): (r: seq<Command>)
    ensures |r| == 4 + |sessions|
  {
    Fixed(activeId, isSplit) + seq(|sessions|, i requires 0 <= i < |sessions| => SwitchCommand(sessions[i], i, activeId))
  }

  /**
   * The switch command of the tab at position `i` carries the shortcut
   * Ctrl+`i+1` exactly for the first nine tabs, and running it selects the
   * same tab as that key in the shell; it is marked active exactly when
   * its tab is the active one.
   */
  lemma SwitchCommands(t: AppShell.Tabs, isSplit: bool, i: nat)
    requires i < |t.sessions|
    ensures var c := Commands(t.sessions, t.activeId, isSplit)[4 + i];
      && c.action == SwitchTo(t.sessions[i].id)
      && (c.shortcut.Some? <==> i < 9)
      && (i < 9 ==>
            (c.shortcut == Some("Ctrl+" + [DigitChar(i + 1)])
             && AppShell.SelectByDigit(t, i + 1).activeId == c.action.id))
      && (c.icon == ActiveIcon <==> t.sessions[i].id == t.activeId)
  {
    if i < 9 {
      assert DecimalString(i + 1) == [DigitChar(i + 1)];
    }
  }

  /** In a well-formed shell some switch command is marked active. */
  lemma SomeActiveCommand(t: AppShell.Tabs, isSplit: bool)
    requires AppShell.WellFormed(t)
    ensures exists k :: 4 <= k < 4 + |t.sessions| && Commands(t.sessions, t.activeId, isSplit)[k].icon == ActiveIcon
  {
    var i :| 0 <= i < |t.sessions| && t.sessions[i].id == t.activeId;
    SwitchCommands(t, isSplit, i);
  }

  // ---------------------------------------------------------------- filtering and ranking

  /** A command with its match against the query and its place in the list. */
  datatype Ranked = Ranked(cmd: Command, m: Match, pos: int)

  /** Higher scores first; equal scores keep list order (the sort is stable). */
  function RankKey(r: Ranked): (int, int) {
    (-r.m.score, r.pos)
  }

  function IsMatch(r: Ranked): bool {
    r.m.matched
  }

  function Scored(cmds: seq<Command>, query: string): (r: seq<Ranked>)
    ensures |r| == |cmds|
    ensures forall i :: 0 <= i < |r| ==> r[i] == Ranked(cmds[i], Fuzzy(query, cmds[i].caption), i)
  {
    seq(|cmds|, i requires 0 <= i < |cmds| => Ranked(cmds[i], Fuzzy(query, cmds[i].caption), i))
  }

  function CommandsOf(rs: seq<Ranked>): (r: seq<Command>)
    ensures |r| == |rs|
    ensures forall i :: 0 <= i < |rs| ==> r[i] == rs[i].cmd
  {
    seq(|rs|, i requires 0 <= i < |rs| => rs[i].cmd)
  }

  function Ranking(cmds: seq<Command>, query: string): seq<Ranked> {
    SortBy(RankKey, Filter(IsMatch, Scored(cmds, query)))
  }

  /** `filteredCommands`: all commands for a blank query, otherwise the matching ones, best first. */
  function FilteredCommands(cmds: seq<Command>, query: string): seq<Command> {
    if Trim(query) == [] then cmds else CommandsOf(Ranking(cmds, query))
  }

  lemma RankingContents(cmds: seq<Command>, query: string)
    ensures var rs := Ranking(cmds, query);
      && |rs| == Count(IsMatch, Scored(cmds, query))
      && SortedBy(RankKey, rs)
      && (forall k :: 0 <= k < |rs| ==> rs[k] in Scored(cmds, query) && rs[k].m.matched)
      && (forall i :: 0 <= i < |cmds| && Fuzzy(query, cmds[i].caption).matched ==> Scored(cmds, query)[i] in rs)
  {
    var sc := Scored(cmds, query);
    var f := Filter(IsMatch, sc);
    SortBySorted(RankKey, f);
    SortByLength(RankKey, f);
    CountIsFilterLength(IsMatch, sc);
    var rs := SortBy(RankKey, f);
    forall k | 0 <= k < |rs|
      ensures rs[k] in sc && rs[k].m.matched
    {
      assert rs[k] in multiset(rs);
      assert rs[k] in multiset(f);
    }
    forall i | 0 <= i < |cmds| && Fuzzy(query, cmds[i].caption).matched
      ensures sc[i] in rs
    {
      assert IsMatch(sc[i]);
      assert sc[i] in multiset(f);
    }
  }

  /**
   * A blank query lists every command unchanged. Otherwise the list holds
   * exactly the commands whose label the query matches, as many as match,
   * with non-increasing scores, and commands of equal score in their
   * original order.
   */
  lemma FilteredRanking(cmds: seq<Command>, query: string)
    ensures Trim(query) == [] ==> FilteredCommands(cmds, query) == cmds
    ensures Trim(query) != [] ==>
      var rs, out := Ranking(cmds, query), FilteredCommands(cmds, query);
      && |out| == Count(IsMatch, Scored(cmds, query))
      && (forall c :: c in out <==> c in cmds && Fuzzy(query, c.caption).matched)
      && (forall i, j :: 0 <= i < j < |out| ==>
            Fuzzy(query, out[i].caption).score >= Fuzzy(query, out[j].caption).score)
      && (forall i, j :: 0 <= i < j < |rs| && rs[i].m.score == rs[j].m.score ==> rs[i].pos < rs[j].pos)
  {
    if Trim(query) != [] {
      RankingContents(cmds, query);
      RankedMembers(cmds, query);
      RankedOrder(cmds, query);
      RankedStable(cmds, query);
    }
  }

  lemma RankedMembers(cmds: seq<Command>, query: string)
    ensures var out := CommandsOf(Ranking(cmds, query));
      forall c :: c in out <==> c in cmds && Fuzzy(query, c.caption).matched
  {
    var sc := Scored(cmds, query);
    var rs := Ranking(cmds, query);
    var out := CommandsOf(rs);
    RankingContents(cmds, query);
    forall c
      ensures c in out <==> c in cmds && Fuzzy(query, c.caption).matched
    {
      if c in out {
        var k :| 0 <= k < |out| && out[k] == c;
        assert rs[k] in sc;
      }
      if c in cmds && Fuzzy(query, c.caption).matched {
        var i :| 0 <= i < |cmds| && cmds[i] == c;
        assert sc[i] in rs;
        var k :| 0 <= k < |rs| && rs[k] == sc[i];
        assert out[k] == c;
      }
    }
  }

  lemma RankedOrder(cmds: seq<Command>, query: string)
    ensures var out := CommandsOf(Ranking(cmds, query));
      forall i, j :: 0 <= i < j < |out| ==>
        Fuzzy(query, out[i].caption).score >= Fuzzy(query, out[j].caption).score
  {
    var sc := Scored(cmds, query);
    var rs := Ranking(cmds, query);
    var out := CommandsOf(rs);
    RankingContents(cmds, query);
    forall i, j | 0 <= i < j < |out|
      ensures Fuzzy(query, out[i].caption).score >= Fuzzy(query, out[j].caption).score
    {
      assert rs[i] in sc && rs[j] in sc;
      assert PairLe(RankKey(rs[i]), RankKey(rs[j]));
    }
  }

  lemma RankedStable(cmds: seq<Command>, query: string)
    ensures var rs := Ranking(cmds, query);
      forall i, j :: 0 <= i < j < |rs| && rs[i].m.score == rs[j].m.score ==> rs[i].pos < rs[j].pos
  {
    var rs := Ranking(cmds, query);
    RankingContents(cmds, query);
    RankingDistinct(cmds, query);
    forall i, j | 0 <= i < j < |rs| && rs[i].m.score == rs[j].m.score
      ensures rs[i].pos < rs[j].pos
    {
      assert PairLe(RankKey(rs[i]), RankKey(rs[j]));
      assert rs[i] != rs[j];
    }
  }

  /** The ranking repeats no entry, since every entry carries its own list position. */
  lemma RankingDistinct(cmds: seq<Command>, query: string)
    ensures Distinct(Ranking(cmds, query))
  {
    var sc := Scored(cmds, query);
    var f := Filter(IsMatch, sc);
    FilterDistinct(IsMatch, sc);
    SortBySorted(RankKey, f);
    SortByLength(RankKey, f);
    var rs := SortBy(RankKey, f);
    forall i, j | 0 <= i < j < |rs|
      ensures rs[i] != rs[j]
    {
      MultisetDistinct(f, rs, i, j);
    }
  }

  /** A permutation of a sequence without repeats has none either. */
  lemma MultisetDistinct<T>(f: seq<T>, rs: seq<T>, i: nat, j: nat)
    requires Distinct(f) && multiset(rs) == multiset(f) && i < j < |rs|
    ensures rs[i] != rs[j]
  {
    if rs[i] == rs[j] {
      assert multiset(rs)[rs[i]] >= 2 by {
        var x := rs[i];
        assert rs == rs[..j] + [x] + rs[j + 1..];
        assert x in rs[..j];
        assert multiset(rs) == multiset(rs[..j]) + multiset{x} + multiset(rs[j + 1..]);
      }
      DistinctOnce(f, rs[i]);
    }
  }

  lemma {:induction false} DistinctOnce<T>(f: seq<T>, x: T)
    requires Distinct(f)
    ensures multiset(f)[x] <= 1
  {
    if f != [] {
      assert f == [f[0]] + f[1..];
      assert Distinct(f[1..]) by {
        forall a, b | 0 <= a < b < |f[1..]| ensures f[1..][a] != f[1..][b] {
          assert f[1..][a] == f[a + 1] && f[1..][b] == f[b + 1];
        }
      }
      DistinctOnce(f[1..], x);
      if f[0] == x {
        assert x !in f[1..] by {
          forall k | 0 <= k < |f[1..]| ensures f[1..][k] != x { assert f[1..][k] == f[k + 1]; }
        }
      }
    }
  }

  // ---------------------------------------------------------------- keys

  datatype Key = ArrowDown | ArrowUp | Enter | Escape | Tab(shift: bool) | OtherKey

  datatype PaletteState = PaletteState(query: string, selected: int, showShortcuts: bool)

  /** What a key asks of the parent: nothing, run a command's callback and close, or close. */
  datatype Effect = Stay | Run(action: Action) | Dismiss

  /** Opening the palette clears the query, the selection and the shortcut sheet. */
  const Opened := PaletteState("", 0, false)

  /** One step down, wrapping past the last entry to the first. */
  function Down(i: int, n: int): int {
    if i < n - 1 then i + 1 else 0
  }

  /** One step up, wrapping from the first entry to the last. */
  function Up(i: int, n: int): int {
    if i > 0 then i - 1 else n - 1
  }

  /** Typing a new query resets the selection to the first entry. */
  function SetQuery(p: PaletteState, q: string): (r: PaletteState)
    ensures r.query == q && r.showShortcuts == p.showShortcuts
    ensures r.selected == if q == p.query then p.selected else 0
  {
    if q == p.query then p else p.(query := q, selected := 0)
  }

  /** `handleKeyDown` on a list of `n` entries, `list` being the filtered commands. */
  function HandleKey(p: PaletteState, list: seq<Command>, k: Key): (PaletteState, Effect) {
    match k
    case ArrowDown => (p.(selected := Down(p.selected, |list|)), Stay)
    case ArrowUp => (p.(selected := Up(p.selected, |list|)), Stay)
    case Tab(shift) =>
      (p.(selected := if shift then Up(p.selected, |list|) else Down(p.selected, |list|)), Stay)
    case Enter =>
      if 0 <= p.selected < |list| then
        if list[p.selected].action == ShowShortcuts then (p.(showShortcuts := true), Stay)
        else (p, Run(list[p.selected].action))
      else (p, Stay)
    case Escape => if p.showShortcuts then (p.(showShortcuts := false), Stay) else (p, Dismiss)
    case OtherKey => (p, Stay)
  }

  /**
   * On a non-empty list every key keeps the selection in range and only
   * Enter and Escape leave the palette; Down and Up wrap at the ends.
   */
  lemma KeysStayInRange(p: PaletteState, list: seq<Command>, k: Key)
    requires 0 <= p.selected < |list|
    ensures var (q, e) := HandleKey(p, list, k);
      && 0 <= q.selected < |list| && q.query == p.query
      && (e.Run? ==> k == Enter && e.action == list[p.selected].action)
      && (e == Dismiss <==> k == Escape && !p.showShortcuts)
      && (k == ArrowDown && p.selected == |list| - 1 ==> q.selected == 0)
      && (k == ArrowUp && p.selected == 0 ==> q.selected == |list| - 1)
  {
  }

  /** Up undoes Down and Down undoes Up on every position of a list. */
  lemma DownUpInverse(i: int, n: int)
    requires 0 <= i < n
    ensures Up(Down(i, n), n) == i && Down(Up(i, n), n) == i
  {
  }

  /** On an empty list Up selects -1, and Enter then runs nothing. */
  lemma EmptyListSelection(p: PaletteState)
    requires p.selected <= 0
    ensures HandleKey(p, [], ArrowUp).0.selected == -1
    ensures HandleKey(HandleKey(p, [], ArrowUp).0, [], Enter).1 == Stay
  {
  }
}
