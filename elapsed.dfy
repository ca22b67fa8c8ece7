/**
 * The relative time labels several views print for a timestamp: whole
 * minutes, hours or days since it, or "now" within the first minute.
 * `Date.now()` is the parameter `now`; `Math.floor` of a quotient by a
 * positive constant is Dafny's `/`, which rounds toward minus infinity there.
 */
module Elapsed {
  import opened Wrappers
  import opened Text

  const Minute: int := 60000
  const Hour: int := 3600000
  const Day: int := 86400000

  /**
   * `getTimeAgo(ts)` in src/App.tsx and `formatTimeAgo(ts)` in
   * src/components/TaskCard.tsx: the minutes are counted first, and hours and
   * days are derived from them.
   */
  function TimeAgo(ts: int, now: int): (r: string)
    ensures r == "now" <==> now - ts < Minute
  {
    var mins := (now - ts) / Minute;
    NotNow(if mins >= 0 then mins else 0, "m");
    NotNow(if mins >= 0 then mins / 60 else 0, "h");
    NotNow(if mins >= 0 then mins / 60 / 24 else 0, "d");
    if mins < 1 then "now"
    else if mins < 60 then DecimalString(mins) + "m"
    else
      var hrs := mins / 60;
      if hrs < 24 then DecimalString(hrs) + "h" else DecimalString(hrs / 24) + "d"
  }

  /** `formatTime(ts)` in src/components/MissionControl.tsx: the elapsed milliseconds compared with each unit. */
  function Bucketed(ts: int, now: int): (r: string)
    ensures r == "now" <==> now - ts < Minute
  {
    var diff := now - ts;
    NotNow(if diff >= 0 then diff / Minute else 0, "m");
    NotNow(if diff >= 0 then diff / Hour else 0, "h");
    NotNow(if diff >= 0 then diff / Day else 0, "d");
    if diff < Minute then "now"
    else if diff < Hour then DecimalString(diff / Minute) + "m"
    else if diff < Day then DecimalString(diff / Hour) + "h"
    else DecimalString(diff / Day) + "d"
  }

  /**
   * Outside the first minute the label is a count followed by its unit
   * letter: the largest unit the elapsed time reaches, and the number of
   * whole such units elapsed.
   */
  lemma BucketedUnits(ts: int, now: int)
    ensures var d, r := now - ts, Bucketed(ts, now);
      d >= Minute ==>
        && |r| >= 2 && AllDigits(r[..|r| - 1])
        && var n, u := DigitsValue(r[..|r| - 1]), r[|r| - 1];
           var size := if u == 'm' then Minute else if u == 'h' then Hour else Day;
           && (u == 'm' <==> d < Hour) && (u == 'h' <==> Hour <= d < Day) && (u == 'd' <==> Day <= d)
           && n >= 1 && n * size <= d < (n + 1) * size
  {
    var d := now - ts;
    if d >= Minute {
      var unit := if d < Hour then Minute else if d < Day then Hour else Day;
      var n := d / unit;
      var r := Bucketed(ts, now);
      assert r == DecimalString(n) + [if d < Hour then 'm' else if d < Day then 'h' else 'd'];
      assert r[..|r| - 1] == DecimalString(n);
      DecimalRoundTrip(n);
    }
  }

  /** Whole hours counted from whole minutes are the whole hours of the milliseconds, and likewise days. */
  lemma FloorTwice(d: int)
    ensures (d / Minute) / 60 == d / Hour
    ensures (d / Hour) / 24 == d / Day
    ensures ((d / Minute) / 60) / 24 == d / Day
  {
  }

  /** A number followed by a unit letter is never the word "now". */
  lemma NotNow(n: nat, unit: string)
    ensures DecimalString(n) + unit != "now"
  {
    assert (DecimalString(n) + unit)[0] == DecimalString(n)[0];
  }

  /** Both ways of bucketing give the same label for every timestamp. */
  lemma TimeAgoIsBucketed(ts: int, now: int)
    ensures TimeAgo(ts, now) == Bucketed(ts, now)
  {
    FloorTwice(now - ts);
  }

  /**
   * `formatTime(ts)` in src/components/LiveFeed.tsx, within its first day;
   * after that it prints a locale clock time, which is `None` here.
   */
  function FeedTime(ts: int, now: int): (r: Option<string>)
    ensures r.Some? <==> now - ts < Day
    ensures now - ts < Minute ==> r == Some("now")
    ensures Minute <= now - ts < Day ==> r == Some(Bucketed(ts, now) + " ago")
  {
    var diff := now - ts;
    if diff < Minute then Some("now")
    else if diff < Hour then
      var m := DecimalString(diff / Minute);
      assert m + "m ago" == (m + "m") + " ago";
      Some(m + "m ago")
    else if diff < Day then
      var h := DecimalString(diff / Hour);
      assert h + "h ago" == (h + "h") + " ago";
      Some(h + "h ago")
    else None
  }
}
