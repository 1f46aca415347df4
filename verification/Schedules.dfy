/**
 Weekly schedules: weekdays, several windows, windows that run past midnight.

 The local weekday and time of day are given; the time-zone database is not modelled.
 */
module Schedules {
  import opened Wrappers

  datatype TimeWindow = TimeWindow(from: string, to: string)

  datatype Schedule = Schedule(timezone: string, weekdays: seq<int>, windows: seq<TimeWindow>)

  // ------------------------------------------------------------ wall clock

  /** unicode.IsSpace. */
  predicate IsSpace(c: char) {
    var n := c as int;
    9 <= n <= 13 || n in {0x20, 0x85, 0xA0, 0x1680, 0x2028, 0x2029, 0x202F, 0x205F, 0x3000} || 0x2000 <= n <= 0x200A
  }

  function TrimSpace(s: string): string
    decreases |s|
  {
    if s == "" then s
    else if IsSpace(s[0]) then TrimSpace(s[1..])
    else if IsSpace(s[|s| - 1]) then TrimSpace(s[..|s| - 1])
    else s
  }

  /** atoi: the accumulating loop computes the decimal value, or fails on the first non-digit. */
  method Atoi(s: string) returns (n: Option<nat>)
    ensures n.Some? <==> AllDigits(s)
    ensures n.Some? ==> n.value == Decimal(s)
  {
    var value := 0;
    for i := 0 to |s|
      invariant AllDigits(s[..i]) && value == Decimal(s[..i])
    {
      if !IsDigit(s[i]) {
        return None;
      }
      assert s[..i + 1][..i] == s[..i];
      value := value * 10 + (s[i] as int - '0' as int);
    }
    assert s[..|s|] == s;
    return Some(value);
  }

  /** "HH:MM" with two digits each and in range. */
  predicate IsClock(s: string) {
    && |s| == 5 && s[2] == ':' && AllDigits(s[..2]) && AllDigits(s[3..])
    && Decimal(s[..2]) <= 23 && Decimal(s[3..]) <= 59
  }

  /** Minutes since midnight, when the text is a time of day. */
  function TimeOfDay(s: string): (r: Option<int>)
    ensures r.Some? ==> 0 <= r.value < 1440
  {
    var t := TrimSpace(s);
    if IsClock(t) then Some(Decimal(t[..2]) * 60 + Decimal(t[3..])) else None
  }

  method ParseTimeOfDay(s: string) returns (minutes: int, ok: bool)
    ensures ok <==> TimeOfDay(s).Some?
    ensures ok ==> minutes == TimeOfDay(s).value
  {
    var t := TrimSpace(s);
    if |t| != 5 || t[2] != ':' {
      return 0, false;
    }
    var h := Atoi(t[..2]);
    var m := Atoi(t[3..]);
    if h.None? || m.None? {
      return 0, false;
    }
    if h.value > 23 || m.value > 59 {
      return 0, false;
    }
    return h.value * 60 + m.value, true;
  }

  // --------------------------------------------------------- weekly meaning

  /** Length of a window in minutes; an end before the start is on the next day. */
  function Span(from: int, to: int): int {
    if from <= to then to - from else to + 1440 - from
  }

  predicate WeekdayActive(sc: Schedule, day: int) {
    sc.weekdays == [] || day in sc.weekdays
  }

  /** Minutes from `start` forward to `m`, going round the week. */
  function Offset(m: int, start: int): int { (m - start) % 10080 }

  /** The minute of the week, counted from Sunday 00:00, at which a time of day falls on `day`. */
  function StartMinute(day: int, tod: int): int { day * 1440 + tod }

  /** Minute `m` of the week lies in the half-open interval a window opens on `day`, modulo the week. */
  predicate OpenFrom(w: TimeWindow, day: int, m: int) {
    var f, t := TimeOfDay(w.from), TimeOfDay(w.to);
    f.Some? && t.Some? && Offset(m, StartMinute(day, f.value)) < Span(f.value, t.value)
  }

  /** The schedule is on: some window opened on some active weekday is still open. */
  predicate On(sc: Schedule, m: int) {
    exists i, day | 0 <= i < |sc.windows| && 0 <= day < 7 ::
      WeekdayActive(sc, day) && OpenFrom(sc.windows[i], day, m)
  }

  /** One window: only today's and yesterday's opening can matter. */
  predicate OpenNow(sc: Schedule, w: TimeWindow, wd: int, tod: int) {
    var f, t := TimeOfDay(w.from), TimeOfDay(w.to);
    && f.Some? && t.Some?
    && if f.value <= t.value then f.value <= tod < t.value && WeekdayActive(sc, wd)
       else if tod >= f.value then WeekdayActive(sc, wd)
       else tod < t.value && WeekdayActive(sc, (wd + 6) % 7)
  }

  /** Opened today and still open, or opened yesterday and past midnight. */
  predicate OpenedOn(day: int, wd: int, tod: int, from: int, to: int) {
    || (day == wd && from <= tod && (from > to || tod < to))
    || (day == (wd + 6) % 7 && from > to && tod < to)
  }

  lemma OffsetInWeek(m: int, start: int)
    requires -10080 <= m - start < 10080
    ensures Offset(m, start) == if m >= start then m - start else m - start + 10080
  {
  }

  lemma OpeningDay(wd: int, tod: int, day: int, from: int, to: int)
    requires 0 <= wd < 7 && 0 <= day < 7 && 0 <= tod < 1440 && 0 <= from < 1440 && 0 <= to < 1440
    ensures Offset(StartMinute(wd, tod), StartMinute(day, from)) < Span(from, to) <==> OpenedOn(day, wd, tod, from, to)
  {
    OffsetInWeek(StartMinute(wd, tod), StartMinute(day, from));
  }

  lemma OpenNowMeansOpened(sc: Schedule, w: TimeWindow, wd: int, tod: int)
    requires 0 <= wd < 7 && 0 <= tod < 1440
    ensures OpenNow(sc, w, wd, tod)
       <==> exists day | 0 <= day < 7 :: WeekdayActive(sc, day) && OpenFrom(w, day, StartMinute(wd, tod))
  {
    var f, t := TimeOfDay(w.from), TimeOfDay(w.to);
    if OpenNow(sc, w, wd, tod) {
      var day := if f.value <= tod then wd else (wd + 6) % 7;
      OpeningDay(wd, tod, day, f.value, t.value);
      assert WeekdayActive(sc, day) && OpenFrom(w, day, StartMinute(wd, tod));
    }
    if day :| 0 <= day < 7 && WeekdayActive(sc, day) && OpenFrom(w, day, StartMinute(wd, tod)) {
      OpeningDay(wd, tod, day, f.value, t.value);
    }
  }

  method IsWeekdayActive(sc: Schedule, wd: int) returns (active: bool)
    ensures active <==> WeekdayActive(sc, wd)
  {
    if |sc.weekdays| == 0 {
      return true;
    }
    for i := 0 to |sc.weekdays|
      invariant wd !in sc.weekdays[..i]
    {
      if sc.weekdays[i] == wd {
        return true;
      }
    }
    return false;
  }

  /** One iteration of the scan. */
  method IsWindowOpen(sc: Schedule, w: TimeWindow, wd: int, tod: int) returns (open: bool)
    ensures open <==> OpenNow(sc, w, wd, tod)
  {
    var from, okF := ParseTimeOfDay(w.from);
    var to, okT := ParseTimeOfDay(w.to);
    if !okF || !okT {
      return false;
    }
    if from <= to {
      if tod >= from && tod < to {
        open := IsWeekdayActive(sc, wd);
        return;
      }
    } else if tod >= from {
      open := IsWeekdayActive(sc, wd);
      return;
    } else if tod < to {
      open := IsWeekdayActive(sc, (wd + 6) % 7);
      return;
    }
    return false;
  }

  /** A nil schedule is always active; otherwise the scan decides membership in the weekly union. */
  method IsActive(schedule: Option<Schedule>, wd: int, tod: int) returns (active: bool)
    requires 0 <= wd < 7 && 0 <= tod < 1440
    ensures active <==> schedule.None? || On(schedule.value, StartMinute(wd, tod))
  {
    if schedule.None? {
      return true;
    }
    var sc := schedule.value;
    for i := 0 to |sc.windows|
      invariant forall j | 0 <= j < i :: !OpenNow(sc, sc.windows[j], wd, tod)
    {
      var open := IsWindowOpen(sc, sc.windows[i], wd, tod);
      if open {
        OpenNowMeansOpened(sc, sc.windows[i], wd, tod);
        return true;
      }
    }
    forall i | 0 <= i < |sc.windows|
      ensures forall day | 0 <= day < 7 :: !(WeekdayActive(sc, day) && OpenFrom(sc.windows[i], day, StartMinute(wd, tod)))
    {
      OpenNowMeansOpened(sc, sc.windows[i], wd, tod);
    }
    return false;
  }

  // -------------------------------------------------------------- validation

  predicate ValidWindow(w: TimeWindow) {
    TimeOfDay(w.from).Some? && TimeOfDay(w.to).Some? && TimeOfDay(w.from) != TimeOfDay(w.to)
  }

  /** What Validate accepts; `zoneKnown` stands for time.LoadLocation. */
  predicate WellFormed(sc: Schedule, zoneKnown: string -> bool) {
    && sc.windows != []
    && (sc.timezone == "" || zoneKnown(sc.timezone))
    && (forall i | 0 <= i < |sc.windows| :: ValidWindow(sc.windows[i]))
    && (forall i | 0 <= i < |sc.weekdays| :: 0 <= sc.weekdays[i] <= 6)
  }

  method Validate(schedule: Option<Schedule>, zoneKnown: string -> bool) returns (ok: bool)
    ensures ok <==> schedule.None? || WellFormed(schedule.value, zoneKnown)
  {
    if schedule.None? {
      return true;
    }
    var sc := schedule.value;
    if |sc.windows| == 0 || (sc.timezone != "" && !zoneKnown(sc.timezone)) {
      return false;
    }
    for i := 0 to |sc.windows|
      invariant forall j | 0 <= j < i :: ValidWindow(sc.windows[j])
    {
      var from, okF := ParseTimeOfDay(sc.windows[i].from);
      if !okF {
        return false;
      }
      var to, okT := ParseTimeOfDay(sc.windows[i].to);
      if !okT || from == to {
        return false;
      }
    }
    for i := 0 to |sc.weekdays|
      invariant forall j | 0 <= j < i :: 0 <= sc.weekdays[j] <= 6
    {
      if sc.weekdays[i] < 0 || sc.weekdays[i] > 6 {
        return false;
      }
    }
    return true;
  }

  // --------------------------------------------------------- minutes per week

  /** The minutes of the week less than `len` after `start`, wrapping at the end of the week. */
  function Opened(start: int, len: int): set<int> {
    set m | 0 <= m < 10080 && Offset(m, start) < len
  }

  lemma {:induction false} OpenedSize(start: int, len: nat)
    requires len <= 10080
    ensures |Opened(start, len)| == len
  {
    if len == 0 {
      assert Opened(start, 0) == {};
    } else {
      OpenedSize(start, len - 1);
      OneMoreMinute(start, len);
    }
  }

  lemma OneMoreMinute(start: int, len: nat)
    requires 0 < len <= 10080
    ensures var last := (start + len - 1) % 10080;
      Opened(start, len) == Opened(start, len - 1) + {last} && last !in Opened(start, len - 1)
  {
  }

  /** Openings on different weekdays never overlap, because no window is longer than a day. */
  lemma OpenedApart(d: int, e: int, from: int, len: int, m: int)
    requires 0 <= d < 7 && 0 <= e < 7 && len <= 1440
    requires Offset(m, StartMinute(d, from)) < len && Offset(m, StartMinute(e, from)) < len
    ensures d == e
  {
    var s, t := StartMinute(d, from), StartMinute(e, from);
    var p, q := (m - s) / 10080, (m - t) / 10080;
    assert m - s == 10080 * p + Offset(m, s);
    assert m - t == 10080 * q + Offset(m, t);
  }

  predicate OpenedBefore(sc: Schedule, n: int, from: int, len: int, m: int) {
    exists d | 0 <= d < n :: WeekdayActive(sc, d) && Offset(m, StartMinute(d, from)) < len
  }

  function MinutesBefore(sc: Schedule, n: int, from: int, len: int): set<int> {
    set m | 0 <= m < 10080 && OpenedBefore(sc, n, from, len, m)
  }

  function DaysBefore(sc: Schedule, n: int): set<int> {
    set d | 0 <= d < n && WeekdayActive(sc, d)
  }

  lemma OneMoreDay(sc: Schedule, n: nat, from: int, len: int)
    requires n < 7 && len <= 1440
    ensures MinutesBefore(sc, n, from, len) !! Opened(StartMinute(n, from), len)
    ensures MinutesBefore(sc, n + 1, from, len)
         == if WeekdayActive(sc, n) then MinutesBefore(sc, n, from, len) + Opened(StartMinute(n, from), len)
            else MinutesBefore(sc, n, from, len)
  {
    forall m | m in MinutesBefore(sc, n, from, len)
      ensures m !in Opened(StartMinute(n, from), len)
    {
      var d :| 0 <= d < n && WeekdayActive(sc, d) && Offset(m, StartMinute(d, from)) < len;
      if m in Opened(StartMinute(n, from), len) {
        OpenedApart(d, n, from, len, m);
      }
    }
  }

  lemma OneMoreDayCounts(sc: Schedule, n: nat, from: int, len: nat)
    requires n < 7 && len <= 1440
    ensures |MinutesBefore(sc, n + 1, from, len)|
         == |MinutesBefore(sc, n, from, len)| + if WeekdayActive(sc, n) then len else 0
  {
    OneMoreDay(sc, n, from, len);
    OpenedSize(StartMinute(n, from), len);
  }

  lemma OneMoreDayActive(sc: Schedule, n: nat)
    ensures |DaysBefore(sc, n + 1)| == |DaysBefore(sc, n)| + if WeekdayActive(sc, n) then 1 else 0
  {
    var days := DaysBefore(sc, n);
    assert DaysBefore(sc, n + 1) == if WeekdayActive(sc, n) then days + {n} else days;
  }

  lemma {:induction false} CountMinutes(sc: Schedule, n: nat, from: int, len: nat)
    requires n <= 7 && len <= 1440
    ensures |MinutesBefore(sc, n, from, len)| == |DaysBefore(sc, n)| * len
  {
    if n == 0 {
      assert MinutesBefore(sc, 0, from, len) == {};
      assert DaysBefore(sc, 0) == {};
    } else {
      CountMinutes(sc, n - 1, from, len);
      OneMoreDayCounts(sc, n - 1, from, len);
      OneMoreDayActive(sc, n - 1);
      AddOne(|DaysBefore(sc, n - 1)|, len);
    }
  }

  lemma AddOne(k: int, len: int)
    ensures (k + 1) * len == k * len + len
  {
  }

  /** The days the list names; no list names them all. */
  function ListedDays(sc: Schedule): set<int> {
    if sc.weekdays == [] then {0, 1, 2, 3, 4, 5, 6} else set d | d in sc.weekdays
  }

  lemma DaysAreListed(sc: Schedule)
    requires forall i | 0 <= i < |sc.weekdays| :: 0 <= sc.weekdays[i] <= 6
    ensures DaysBefore(sc, 7) == ListedDays(sc)
  {
    forall d
      ensures d in DaysBefore(sc, 7) <==> d in ListedDays(sc)
    {
    }
  }

  /** A valid one-window schedule is on for exactly listed days times window length minutes a week. */
  lemma MinutesPerWeek(sc: Schedule, zoneKnown: string -> bool)
    requires WellFormed(sc, zoneKnown) && |sc.windows| == 1
    ensures var f, t := TimeOfDay(sc.windows[0].from).value, TimeOfDay(sc.windows[0].to).value;
      var len := if f < t then t - f else t - f + 1440;
      && 0 < len < 1440
      && |set m | 0 <= m < 10080 && On(sc, m)| == |ListedDays(sc)| * len
  {
    assert ValidWindow(sc.windows[0]);
    var f, t := TimeOfDay(sc.windows[0].from).value, TimeOfDay(sc.windows[0].to).value;
    CountMinutes(sc, 7, f, Span(f, t));
    forall m | 0 <= m < 10080
      ensures On(sc, m) <==> OpenedBefore(sc, 7, f, Span(f, t), m)
    {
      OnlyWindow(sc, m, f, t);
    }
    assert (set m | 0 <= m < 10080 && On(sc, m)) == MinutesBefore(sc, 7, f, Span(f, t));
    DaysAreListed(sc);
  }

  lemma OnlyWindow(sc: Schedule, m: int, f: int, t: int)
    requires |sc.windows| == 1
    requires TimeOfDay(sc.windows[0].from) == Some(f) && TimeOfDay(sc.windows[0].to) == Some(t)
    ensures On(sc, m) <==> OpenedBefore(sc, 7, f, Span(f, t), m)
  {
  }

  // ------------------------------------------------- the meaning spelled out

  /** `m` is `k` minutes into the opening of window `w` on `day`. */
  predicate Into(w: TimeWindow, day: int, k: int, m: int) {
    && TimeOfDay(w.from).Some? && TimeOfDay(w.to).Some?
    && var f, t := TimeOfDay(w.from).value, TimeOfDay(w.to).value;
       && 0 <= k < (if f <= t then t - f else t - f + 1440)
       && m == (day * 1440 + f + k) % 10080
  }

  /** Window `i`, opened on a day the list names, has been open for `k` minutes at `m`. */
  predicate OpenFor(sc: Schedule, i: int, day: int, k: int, m: int) {
    0 <= i < |sc.windows| && 0 <= day < 7 && (sc.weekdays == [] || day in sc.weekdays) && Into(sc.windows[i], day, k, m)
  }

  /** On exactly in the minutes that follow an opening on a listed day, each window for its own length. */
  lemma OnSpelledOut(sc: Schedule, m: int)
    requires 0 <= m < 10080
    ensures On(sc, m) <==> exists i, day, k :: OpenFor(sc, i, day, k, m)
  {
    if On(sc, m) {
      var i, day :| 0 <= i < |sc.windows| && 0 <= day < 7 && WeekdayActive(sc, day) && OpenFrom(sc.windows[i], day, m);
      OpenSpelledOut(sc.windows[i], day, m);
      var k :| Into(sc.windows[i], day, k, m);
      assert OpenFor(sc, i, day, k, m);
    }
    if i, day, k :| OpenFor(sc, i, day, k, m) {
      OpenSpelledOut(sc.windows[i], day, m);
      assert WeekdayActive(sc, day) && OpenFrom(sc.windows[i], day, m);
    }
  }

  lemma OpenSpelledOut(w: TimeWindow, day: int, m: int)
    requires 0 <= m < 10080
    ensures OpenFrom(w, day, m) <==> exists k :: Into(w, day, k, m)
  {
    if TimeOfDay(w.from).Some? && TimeOfDay(w.to).Some? {
      var start := StartMinute(day, TimeOfDay(w.from).value);
      OffsetRoundTrip(m, start, Offset(m, start));
      if OpenFrom(w, day, m) {
        assert Into(w, day, Offset(m, start), m);
      }
      if k :| Into(w, day, k, m) {
        OffsetRoundTrip(m, start, k);
      }
    }
  }

  lemma OffsetRoundTrip(m: int, start: int, k: int)
    requires 0 <= m < 10080 && 0 <= k < 10080
    ensures Offset(m, start) == k <==> m == (start + k) % 10080
  {
    var q := (m - start) / 10080;
    var r := (start + k) / 10080;
    assert m - start == 10080 * q + (m - start) % 10080;
    assert start + k == 10080 * r + (start + k) % 10080;
  }

  // ------------------------------------------------------ reading the clock

  function Digit(d: int): char
    requires 0 <= d < 10
  {
    '0' + d as char
  }

  /** A time of day as it is written. */
  function ClockText(h: int, m: int): string
    requires 0 <= h < 24 && 0 <= m < 60
  {
    [Digit(h / 10), Digit(h % 10), ':', Digit(m / 10), Digit(m % 10)]
  }

  lemma TwoDigits(s: string)
    requires |s| == 2 && AllDigits(s)
    ensures Decimal(s) == 10 * (s[0] as int - '0' as int) + (s[1] as int - '0' as int)
  {
    assert s[..1][..0] == "";
    assert s[..1][0] == s[0];
    assert Decimal(s[..1]) == s[0] as int - '0' as int;
  }

  /** Every written time of day, whatever space surrounds it, is read as its minute. */
  lemma ClockIsRead(before: string, h: int, m: int, after: string)
    requires 0 <= h < 24 && 0 <= m < 60
    requires forall i | 0 <= i < |before| :: IsSpace(before[i])
    requires forall i | 0 <= i < |after| :: IsSpace(after[i])
    ensures TimeOfDay(before + ClockText(h, m) + after) == Some(60 * h + m)
  {
    var t := ClockText(h, m);
    TrimAround(before, t, after);
    assert t[..2] == [Digit(h / 10), Digit(h % 10)] && t[3..] == [Digit(m / 10), Digit(m % 10)];
    TwoDigits(t[..2]);
    TwoDigits(t[3..]);
  }

  lemma {:induction false} TrimAround(before: string, t: string, after: string)
    requires t != "" && !IsSpace(t[0]) && !IsSpace(t[|t| - 1])
    requires forall i | 0 <= i < |before| :: IsSpace(before[i])
    requires forall i | 0 <= i < |after| :: IsSpace(after[i])
    ensures TrimSpace(before + t + after) == t
    decreases |before| + |after|
  {
    var s := before + t + after;
    if before != "" {
      assert s[1..] == before[1..] + t + after;
      TrimAround(before[1..], t, after);
    } else if after != "" {
      assert s[0] == t[0] && s[|s| - 1] == after[|after| - 1];
      assert s[..|s| - 1] == before + t + after[..|after| - 1];
      TrimAround(before, t, after[..|after| - 1]);
    } else {
      assert s == t;
    }
  }

  /** And nothing else is read. */
  lemma OnlyClocksAreRead(s: string)
    requires TimeOfDay(s).Some?
    ensures exists h, m :: 0 <= h < 24 && 0 <= m < 60 && TrimSpace(s) == ClockText(h, m)
  {
    var t := TrimSpace(s);
    var h, m := Decimal(t[..2]), Decimal(t[3..]);
    TwoDigits(t[..2]);
    TwoDigits(t[3..]);
    DigitsOf(t[0], t[1], h);
    DigitsOf(t[3], t[4], m);
    assert t == [t[0], t[1], t[2], t[3], t[4]];
    assert t == ClockText(h, m);
  }

  lemma DigitsOf(a: char, b: char, n: int)
    requires IsDigit(a) && IsDigit(b) && n == 10 * (a as int - '0' as int) + (b as int - '0' as int) && n < 60
    ensures a == Digit(n / 10) && b == Digit(n % 10)
  {
    assert n / 10 == a as int - '0' as int;
    assert n % 10 == b as int - '0' as int;
  }
}
