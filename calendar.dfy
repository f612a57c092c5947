/**
 * The calendar tool server's scheduling logic: clock-text arithmetic, the
 * duration text, the gap finder behind the free-slot search, slot quality,
 * schedule adherence, and the listening schedule it keeps (adding a session,
 * listing the active ones in week order, finding free slots).
 */
module Calendar {
  import opened Wrappers
  import opened Text
  import opened Sorting

  const DayNames: seq<string> := ["monday", "tuesday", "wednesday", "thursday", "friday", "saturday", "sunday"]
  const Weekdays: seq<string> := ["monday", "tuesday", "wednesday", "thursday", "friday"]

  /** One entry of the listening schedule, without its clock-derived id and creation time. */
  datatype Session = Session(
    day: string,
    startTime: string,
    durationMinutes: int,
    title: string,
    recurring: bool,
    active: bool)

  function Larger(a: int, b: int): int {
    if a >= b then a else b
  }

  // ----- clock text -----

  /** `_time_to_minutes`: "H:M" as H*60+M; None where the text does not split into two integers. */
  function TimeToMinutes(s: string): Option<int> {
    var parts := Split(s, ':');
    if |parts| != 2 then None
    else
      match (ParseInt(parts[0]), ParseInt(parts[1]))
      case (Some(h), Some(m)) => Some(h * 60 + m)
      case _ => None
  }

  /** `f"{i:02d}"`: zero-padded to two digits; a negative number keeps its sign and is not padded. */
  function Format02(i: int): string {
    if i >= 0 then Pad2(i) else "-" + NatToString(-i)
  }

  /** `_minutes_to_time`: floor division and floor remainder by 60, each written with `02d`. */
  function MinutesToTime(m: int): string {
    Format02(m / 60) + ":" + Format02(m % 60)
  }

  lemma Format02ReadsBack(i: int)
    ensures ':' !in Format02(i)
    ensures ParseInt(Format02(i)) == Some(i)
  {
    if i >= 0 {
      ParsePad2(i);
      DigitsHaveNo(Pad2(i), ':');
      assert Pad2(i)[0] != '-' && Pad2(i)[0] != '+';
    } else {
      DigitsHaveNo(NatToString(-i), ':');
      assert Format02(i) == ['-'] + NatToString(-i);
      ParseIntToString(i);
    }
  }

  /** Writing a number of minutes as clock text and reading it back gives the number again, for every integer. */
  lemma MinutesToTimeReadsBack(m: int)
    ensures TimeToMinutes(MinutesToTime(m)) == Some(m)
  {
    var a, b := Format02(m / 60), Format02(m % 60);
    Format02ReadsBack(m / 60);
    Format02ReadsBack(m % 60);
    SplitPair(a, ':', b);
    assert MinutesToTime(m) == a + [':'] + b;
  }

  /** The text `strptime(s, "%H:%M")` accepts: one or two digits of hour up to 23, a colon, one or two digits of minute up to 59. */
  predicate ClockField(s: string, max: nat) {
    1 <= |s| <= 2 && AllDigits(s) && DigitsValue(s) <= max
  }

  predicate ClockText(s: string) {
    var parts := Split(s, ':');
    |parts| == 2 && ClockField(parts[0], 23) && ClockField(parts[1], 59)
  }

  /** Accepted clock text reads as a minute of the day. */
  lemma ClockTextMinutes(s: string)
    requires ClockText(s)
    ensures TimeToMinutes(s).Some? && 0 <= TimeToMinutes(s).value < 1440
  {
    var parts := Split(s, ':');
    assert parts[0][0] != '-' && parts[0][0] != '+';
    assert parts[1][0] != '-' && parts[1][0] != '+';
  }

  /** A minute of the day is written as accepted clock text. */
  lemma RenderedTimeIsClock(m: int)
    requires 0 <= m < 1440
    ensures ClockText(MinutesToTime(m))
  {
    var h, r := m / 60, m % 60;
    Format02ReadsBack(h);
    Format02ReadsBack(r);
    SplitPair(Format02(h), ':', Format02(r));
    assert MinutesToTime(m) == Format02(h) + [':'] + Format02(r);
    ParsePad2(h);
    ParsePad2(r);
    if h >= 10 {
      assert NatToString(h) == NatToString(h / 10) + [DigitChar(h % 10)];
    }
    if r >= 10 {
      assert NatToString(r) == NatToString(r / 10) + [DigitChar(r % 10)];
    }
  }

  // ----- duration text -----

  /** `_format_duration_minutes`: "<m>m" under an hour, "<h>h" on a whole hour, "<h>h <m>m" otherwise. */
  function FormatDurationMinutes(minutes: int): string {
    if minutes < 60 then IntToString(minutes) + "m"
    else
      var hours, rest := minutes / 60, minutes % 60;
      if rest == 0 then NatToString(hours) + "h" else NatToString(hours) + "h " + NatToString(rest) + "m"
  }

  /** The duration text reads back as the number of minutes, for every integer. */
  lemma FormatDurationMinutesReadsBack(minutes: int)
    ensures ParseDurationText(FormatDurationMinutes(minutes)) == Some(minutes)
  {
    if minutes < 60 {
      ParseMinutesText(minutes);
    } else if minutes % 60 == 0 {
      ParseHoursText(minutes / 60);
    } else {
      ParseHoursMinutesText(minutes / 60, minutes % 60);
    }
  }

  lemma DurationTextShapes()
    ensures FormatDurationMinutes(45) == "45m"
    ensures FormatDurationMinutes(120) == "2h"
    ensures FormatDurationMinutes(90) == "1h 30m"
  {
    assert NatToString(45) == "45" && NatToString(30) == "30";
  }

  // ----- quality and adherence -----

  /** The hour bonus of `_calculate_time_quality`, in tenths; the first matching range wins, so 19 counts as commute. */
  function HourBonus(hour: int): int {
    if 7 <= hour <= 9 then 3
    else if 12 <= hour <= 14 then 2
    else if 17 <= hour <= 19 then 3
    else if 19 <= hour <= 21 then 2
    else 0
  }

  /** The quality of a start hour on a day, in tenths: base 5, 2 more on weekdays, then the hour bonus, at most 10. */
  function QualityAt(day: string, hour: int): int {
    var score := 5 + (if Lower(day) in Weekdays then 2 else 0) + HourBonus(hour);
    if score < 10 then score else 10
  }

  /** `_calculate_time_quality` on a start text; None where its hour does not parse. */
  function TimeQuality(day: string, startTime: string): Option<int> {
    match ParseInt(Split(startTime, ':')[0])
    case None => None
    case Some(hour) => Some(QualityAt(day, hour))
  }

  /**
   * The score is the base plus the weekday bonus plus 3 in the morning and
   * commute hours (7-9, 17-19) or 2 at lunch and in the evening (12-14,
   * 20-21); it lies between 5 and 10 and never needs the cap.
   */
  lemma QualityTable(day: string, hour: int)
    ensures 5 <= QualityAt(day, hour) <= 10
    ensures QualityAt(day, hour)
            == 5 + (if Lower(day) in Weekdays then 2 else 0)
               + (if 7 <= hour <= 9 || 17 <= hour <= 19 then 3
                  else if 12 <= hour <= 14 || 20 <= hour <= 21 then 2 else 0)
  {
  }

  /** A slot's quality read from its written start time is that of its start hour. */
  lemma QualityOfRenderedTime(day: string, m: int)
    ensures TimeQuality(day, MinutesToTime(m)) == Some(QualityAt(day, m / 60))
  {
    Format02ReadsBack(m / 60);
    Format02ReadsBack(m % 60);
    SplitPair(Format02(m / 60), ':', Format02(m % 60));
    assert MinutesToTime(m) == Format02(m / 60) + [':'] + Format02(m % 60);
  }

  /** The sessions an adherence rate expects: active and recurring ones. */
  function CountScheduled(s: seq<Session>): nat
    decreases |s|
  {
    if s == [] then 0 else (if s[0].active && s[0].recurring then 1 else 0) + CountScheduled(s[1..])
  }

  /**
   * `_calculate_adherence_rate`: no schedule gives 0; no expected session
   * gives 1 without history and 0 with it; otherwise the sessions held
   * over four weeks of the expected ones, at most 1.
   */
  function AdherenceRate(schedule: seq<Session>, actual: nat): real {
    if schedule == [] then 0.0
    else
      var n := CountScheduled(schedule);
      if n == 0 then (if actual == 0 then 1.0 else 0.0)
      else
        var rate := (actual as real) / ((n * 4) as real);
        if rate < 1.0 then rate else 1.0
  }

  lemma RatioAtLeastOne(a: real, d: real)
    requires d > 0.0
    ensures a / d >= 1.0 <==> a >= d
  {
    assert (a / d) * d == a;
  }

  /** The rate is a fraction, full exactly when four weeks' worth of sessions were held. */
  lemma AdherenceMeaning(schedule: seq<Session>, actual: nat)
    ensures 0.0 <= AdherenceRate(schedule, actual) <= 1.0
    ensures schedule == [] ==> AdherenceRate(schedule, actual) == 0.0
    ensures schedule != [] && CountScheduled(schedule) > 0 ==>
              (AdherenceRate(schedule, actual) == 1.0 <==> actual >= 4 * CountScheduled(schedule))
    ensures schedule != [] && CountScheduled(schedule) > 0 && AdherenceRate(schedule, actual) < 1.0 ==>
              AdherenceRate(schedule, actual) * ((4 * CountScheduled(schedule)) as real) == actual as real
    ensures schedule != [] && CountScheduled(schedule) == 0 ==>
              (AdherenceRate(schedule, actual) == 1.0 <==> actual == 0)
              && (AdherenceRate(schedule, actual) == 0.0 <==> actual > 0)
  {
    if schedule != [] && CountScheduled(schedule) > 0 {
      var n := CountScheduled(schedule);
      RatioAtLeastOne(actual as real, (n * 4) as real);
    }
  }

  // ----- the gap finder -----

  /** A free stretch, in minutes of the day. */
  datatype Gap = Gap(start: int, end: int)

  /**
   * The gap loop over events sorted by start: a gap before an event that
   * starts after the current time and is long enough, then the current time
   * moves to the later of itself and the event's end; at the end a gap up to
   * the window's end.
   */
  function GapsFrom(events: seq<(int, int)>, current: int, endMinutes: int, minDuration: int): seq<Gap>
    decreases |events|
  {
    if events == [] then
      (if endMinutes > current && endMinutes - current >= minDuration then [Gap(current, endMinutes)] else [])
    else
      var s, e := events[0].0, events[0].1;
      (if s > current && s - current >= minDuration then [Gap(current, s)] else [])
      + GapsFrom(events[1..], Larger(current, e), endMinutes, minDuration)
  }

  /** Every gap starts no earlier than the starting time, is not empty and is at least `minDuration` long. */
  lemma {:induction false} GapsBounds(events: seq<(int, int)>, current: int, endMinutes: int, minDuration: int)
    ensures forall g :: g in GapsFrom(events, current, endMinutes, minDuration) ==>
              g.start >= current && g.end > g.start && g.end - g.start >= minDuration
    decreases |events|
  {
    if events != [] {
      GapsBounds(events[1..], Larger(current, events[0].1), endMinutes, minDuration);
    }
  }

  /** Each gap ends no later than any later one starts. */
  predicate InOrder(gs: seq<Gap>) {
    forall i, j :: 0 <= i < j < |gs| ==> gs[i].end <= gs[j].start
  }

  /** With events that do not end before they start, the gaps come in order and do not overlap. */
  lemma {:induction false} GapsAscending(events: seq<(int, int)>, current: int, endMinutes: int, minDuration: int)
    requires forall k :: 0 <= k < |events| ==> events[k].0 <= events[k].1
    ensures InOrder(GapsFrom(events, current, endMinutes, minDuration))
    decreases |events|
  {
    if events != [] {
      var s, e := events[0].0, events[0].1;
      var next := Larger(current, e);
      var rest := GapsFrom(events[1..], next, endMinutes, minDuration);
      GapsAscending(events[1..], next, endMinutes, minDuration);
      GapsBounds(events[1..], next, endMinutes, minDuration);
      var first := if s > current && s - current >= minDuration then [Gap(current, s)] else [];
      assert GapsFrom(events, current, endMinutes, minDuration) == first + rest;
      forall g, h | g in first && h in rest ensures g.end <= h.start {
        assert g.end == s <= e <= next <= h.start;
      }
      InOrderConcat(first, rest);
    }
  }

  /** Two runs of ordered gaps, the first ending before the second starts, make one. */
  lemma InOrderConcat(first: seq<Gap>, rest: seq<Gap>)
    requires InOrder(first) && InOrder(rest)
    requires forall g, h :: g in first && h in rest ==> g.end <= h.start
    ensures InOrder(first + rest)
  {
    var gs := first + rest;
    forall i, j | 0 <= i < j < |gs| ensures gs[i].end <= gs[j].start {
      if j < |first| {
        assert gs[i] == first[i] && gs[j] == first[j];
      } else if i < |first| {
        assert gs[i] in first && gs[j] in rest;
      } else {
        assert gs[i] == rest[i - |first|] && gs[j] == rest[j - |first|];
      }
    }
  }

  /** With events sorted by start, no gap overlaps an event's interval. */
  lemma {:induction false} GapsAvoidEvents(events: seq<(int, int)>, current: int, endMinutes: int, minDuration: int)
    requires forall i, j :: 0 <= i < j < |events| ==> events[i].0 <= events[j].0
    ensures forall g, e :: g in GapsFrom(events, current, endMinutes, minDuration) && e in events ==>
              g.end <= e.0 || g.start >= e.1
    decreases |events|
  {
    if events != [] {
      var s, e := events[0].0, events[0].1;
      var next := Larger(current, e);
      var rest := GapsFrom(events[1..], next, endMinutes, minDuration);
      GapsAvoidEvents(events[1..], next, endMinutes, minDuration);
      GapsBounds(events[1..], next, endMinutes, minDuration);
      forall g, x | g in GapsFrom(events, current, endMinutes, minDuration) && x in events
        ensures g.end <= x.0 || g.start >= x.1
      {
        var k :| 0 <= k < |events| && events[k] == x;
        if g in rest {
          if k > 0 {
            assert x in events[1..];
          }
        } else {
          assert g == Gap(current, s);
        }
      }
    }
  }

  /** When no event starts after the window's end, every gap ends within the window. */
  lemma {:induction false} GapsWithinWindow(events: seq<(int, int)>, current: int, endMinutes: int, minDuration: int)
    requires forall k :: 0 <= k < |events| ==> events[k].0 <= endMinutes
    ensures forall g :: g in GapsFrom(events, current, endMinutes, minDuration) ==> g.end <= endMinutes
    decreases |events|
  {
    if events != [] {
      GapsWithinWindow(events[1..], Larger(current, events[0].1), endMinutes, minDuration);
    }
  }

  /** An event after the window's end stretches the last gap past it: 07:00-22:00 with an event at 23:00. */
  lemma GapPastWindowEnd()
    ensures GapsFrom([(1380, 1410)], 420, 1320, 30) == [Gap(420, 1380)]
  {
    assert [(1380, 1410)][1..] == [];
  }

  /** Python's tuple order on (start, end). */
  predicate EventLe(a: (int, int), b: (int, int)) {
    a.0 < b.0 || (a.0 == b.0 && a.1 <= b.1)
  }

  lemma EventOrder()
    ensures Total(EventLe) && Transitive(EventLe)
  {
  }

  /** The (start, end) pairs of a day's sessions, in schedule order; None where a start time does not parse. */
  function EventsOf(day: seq<Session>): Option<seq<(int, int)>>
    decreases |day|
  {
    if day == [] then Some([])
    else
      match EventsOf(day[..|day| - 1])
      case None => None
      case Some(es) =>
        var last := day[|day| - 1];
        match TimeToMinutes(last.startTime)
        case None => None
        case Some(t) => Some(es + [(t, t + last.durationMinutes)])
  }

  lemma {:induction false} EventsFailureSticks(day: seq<Session>, k: nat)
    requires k <= |day| && EventsOf(day[..k]).None?
    ensures EventsOf(day).None?
    decreases |day|
  {
    if k < |day| {
      var init := day[..|day| - 1];
      assert init[..k] == day[..k];
      EventsFailureSticks(init, k);
    } else {
      assert day[..k] == day;
    }
  }

  lemma {:induction false} EventsDontRunBackwards(day: seq<Session>)
    requires forall x :: x in day ==> x.durationMinutes >= 0
    ensures EventsOf(day).Some? ==> forall e :: e in EventsOf(day).value ==> e.0 <= e.1
    decreases |day|
  {
    if day != [] {
      assert forall x :: x in day[..|day| - 1] ==> x in day;
      EventsDontRunBackwards(day[..|day| - 1]);
    }
  }

  /** `_find_time_gaps` on a day's sessions: the window is parsed, the events are parsed and sorted, and the gaps found. */
  function TimeGaps(day: seq<Session>, startTime: string, endTime: string, minDuration: int): Option<seq<Gap>> {
    var a, b, events := TimeToMinutes(startTime), TimeToMinutes(endTime), EventsOf(day);
    if a.Some? && b.Some? && events.Some? then Some(GapsFrom(SortBy(events.value, EventLe), a.value, b.value, minDuration))
    else None
  }

  /** The gap properties on the sorted events, stated over the unsorted ones. */
  lemma SortedGapsMeaning(events: seq<(int, int)>, a: int, b: int, minDuration: int)
    ensures var gs := GapsFrom(SortBy(events, EventLe), a, b, minDuration);
      (forall g :: g in gs ==> a <= g.start < g.end && g.end - g.start >= minDuration)
      && (forall g, e :: g in gs && e in events ==> g.end <= e.0 || g.start >= e.1)
      && ((forall e :: e in events ==> e.0 <= e.1) ==> InOrder(gs))
      && ((forall e :: e in events ==> e.0 <= b) ==> forall g :: g in gs ==> g.end <= b)
  {
    var sorted := SortBy(events, EventLe);
    EventOrder();
    SortIsOrdered(events, EventLe);
    SortIsPermutation(events, EventLe);
    assert forall k :: 0 <= k < |sorted| ==> sorted[k] in events by {
      forall k | 0 <= k < |sorted| ensures sorted[k] in events {
        assert sorted[k] in multiset(sorted);
      }
    }
    assert forall e :: e in events ==> e in sorted by {
      forall e | e in events ensures e in sorted {
        assert e in multiset(events);
      }
    }
    GapsBounds(sorted, a, b, minDuration);
    GapsAvoidEvents(sorted, a, b, minDuration);
    if forall e :: e in events ==> e.0 <= e.1 {
      GapsAscending(sorted, a, b, minDuration);
    }
    if forall e :: e in events ==> e.0 <= b {
      GapsWithinWindow(sorted, a, b, minDuration);
    }
  }

  /**
   * The gap finder's promises on a day: each gap starts within the window,
   * is at least `minDuration` long and overlaps no session; with no negative
   * durations the gaps come in order; and they end within the window when no
   * session starts after it.
   */
  lemma TimeGapsMeaning(day: seq<Session>, startTime: string, endTime: string, minDuration: int)
    ensures var r := TimeGaps(day, startTime, endTime, minDuration);
      r.Some? <==> TimeToMinutes(startTime).Some? && TimeToMinutes(endTime).Some? && EventsOf(day).Some?
    ensures var r := TimeGaps(day, startTime, endTime, minDuration);
      r.Some? ==>
        var a, b, events := TimeToMinutes(startTime).value, TimeToMinutes(endTime).value, EventsOf(day).value;
        (forall g :: g in r.value ==> a <= g.start < g.end && g.end - g.start >= minDuration)
        && (forall g, e :: g in r.value && e in events ==> g.end <= e.0 || g.start >= e.1)
        && ((forall x :: x in day ==> x.durationMinutes >= 0) ==>
              InOrder(r.value))
        && ((forall e :: e in events ==> e.0 <= b) ==> forall g :: g in r.value ==> g.end <= b)
  {
    if TimeGaps(day, startTime, endTime, minDuration).Some? {
      SortedGapsMeaning(EventsOf(day).value, TimeToMinutes(startTime).value, TimeToMinutes(endTime).value, minDuration);
      if forall x :: x in day ==> x.durationMinutes >= 0 {
        EventsDontRunBackwards(day);
      }
    }
  }

  // ----- the listening schedule -----

  predicate ValidDay(day: string) {
    Lower(day) in DayNames
  }

  /** The week position of a day name; 7 for a name outside the week, which the listing refuses. */
  function DayRank(day: string): nat {
    if day == "monday" then 0 else if day == "tuesday" then 1 else if day == "wednesday" then 2
    else if day == "thursday" then 3 else if day == "friday" then 4 else if day == "saturday" then 5
    else if day == "sunday" then 6 else 7
  }

  /** Python's string order: lexicographic by code point. */
  predicate TextLe(a: string, b: string)
    decreases |a|
  {
    a == [] || (b != [] && (a[0] < b[0] || (a[0] == b[0] && TextLe(a[1..], b[1..]))))
  }

  lemma {:induction false} TextLeTotal(a: string, b: string)
    ensures TextLe(a, b) || TextLe(b, a)
    decreases |a|
  {
    if a != [] && b != [] && a[0] == b[0] {
      TextLeTotal(a[1..], b[1..]);
    }
  }

  lemma {:induction false} TextLeTransitive(a: string, b: string, c: string)
    requires TextLe(a, b) && TextLe(b, c)
    ensures TextLe(a, c)
    decreases |a|
  {
    if a != [] && a[0] == b[0] && b[0] == c[0] {
      TextLeTransitive(a[1..], b[1..], c[1..]);
    }
  }

  /** The listing's sort key (weekday position, start text), compared as Python compares tuples. */
  predicate SessionLe(a: Session, b: Session) {
    DayRank(a.day) < DayRank(b.day) || (DayRank(a.day) == DayRank(b.day) && TextLe(a.startTime, b.startTime))
  }

  lemma SessionOrder()
    ensures Total(SessionLe) && Transitive(SessionLe)
  {
    forall a: Session, b: Session ensures SessionLe(a, b) || SessionLe(b, a) {
      TextLeTotal(a.startTime, b.startTime);
    }
    forall a: Session, b: Session, c: Session | SessionLe(a, b) && SessionLe(b, c) ensures SessionLe(a, c) {
      if DayRank(a.day) == DayRank(b.day) == DayRank(c.day) {
        TextLeTransitive(a.startTime, b.startTime, c.startTime);
      }
    }
  }

  function ActiveOf(s: seq<Session>): seq<Session>
    decreases |s|
  {
    if s == [] then [] else (if s[0].active then [s[0]] else []) + ActiveOf(s[1..])
  }

  function RecurringMinutes(s: seq<Session>): int
    decreases |s|
  {
    if s == [] then 0 else (if s[0].recurring then s[0].durationMinutes else 0) + RecurringMinutes(s[1..])
  }

  /** What `_get_listening_schedule` answers, without the clock-dependent next session. */
  datatype Listing = Listing(schedule: seq<Session>, totalWeeklyMinutes: int, formattedTotal: string) | ListingFailed

  /** The active sessions in week order, their recurring minutes and that total as text; a day outside the week raises. */
  function ListingOf(schedule: seq<Session>): Listing {
    var active := ActiveOf(schedule);
    if exists k :: 0 <= k < |active| && active[k].day !in DayNames then ListingFailed
    else
      var sorted := SortBy(active, SessionLe);
      var total := RecurringMinutes(sorted);
      Listing(sorted, total, FormatDurationMinutes(total))
  }

  lemma {:induction false} ActiveOfMembers(s: seq<Session>)
    ensures forall x :: x in ActiveOf(s) <==> x in s && x.active
    decreases |s|
  {
    if s != [] {
      ActiveOfMembers(s[1..]);
      assert s == [s[0]] + s[1..];
    }
  }

  /**
   * The listing holds exactly the active sessions, ordered by weekday and then
   * by start text, with the recurring ones' minutes as the total; it fails
   * exactly when an active session names a day outside the week.
   */
  lemma ListingMeaning(schedule: seq<Session>)
    ensures ListingOf(schedule).ListingFailed? <==> exists x :: x in schedule && x.active && x.day !in DayNames
    ensures var l := ListingOf(schedule);
      l.Listing? ==>
        multiset(l.schedule) == multiset(ActiveOf(schedule))
        && (forall x :: x in l.schedule <==> x in schedule && x.active)
        && (forall i, j :: 0 <= i < j < |l.schedule| ==> SessionLe(l.schedule[i], l.schedule[j]))
        && l.totalWeeklyMinutes == RecurringMinutes(l.schedule)
        && ParseDurationText(l.formattedTotal) == Some(l.totalWeeklyMinutes)
  {
    var active := ActiveOf(schedule);
    ActiveOfMembers(schedule);
    if exists x :: x in schedule && x.active && x.day !in DayNames {
      var x :| x in schedule && x.active && x.day !in DayNames;
      assert x in active;
    }
    var l := ListingOf(schedule);
    if l.Listing? {
      SessionOrder();
      SortIsOrdered(active, SessionLe);
      SortIsPermutation(active, SessionLe);
      assert forall x :: x in l.schedule <==> x in multiset(l.schedule);
      FormatDurationMinutesReadsBack(l.totalWeeklyMinutes);
    }
  }

  // ----- free slots -----

  /** One free slot as `_get_available_time_slots` reports it; the quality is in tenths. */
  datatype Slot = Slot(day: string, startTime: string, endTime: string, durationMinutes: int, quality: int)

  function SlotOf(day: string, g: Gap): Slot {
    Slot(day, MinutesToTime(g.start), MinutesToTime(g.end), g.end - g.start, QualityAt(day, g.start / 60))
  }

  function SlotQuality(s: Slot): real {
    s.quality as real
  }

  /** The active sessions on a day, by lower-cased name. */
  function DaySessions(schedule: seq<Session>, day: string): seq<Session>
    decreases |schedule|
  {
    if schedule == [] then []
    else
      var last := schedule[|schedule| - 1];
      DaySessions(schedule[..|schedule| - 1], day) + (if last.day == Lower(day) && last.active then [last] else [])
  }

  function DaySlots(day: string, gaps: seq<Gap>): seq<Slot>
    decreases |gaps|
  {
    if gaps == [] then [] else DaySlots(day, gaps[..|gaps| - 1]) + [SlotOf(day, gaps[|gaps| - 1])]
  }

  /** The slots of the preferred days in order; None where a time does not parse. */
  function SlotsFor(schedule: seq<Session>, days: seq<string>, startTime: string, endTime: string, minDuration: int): Option<seq<Slot>>
    decreases |days|
  {
    if days == [] then Some([])
    else
      match SlotsFor(schedule, days[..|days| - 1], startTime, endTime, minDuration)
      case None => None
      case Some(slots) =>
        var day := days[|days| - 1];
        match TimeGaps(DaySessions(schedule, day), startTime, endTime, minDuration)
        case None => None
        case Some(gaps) => Some(slots + DaySlots(day, gaps))
  }

  datatype SlotReport = Slots(available: seq<Slot>, totalFound: nat) | SlotsFailed

  function Top<T>(s: seq<T>, n: nat): seq<T> {
    if |s| <= n then s else s[..n]
  }

  /** The best ten slots by quality (ties in day and time order) and how many there were. */
  function SlotReportOf(schedule: seq<Session>, days: seq<string>, startTime: string, endTime: string, minDuration: int): SlotReport {
    match SlotsFor(schedule, days, startTime, endTime, minDuration)
    case None => SlotsFailed
    case Some(all) => Slots(Top(SortDescending(all, SlotQuality), 10), |all|)
  }

  lemma {:induction false} DaySlotsMembers(day: string, gaps: seq<Gap>, minDuration: int)
    requires forall g :: g in gaps ==> g.end - g.start >= minDuration
    ensures forall s :: s in DaySlots(day, gaps) ==> s.day == day && s.durationMinutes >= minDuration && 5 <= s.quality <= 10
    decreases |gaps|
  {
    if gaps != [] {
      var g := gaps[|gaps| - 1];
      assert g in gaps;
      assert forall x :: x in gaps[..|gaps| - 1] ==> x in gaps;
      DaySlotsMembers(day, gaps[..|gaps| - 1], minDuration);
      QualityTable(day, g.start / 60);
    }
  }

  lemma {:induction false} SlotsForMembers(schedule: seq<Session>, days: seq<string>, startTime: string, endTime: string, minDuration: int)
    ensures var r := SlotsFor(schedule, days, startTime, endTime, minDuration);
      r.Some? ==> forall s :: s in r.value ==> s.day in days && s.durationMinutes >= minDuration && 5 <= s.quality <= 10
    decreases |days|
  {
    if days != [] {
      var init, day := days[..|days| - 1], days[|days| - 1];
      SlotsForMembers(schedule, init, startTime, endTime, minDuration);
      var gaps := TimeGaps(DaySessions(schedule, day), startTime, endTime, minDuration);
      if gaps.Some? {
        TimeGapsMeaning(DaySessions(schedule, day), startTime, endTime, minDuration);
        DaySlotsMembers(day, gaps.value, minDuration);
      }
      assert forall d :: d in init ==> d in days;
    }
  }

  lemma {:induction false} SlotsForFailureSticks(schedule: seq<Session>, days: seq<string>, k: nat, startTime: string, endTime: string, minDuration: int)
    requires k <= |days| && SlotsFor(schedule, days[..k], startTime, endTime, minDuration).None?
    ensures SlotsFor(schedule, days, startTime, endTime, minDuration).None?
    decreases |days|
  {
    if k < |days| {
      var init := days[..|days| - 1];
      assert init[..k] == days[..k];
      SlotsForFailureSticks(schedule, init, k, startTime, endTime, minDuration);
    } else {
      assert days[..k] == days;
    }
  }

  /**
   * The first `n` of a list sorted by `key`, highest first: `n` items (all,
   * when there are fewer), drawn from the list, in descending order, and
   * none of the items left out ranks above a kept one.
   */
  lemma TopKeepsBest<T(!new)>(all: seq<T>, key: T -> real, n: nat)
    ensures var top := Top(SortDescending(all, key), n);
      |top| == (if |all| <= n then |all| else n)
      && multiset(top) <= multiset(all)
      && (forall i, j :: 0 <= i < j < |top| ==> key(top[i]) >= key(top[j]))
      && (forall d, t :: d in multiset(all) - multiset(top) && t in top ==> key(t) >= key(d))
  {
    var sorted := SortDescending(all, key);
    assert (forall i, j :: 0 <= i < j < |sorted| ==> key(sorted[i]) >= key(sorted[j]))
           && multiset(sorted) == multiset(all) by {
      SortDescendingMeaning(all, key);
    }
    TopOfSorted(sorted, all, key, n);
  }

  /** The first `n` of a descending arrangement of `all`. */
  lemma TopOfSorted<T>(sorted: seq<T>, all: seq<T>, key: T -> real, n: nat)
    requires forall i, j :: 0 <= i < j < |sorted| ==> key(sorted[i]) >= key(sorted[j])
    requires multiset(sorted) == multiset(all)
    ensures var top := Top(sorted, n);
      |top| == (if |all| <= n then |all| else n)
      && multiset(top) <= multiset(all)
      && (forall i, j :: 0 <= i < j < |top| ==> key(top[i]) >= key(top[j]))
      && (forall d, t :: d in multiset(all) - multiset(top) && t in top ==> key(t) >= key(d))
  {
    assert |sorted| == |all| by {
      assert |multiset(sorted)| == |multiset(all)|;
    }
    var m := if |sorted| <= n then |sorted| else n;
    var top, rest := sorted[..m], sorted[m..];
    assert Top(sorted, n) == top;
    assert multiset(all) - multiset(top) == multiset(rest) by {
      assert sorted == top + rest;
      assert multiset(all) == multiset(top) + multiset(rest);
    }
    HeadBeatsTail(sorted, key, m);
  }

  /** Cut a list in descending order: the head keeps the order and ranks no lower than anything in the tail. */
  lemma HeadBeatsTail<T>(sorted: seq<T>, key: T -> real, m: nat)
    requires m <= |sorted|
    requires forall i, j :: 0 <= i < j < |sorted| ==> key(sorted[i]) >= key(sorted[j])
    ensures forall i, j :: 0 <= i < j < |sorted[..m]| ==> key(sorted[..m][i]) >= key(sorted[..m][j])
    ensures forall d, t :: d in multiset(sorted[m..]) && t in sorted[..m] ==> key(t) >= key(d)
  {
    var top, rest := sorted[..m], sorted[m..];
    forall i, j | 0 <= i < j < |top| ensures key(top[i]) >= key(top[j]) {
      assert top[i] == sorted[i] && top[j] == sorted[j];
    }
    forall d, t | d in multiset(rest) && t in top ensures key(t) >= key(d) {
      var j :| 0 <= j < |rest| && rest[j] == d;
      var i :| 0 <= i < |top| && top[i] == t;
      assert sorted[m + j] == d && sorted[i] == t;
    }
  }

  /**
   * `top` is the best ten of `all` by quality: ten slots (all, when there
   * are fewer) drawn from `all`, best quality first, and no slot left out is
   * better than a kept one.
   */
  ghost predicate BestTen(all: seq<Slot>, top: seq<Slot>) {
    |top| == (if |all| <= 10 then |all| else 10)
    && multiset(top) <= multiset(all)
    && (forall i, j :: 0 <= i < j < |top| ==> top[i].quality >= top[j].quality)
    && (forall d, t :: d in multiset(all) - multiset(top) && t in top ==> t.quality >= d.quality)
  }

  /**
   * The free-slot answer: the report fails exactly when the slot search
   * does; otherwise the count of all slots found and the best ten of them.
   * Each kept slot was found for a preferred day, is at least `minDuration`
   * long, and has a quality between 5 and 10 tenths.
   */
  lemma SlotReportMeaning(schedule: seq<Session>, days: seq<string>, startTime: string, endTime: string, minDuration: int)
    ensures var r := SlotReportOf(schedule, days, startTime, endTime, minDuration);
      var found := SlotsFor(schedule, days, startTime, endTime, minDuration);
      (r.SlotsFailed? <==> found.None?)
      && (r.Slots? ==>
        r.totalFound == |found.value| && BestTen(found.value, r.available)
        && (forall s :: s in r.available ==>
              s in found.value && s.day in days && s.durationMinutes >= minDuration && 5 <= s.quality <= 10))
  {
    SlotsForMembers(schedule, days, startTime, endTime, minDuration);
    ReportOfFound(SlotsFor(schedule, days, startTime, endTime, minDuration),
                  SlotReportOf(schedule, days, startTime, endTime, minDuration), days, minDuration);
  }

  /** The report built from the slots found, whatever search found them. */
  lemma ReportOfFound(found: Option<seq<Slot>>, r: SlotReport, days: seq<string>, minDuration: int)
    requires r == (if found.None? then SlotsFailed else Slots(Top(SortDescending(found.value, SlotQuality), 10), |found.value|))
    requires found.Some? ==> forall s :: s in found.value ==> s.day in days && s.durationMinutes >= minDuration && 5 <= s.quality <= 10
    ensures (r.SlotsFailed? <==> found.None?)
      && (r.Slots? ==>
        r.totalFound == |found.value| && BestTen(found.value, r.available)
        && (forall s :: s in r.available ==>
              s in found.value && s.day in days && s.durationMinutes >= minDuration && 5 <= s.quality <= 10))
  {
    if found.Some? {
      TopKeepsBest(found.value, SlotQuality, 10);
      BestByQuality(found.value, r.available, days, minDuration);
    }
  }

  /** The best-first facts about a selection of found slots, read as facts about their quality. */
  lemma BestByQuality(all: seq<Slot>, top: seq<Slot>, days: seq<string>, minDuration: int)
    requires |top| == (if |all| <= 10 then |all| else 10)
    requires multiset(top) <= multiset(all)
    requires forall i, j :: 0 <= i < j < |top| ==> SlotQuality(top[i]) >= SlotQuality(top[j])
    requires forall d, t :: d in multiset(all) - multiset(top) && t in top ==> SlotQuality(t) >= SlotQuality(d)
    requires forall s :: s in all ==> s.day in days && s.durationMinutes >= minDuration && 5 <= s.quality <= 10
    ensures BestTen(all, top)
    ensures forall s :: s in top ==> s in all && s.day in days && s.durationMinutes >= minDuration && 5 <= s.quality <= 10
  {
    forall s | s in top ensures s in all {
      assert s in multiset(top);
    }
    forall i, j | 0 <= i < j < |top| ensures top[i].quality >= top[j].quality {
      assert SlotQuality(top[i]) >= SlotQuality(top[j]);
    }
    forall d, t | d in multiset(all) - multiset(top) && t in top ensures t.quality >= d.quality {
      assert SlotQuality(t) >= SlotQuality(d);
    }
  }

  /** A single-entry answer of the scheduling tool. */
  datatype Outcome = Outcome(success: bool, message: string)

  class CalendarServer {
    /** The listening schedule of the calendar file. */
    var schedule: seq<Session>

    /** The server over a schedule as loaded from its file. */
    constructor (schedule: seq<Session>)
      ensures this.schedule == schedule
    {
      this.schedule := schedule;
    }

    /**
     * `_schedule_listening_time`: a day outside the week (in any case) or a
     * start that is not clock text is refused and the schedule is unchanged;
     * otherwise exactly one active session is appended, with the day
     * lower-cased.
     */
    method ScheduleListeningTime(day: string, startTime: string, durationMinutes: int, title: string, recurring: bool)
      returns (answer: Outcome)
      modifies this
      ensures !ValidDay(day) ==> answer == Outcome(false, "Invalid day of week") && schedule == old(schedule)
      ensures ValidDay(day) && !ClockText(startTime) ==>
                answer == Outcome(false, "Invalid time format. Use HH:MM") && schedule == old(schedule)
      ensures ValidDay(day) && ClockText(startTime) ==>
                answer == Outcome(true, "Listening time scheduled for " + day + " at " + startTime)
                && schedule == old(schedule) + [Session(Lower(day), startTime, durationMinutes, title, recurring, true)]
    {
      if Lower(day) !in DayNames {
        return Outcome(false, "Invalid day of week");
      }
      if !ClockText(startTime) {
        return Outcome(false, "Invalid time format. Use HH:MM");
      }
      schedule := schedule + [Session(Lower(day), startTime, durationMinutes, title, recurring, true)];
      answer := Outcome(true, "Listening time scheduled for " + day + " at " + startTime);
    }

    /** `_get_listening_schedule` on the current schedule. */
    function GetListeningSchedule(): Listing
      reads this
    {
      ListingOf(schedule)
    }

    /** `_find_time_gaps`: the window, the event loop, the sort, then the gap loop. */
    method FindTimeGaps(day: seq<Session>, startTime: string, endTime: string, minDuration: int) returns (r: Option<seq<Gap>>)
      ensures r == TimeGaps(day, startTime, endTime, minDuration)
    {
      var a := TimeToMinutes(startTime);
      var b := TimeToMinutes(endTime);
      if a.None? || b.None? {
        return None;
      }
      var events := CollectEvents(day);
      if events.None? {
        return None;
      }
      var gaps := GapLoop(SortBy(events.value, EventLe), a.value, b.value, minDuration);
      r := Some(gaps);
    }

    /**
     * `_get_available_time_slots`: the window (07:00-22:00 unless given),
     * then for each preferred day the gaps among that day's active sessions,
     * each written as a slot, then the ten best by quality.
     */
    method GetAvailableTimeSlots(minDuration: int, preferredDays: seq<string>, timeRange: map<string, string>) returns (r: SlotReport)
      ensures r == SlotReportOf(schedule, preferredDays,
                                if "start" in timeRange then timeRange["start"] else "07:00",
                                if "end" in timeRange then timeRange["end"] else "22:00", minDuration)
    {
      var startTime := if "start" in timeRange then timeRange["start"] else "07:00";
      var endTime := if "end" in timeRange then timeRange["end"] else "22:00";
      var found := CollectSlots(preferredDays, startTime, endTime, minDuration);
      if found.None? {
        return SlotsFailed;
      }
      r := Slots(Top(SortDescending(found.value, SlotQuality), 10), |found.value|);
    }

    /** The day loop of `_get_available_time_slots`: the free slots of each preferred day in turn. */
    method CollectSlots(preferredDays: seq<string>, startTime: string, endTime: string, minDuration: int)
      returns (found: Option<seq<Slot>>)
      ensures found == SlotsFor(schedule, preferredDays, startTime, endTime, minDuration)
    {
      var all: seq<Slot> := [];
      var i := 0;
      while i < |preferredDays|
        invariant 0 <= i <= |preferredDays|
        invariant SlotsFor(schedule, preferredDays[..i], startTime, endTime, minDuration) == Some(all)
      {
        var day := preferredDays[i];
        assert preferredDays[..i + 1][..i] == preferredDays[..i] && preferredDays[..i + 1][i] == day;
        var gaps := FindTimeGaps(DaySessions(schedule, day), startTime, endTime, minDuration);
        if gaps.None? {
          SlotsForFailureSticks(schedule, preferredDays, i + 1, startTime, endTime, minDuration);
          return None;
        }
        assert SlotsFor(schedule, preferredDays[..i + 1], startTime, endTime, minDuration) == Some(all + DaySlots(day, gaps.value));
        all := AppendSlots(all, day, gaps.value);
        i := i + 1;
      }
      assert preferredDays[..i] == preferredDays;
      found := Some(all);
    }
  }

  /** The event loop of `_find_time_gaps`. */
  method CollectEvents(day: seq<Session>) returns (r: Option<seq<(int, int)>>)
    ensures r == EventsOf(day)
  {
    var events: seq<(int, int)> := [];
    var i := 0;
    while i < |day|
      invariant 0 <= i <= |day|
      invariant EventsOf(day[..i]) == Some(events)
    {
      assert day[..i + 1][..i] == day[..i] && day[..i + 1][i] == day[i];
      var t := TimeToMinutes(day[i].startTime);
      if t.None? {
        EventsFailureSticks(day, i + 1);
        return None;
      }
      events := events + [(t.value, t.value + day[i].durationMinutes)];
      i := i + 1;
    }
    assert day[..i] == day;
    r := Some(events);
  }

  lemma GapStep(events: seq<(int, int)>, k: nat, current: int, endMinutes: int, minDuration: int, gaps: seq<Gap>)
    requires k < |events|
    ensures var s, e := events[k].0, events[k].1;
      gaps + GapsFrom(events[k..], current, endMinutes, minDuration)
      == gaps + (if s > current && s - current >= minDuration then [Gap(current, s)] else [])
         + GapsFrom(events[k + 1..], Larger(current, e), endMinutes, minDuration)
  {
    assert events[k..][0] == events[k] && events[k..][1..] == events[k + 1..];
  }

  /** The gap loop of `_find_time_gaps` over the sorted events, then the gap at the end of the window. */
  method GapLoop(events: seq<(int, int)>, start: int, endMinutes: int, minDuration: int) returns (gaps: seq<Gap>)
    ensures gaps == GapsFrom(events, start, endMinutes, minDuration)
  {
    gaps := [];
    var current := start;
    var k := 0;
    while k < |events|
      invariant 0 <= k <= |events|
      invariant gaps + GapsFrom(events[k..], current, endMinutes, minDuration) == GapsFrom(events, start, endMinutes, minDuration)
    {
      var s, e := events[k].0, events[k].1;
      GapStep(events, k, current, endMinutes, minDuration, gaps);
      if s > current && s - current >= minDuration {
        gaps := gaps + [Gap(current, s)];
      } else {
        assert gaps + [] == gaps;
      }
      current := Larger(current, e);
      k := k + 1;
    }
    assert events[k..] == [];
    if endMinutes > current && endMinutes - current >= minDuration {
      gaps := gaps + [Gap(current, endMinutes)];
    }
  }

  lemma SlotsAppend(a: seq<Slot>, b: seq<Slot>, c: seq<Slot>)
    ensures a + b + c == a + (b + c)
  {
  }

  /** The slot loop of `_get_available_time_slots` for one day. */
  method AppendSlots(all: seq<Slot>, day: string, gaps: seq<Gap>) returns (r: seq<Slot>)
    ensures r == all + DaySlots(day, gaps)
  {
    r := all;
    var j := 0;
    while j < |gaps|
      invariant 0 <= j <= |gaps|
      invariant r == all + DaySlots(day, gaps[..j])
    {
      assert gaps[..j + 1][..j] == gaps[..j] && gaps[..j + 1][j] == gaps[j];
      assert DaySlots(day, gaps[..j + 1]) == DaySlots(day, gaps[..j]) + [SlotOf(day, gaps[j])];
      SlotsAppend(all, DaySlots(day, gaps[..j]), [SlotOf(day, gaps[j])]);
      r := r + [SlotOf(day, gaps[j])];
      j := j + 1;
    }
    assert gaps[..j] == gaps;
  }

  /** A session the scheduling tool accepted shows up in the next listing, unless another entry spoils it. */
  lemma ScheduledSessionIsListed(schedule: seq<Session>, day: string, startTime: string, durationMinutes: int, title: string, recurring: bool)
    requires ValidDay(day)
    ensures var x := Session(Lower(day), startTime, durationMinutes, title, recurring, true);
      var l := ListingOf(schedule + [x]);
      l.Listing? ==> x in l.schedule
  {
    var x := Session(Lower(day), startTime, durationMinutes, title, recurring, true);
    ListingMeaning(schedule + [x]);
  }
}
