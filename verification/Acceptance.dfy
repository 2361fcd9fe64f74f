/** Acceptance runs: the window of dates a run works in, and waiting for an import. */
module Acceptance {
  import opened Options

  // ---------------------------------------------------------------- the calendar

  /** Days of the Gregorian calendar are counted from Monday, 1 January of year 1. */
  type Day = int

  predicate IsLeap(y: int) { y % 4 == 0 && (y % 100 != 0 || y % 400 == 0) }

  /** 1 January of a year. */
  function YearStart(y: int): Day { 365 * (y - 1) + (y - 1) / 4 - (y - 1) / 100 + (y - 1) / 400 }

  lemma YearLength(y: int)
    ensures YearStart(y + 1) == YearStart(y) + if IsLeap(y) then 366 else 365
  {
    Every4(y);
    Every100(y);
    Every400(y);
    Divides(y);
  }

  lemma Every4(y: int)
    ensures y / 4 == (y - 1) / 4 + if y % 4 == 0 then 1 else 0
  {
  }

  lemma Every100(y: int)
    ensures y / 100 == (y - 1) / 100 + if y % 100 == 0 then 1 else 0
  {
  }

  lemma Every400(y: int)
    ensures y / 400 == (y - 1) / 400 + if y % 400 == 0 then 1 else 0
  {
  }

  lemma Divides(y: int)
    ensures y % 100 == 0 ==> y % 4 == 0
    ensures y % 400 == 0 ==> y % 100 == 0
  {
  }

  function Gap(d: Day, y: int): nat {
    if YearStart(y) <= d < YearStart(y + 1) then 0 else if d < YearStart(y) then YearStart(y) - d else d - YearStart(y)
  }

  function FindYear(d: Day, y: int): (r: int)
    ensures YearStart(r) <= d < YearStart(r + 1)
    decreases Gap(d, y)
  {
    YearLength(y - 1);
    YearLength(y);
    YearLength(y + 1);
    if d < YearStart(y) then FindYear(d, y - 1) else if YearStart(y + 1) <= d then FindYear(d, y + 1) else y
  }

  /** `getUTCFullYear`. */
  function YearOf(d: Day): (y: int)
    ensures YearStart(y) <= d < YearStart(y + 1)
  {
    FindYear(d, 1)
  }

  lemma {:induction false} YearStartRises(y: int, z: int)
    requires y < z
    ensures YearStart(y) + 365 <= YearStart(z)
    decreases z - y
  {
    YearLength(z - 1);
    if y < z - 1 {
      YearStartRises(y, z - 1);
    }
  }

  lemma YearIsUnique(d: Day, y: int)
    requires YearStart(y) <= d < YearStart(y + 1)
    ensures YearOf(d) == y
  {
    var z := YearOf(d);
    if y + 1 < z {
      YearStartRises(y + 1, z);
    } else if z + 1 < y {
      YearStartRises(z + 1, y);
    }
  }

  /** `getUTCDay`: Sunday is 0. */
  function UtcDay(d: Day): int { (d + 1) % 7 }

  /** Monday 1 to Sunday 7, as `getUTCDay() || 7` gives it. */
  function Weekday(d: Day): (w: int)
    ensures 1 <= w <= 7 && w == d % 7 + 1
  {
    if UtcDay(d) == 0 then 7 else UtcDay(d)
  }

  /** The calendar is the usual one: 1 January 1970 was a Thursday, 1 January 2000 a Saturday. */
  lemma KnownDays()
    ensures Weekday(YearStart(1970)) == 4 && Weekday(YearStart(2000)) == 6
    ensures YearStart(2000) - YearStart(1970) == 10957 && IsLeap(2000) && IsLeap(2024) && !IsLeap(2100)
  {
  }

  // ---------------------------------------------------------------- ISO weeks

  /** `isoWeek`: the weeks up to this week's Thursday in the Thursday's year. */
  function IsoWeek(d: Day): int {
    var thursday := d + 4 - Weekday(d);
    var days := thursday - YearStart(YearOf(thursday)) + 1;
    (days + 6) / 7
  }

  function MondayOf(d: Day): Day { d - d % 7 }

  /** Week 1 of a year is the one with its first Thursday, that is, with 4 January:
      section 4.1.4 of ISO 8601:2004. */
  function WeekOne(y: int): Day { MondayOf(YearStart(y) + 3) }

  ghost predicate InWeekYear(d: Day, y: int) { WeekOne(y) <= d < WeekOne(y + 1) }

  /** The week year of a day is the year of its week's Thursday. */
  lemma ThursdayDecides(d: Day)
    ensures InWeekYear(d, YearOf(d + 4 - Weekday(d)))
  {
    var thursday := d + 4 - Weekday(d);
    var y := YearOf(thursday);
    BeforeOrAfter(d, YearStart(y));
    BeforeOrAfter(d, YearStart(y + 1));
  }

  /** A week's Thursday falls in a year or later exactly when the week is that year's week 1 or later. */
  lemma BeforeOrAfter(d: Day, start: Day)
    ensures start <= d + 4 - Weekday(d) <==> MondayOf(start + 3) <= d
  {
  }

  /** A day belongs to one week year. */
  lemma WeekYearIsUnique(d: Day, y: int, z: int)
    requires InWeekYear(d, y) && InWeekYear(d, z)
    ensures y == z
  {
    if y < z {
      WeekOneRises(y + 1, z);
    } else if z < y {
      WeekOneRises(z + 1, y);
    }
  }

  lemma WeekOneRises(y: int, z: int)
    requires y <= z
    ensures WeekOne(y) <= WeekOne(z)
  {
    if y < z {
      YearStartRises(y, z);
    }
  }

  /** `isoWeek` counts the weeks since week 1 of the day's week year. */
  lemma IsoWeekIsStandard(d: Day, y: int)
    requires InWeekYear(d, y)
    ensures IsoWeek(d) == (d - WeekOne(y)) / 7 + 1 && 1 <= IsoWeek(d) <= 53
  {
    var thursday := d + 4 - Weekday(d);
    ThursdayDecides(d);
    WeekYearIsUnique(d, y, YearOf(thursday));
    YearLength(y);
    CountWeeks(d, YearStart(y));
    WeekCount(y);
  }

  lemma CountWeeks(d: Day, start: Day)
    requires MondayOf(start + 3) <= d
    ensures (d + 4 - Weekday(d) - start + 1 + 6) / 7 == (d - MondayOf(start + 3)) / 7 + 1
  {
    var monday := MondayOf(start + 3);
    var k := (d - monday) / 7;
    assert MondayOf(d) == monday + 7 * k;
    assert d + 4 - Weekday(d) == monday + 7 * k + 3;
  }

  lemma MondaySpan(a: Day, b: Day)
    requires b - a <= 366
    ensures MondayOf(b) - MondayOf(a) <= 371
  {
    assert MondayOf(a) % 7 == 0 && MondayOf(b) % 7 == 0;
  }

  lemma WeekCount(y: int)
    ensures WeekOne(y + 1) - WeekOne(y) <= 371
  {
    YearLength(y);
    MondaySpan(YearStart(y) + 3, YearStart(y + 1) + 3);
  }

  // ---------------------------------------------------------------- the window

  predicate ValidMonth(m: int) { 1 <= m <= 12 }

  function MonthLength(y: int, m: int): int
    requires ValidMonth(m)
  {
    if m == 2 then (if IsLeap(y) then 29 else 28) else if m in {4, 6, 9, 11} then 30 else 31
  }

  function MonthStart(y: int, m: int): Day
    requires ValidMonth(m)
    decreases m
  {
    if m == 1 then YearStart(y) else MonthStart(y, m - 1) + MonthLength(y, m - 1)
  }

  /** What is left of the year after a month's first day: its own days and more. */
  lemma {:induction false} MonthFits(y: int, m: int)
    requires ValidMonth(m)
    ensures YearStart(y) <= MonthStart(y, m) && MonthStart(y, m) + MonthLength(y, m) <= YearStart(y + 1)
  {
    YearLength(y);
    Months(y);
  }

  lemma Months(y: int)
    ensures var l := if IsLeap(y) then 1 else 0;
      && MonthStart(y, 1) == YearStart(y) && MonthStart(y, 2) == YearStart(y) + 31
      && MonthStart(y, 3) == YearStart(y) + 59 + l && MonthStart(y, 4) == YearStart(y) + 90 + l
      && MonthStart(y, 5) == YearStart(y) + 120 + l && MonthStart(y, 6) == YearStart(y) + 151 + l
      && MonthStart(y, 7) == YearStart(y) + 181 + l && MonthStart(y, 8) == YearStart(y) + 212 + l
      && MonthStart(y, 9) == YearStart(y) + 243 + l && MonthStart(y, 10) == YearStart(y) + 273 + l
      && MonthStart(y, 11) == YearStart(y) + 304 + l && MonthStart(y, 12) == YearStart(y) + 334 + l
  {
    assert MonthStart(y, 2) == MonthStart(y, 1) + 31;
    assert MonthStart(y, 3) == MonthStart(y, 2) + MonthLength(y, 2);
    assert MonthStart(y, 4) == MonthStart(y, 3) + 31;
    assert MonthStart(y, 5) == MonthStart(y, 4) + 30;
    assert MonthStart(y, 6) == MonthStart(y, 5) + 31;
    assert MonthStart(y, 7) == MonthStart(y, 6) + 30;
    assert MonthStart(y, 8) == MonthStart(y, 7) + 31;
    assert MonthStart(y, 9) == MonthStart(y, 8) + 31;
    assert MonthStart(y, 10) == MonthStart(y, 9) + 30;
    assert MonthStart(y, 11) == MonthStart(y, 10) + 31;
  }

  /** `year` and `month` label the window, `week` its week; `first` is the day `dates` start. */
  datatype Window = Window(year: int, month: int, week: int, dates: seq<Day>, invalidDate: Day)

  /** `createStructuredWindow` from the digest's leading bytes; a negative attempt is refused. */
  function CreateWindow(attempt: int, digest: seq<int>): (w: Option<Window>)
    requires |digest| >= 4 && forall i | 0 <= i < |digest| :: 0 <= digest[i] < 256
    ensures w.None? <==> attempt < 0
  {
    if attempt < 0 then None
    else
      var year := 2040 + (digest[0] * 256 + digest[1]) % 40;
      var month := digest[2] % 12 + 1;
      var first := MonthStart(year, month);
      var start := first + (8 - Weekday(first)) % 7 + (digest[3] % 4) * 7;
      Some(Window(year, month, IsoWeek(start), [start, start + 1, start + 2], start + 3))
  }

  /** The first four days of a week that ends its Thursday in a year share week and week year. */
  lemma OneWeek(start: Day, d: Day, y: int)
    requires Weekday(start) == 1 && start <= d <= start + 3 && YearStart(y) <= start + 3 < YearStart(y + 1)
    ensures InWeekYear(d, y) && IsoWeek(d) == (start - WeekOne(y)) / 7 + 1
  {
    SameThursday(start, d);
    YearIsUnique(start + 3, y);
    ThursdayDecides(d);
    IsoWeekIsStandard(d, y);
    SameWeek(start, d, YearStart(y));
  }

  ghost predicate IsWindow(w: Window) {
    && 2040 <= w.year < 2080 && ValidMonth(w.month) && |w.dates| == 3
    && var start := w.dates[0];
       && Weekday(start) == 1 && 1 <= start - MonthStart(w.year, w.month) + 1 <= 28
       && w.dates == [start, start + 1, start + 2] && w.invalidDate == start + 3
       && (forall d | start <= d <= w.invalidDate :: InWeekYear(d, w.year) && IsoWeek(d) == w.week)
       && w.week == (start - WeekOne(w.year)) / 7 + 1 && YearOf(start) == w.year
  }

  lemma MondayInMonth(y: int, m: int, k: int)
    requires ValidMonth(m) && 0 <= k < 4
    ensures var first := MonthStart(y, m);
      var start := first + (8 - Weekday(first)) % 7 + k * 7;
      && Weekday(start) == 1 && first <= start <= first + 27
      && YearStart(y) <= start && start + 3 < YearStart(y + 1)
  {
    FirstMonday(MonthStart(y, m), k);
    MonthFits(y, m);
  }

  /** Every window starts on a Monday no later than the 28th of its labelled month; its
      dates and the invalid date are the first four days of one week, whose number and
      week year are the labelled ones. */
  lemma WindowIsOneWeek(attempt: int, digest: seq<int>)
    requires attempt >= 0 && |digest| >= 4 && forall i | 0 <= i < |digest| :: 0 <= digest[i] < 256
    ensures IsWindow(CreateWindow(attempt, digest).value)
  {
    var w := CreateWindow(attempt, digest).value;
    var start := w.dates[0];
    MondayInMonth(w.year, w.month, digest[3] % 4);
    YearIsUnique(start, w.year);
    forall d | start <= d <= start + 3
      ensures InWeekYear(d, w.year) && IsoWeek(d) == (start - WeekOne(w.year)) / 7 + 1
    {
      OneWeek(start, d, w.year);
    }
  }

  /** Which window a digest stands for: its first two bytes choose one of forty years from 2040 on, the third
      the month, and the fourth one of the month's first four Mondays. */
  lemma WindowFollowsDigest(attempt: int, digest: seq<int>)
    requires attempt >= 0 && |digest| >= 4 && forall i | 0 <= i < |digest| :: 0 <= digest[i] < 256
    ensures var w, two := CreateWindow(attempt, digest).value, 256 * digest[0] + digest[1];
      && 2040 <= w.year <= 2079 && two == 40 * (two / 40) + (w.year - 2040)
      && 1 <= w.month <= 12 && digest[2] == 12 * (digest[2] / 12) + (w.month - 1)
      && var n := digest[3] - 4 * (digest[3] / 4);
         7 * n <= w.dates[0] - MonthStart(w.year, w.month) < 7 * (n + 1)
  {
    var w := CreateWindow(attempt, digest).value;
    NthMonday(MonthStart(w.year, w.month), digest[3]);
    hide MonthStart, IsoWeek;
  }

  lemma NthMonday(first: Day, byte: int)
    requires 0 <= byte
    ensures var n, start := byte - 4 * (byte / 4), first + (8 - Weekday(first)) % 7 + (byte % 4) * 7;
      7 * n <= start - first < 7 * (n + 1)
  {
  }

  lemma FirstMonday(first: Day, k: int)
    requires 0 <= k < 4
    ensures var start := first + (8 - Weekday(first)) % 7 + k * 7;
      Weekday(start) == 1 && first <= start <= first + 27
  {
  }

  lemma SameThursday(monday: Day, d: Day)
    requires Weekday(monday) == 1 && monday <= d <= monday + 3
    ensures d + 4 - Weekday(d) == monday + 3
  {
  }

  lemma SameWeek(monday: Day, d: Day, start: Day)
    requires Weekday(monday) == 1 && monday <= d <= monday + 3
    ensures (d - MondayOf(start + 3)) / 7 == (monday - MondayOf(start + 3)) / 7
  {
  }

  // ---------------------------------------------------------------- waiting for an import

  datatype Status = Status(batch: string, state: string)

  datatype PollError = UnexpectedBatch | StillProcessing | StatusFailed

  datatype Poll = Returned(status: Status) | Failed(error: PollError)

  const TIMEOUT := 600000

  predicate Terminal(state: string) { state in {"applied", "rejected", "failed"} }

  /** The delay after so many calls, and the time that passes at least before a call is over. */
  function Delay(calls: nat): int {
    if calls == 0 then 2000 else if calls == 1 then 5000 else if calls == 2 then 10000 else 15000
  }

  function Slept(calls: nat): int { if calls == 0 then 0 else Slept(calls - 1) + Delay(calls - 1) }

  lemma {:induction false} SleptFrom(calls: nat)
    requires calls >= 3
    ensures Slept(calls) == 17000 + 15000 * (calls - 3)
  {
    if calls == 3 {
      assert Slept(3) == Slept(2) + 10000 && Slept(2) == Slept(1) + 5000 && Slept(1) == Slept(0) + 2000;
    } else {
      SleptFrom(calls - 1);
    }
  }

  /** 42 is where the schedule reaches the deadline: not all of 41 delays, but all of 42. */
  lemma FortyTwo(calls: nat)
    ensures Slept(calls) < TIMEOUT <==> calls < 42
  {
    if calls >= 3 {
      SleptFrom(calls);
    } else {
      assert Slept(0) == 0 && Slept(1) == 2000 && Slept(2) == 7000;
    }
  }

  /** A clock that never runs back, a sleep that waits at least as long as asked, and any answers. What was
      asked of them is recorded: how often the clock was read, how long each sleep was to be, each answer. */
  class Outside {
    var time: int
    ghost var looks: nat
    ghost var sleeps: seq<int>
    ghost var answers: seq<Option<Status>>

    constructor ()
      ensures looks == 0 && sleeps == [] && answers == []
    {
      time, looks, sleeps, answers := 0, 0, [], [];
    }

    method Now() returns (t: int)
      modifies this
      ensures t == time >= old(time) && looks == old(looks) + 1 && sleeps == old(sleeps) && answers == old(answers)
    {
      var d :| 0 <= d;
      time := time + d;
      t, looks := time, looks + 1;
    }

    method Sleep(delay: int)
      modifies this
      ensures time >= old(time) && time >= old(time) + delay
      ensures looks == old(looks) && sleeps == old(sleeps) + [delay] && answers == old(answers)
    {
      var d :| 0 <= d && delay <= d;
      time, sleeps := time + d, sleeps + [delay];
    }

    method GetStatus() returns (s: Option<Status>)
      modifies this
      ensures time >= old(time) && answers == old(answers) + [s] && looks == old(looks) && sleeps == old(sleeps)
    {
      var d :| 0 <= d;
      s := *;
      time, answers := time + d, answers + [s];
    }
  }

  /** An answer that lets the polling go on: of the asked batch and not yet applied, rejected or failed. */
  predicate GoesOn(answer: Option<Status>, batch: string) {
    && answer.Some? && answer.value.batch == batch
    && answer.value.state != "applied" && answer.value.state != "rejected" && answer.value.state != "failed"
  }

  /** The delays keep to the schedule 2, 5, 10 and then 15 seconds; only the last may be cut short. */
  ghost predicate OnSchedule(sleeps: seq<int>) {
    && (forall i | 0 <= i < |sleeps| ::
          sleeps[i] <= if i == 0 then 2000 else if i == 1 then 5000 else if i == 2 then 10000 else 15000)
    && (forall i | 0 <= i < |sleeps| - 1 ::
          sleeps[i] == if i == 0 then 2000 else if i == 1 then 5000 else if i == 2 then 10000 else 15000)
  }

  /** `pollStructuredImportStatus`: a sleep before each of at most 42 calls, on schedule; every answer but the
      last lets it go on, and the last decides. It gives up only once ten minutes have passed, and it waits
      for them in no other way than by these sleeps and calls. */
  method PollImport(o: Outside, batch: string) returns (r: Poll)
    requires o.looks == 0 && o.sleeps == [] && o.answers == []
    modifies o
    ensures |o.answers| <= 42 && |o.sleeps| == |o.answers| && OnSchedule(o.sleeps)
    ensures o.looks == 2 * |o.answers| + if r == Failed(StillProcessing) then 2 else 1
    ensures forall i | 0 <= i < |o.answers| - 1 :: GoesOn(o.answers[i], batch)
    ensures r == Failed(StillProcessing) ==> o.time >= old(o.time) + 600000
    ensures r == Failed(StillProcessing) ==> forall i | 0 <= i < |o.answers| :: GoesOn(o.answers[i], batch)
    ensures r != Failed(StillProcessing) ==> o.answers != [] && var last := o.answers[|o.answers| - 1];
      && (r == Failed(StatusFailed) <==> last.None?)
      && (r == Failed(UnexpectedBatch) <==> last.Some? && last.value.batch != batch)
      && (r.Returned? ==> last == Some(r.status) && r.status.batch == batch && !GoesOn(last, batch))
  {
    var now := o.Now();
    var deadline := now + TIMEOUT;
    var delay := 2000;
    now := o.Now();
    while now < deadline
      invariant now == o.time && old(o.time) + TIMEOUT <= deadline && delay == Delay(|o.answers|)
      invariant now >= deadline || now >= deadline - TIMEOUT + Slept(|o.answers|)
      invariant |o.answers| <= 42 && |o.sleeps| == |o.answers| && o.looks == 2 + 2 * |o.answers|
      invariant forall i | 0 <= i < |o.answers| :: GoesOn(o.answers[i], batch)
      invariant OnSchedule(o.sleeps) && (now < deadline ==> forall i | 0 <= i < |o.sleeps| :: o.sleeps[i] == Delay(i))
      decreases 42 - |o.answers|
    {
      FortyTwo(|o.answers|);
      now := o.Now();
      o.Sleep(if delay < deadline - now then delay else deadline - now);
      var status := o.GetStatus();
      if status.None? {
        return Failed(StatusFailed);
      }
      if status.value.batch != batch {
        return Failed(UnexpectedBatch);
      }
      if Terminal(status.value.state) {
        return Returned(status.value);
      }
      delay := if delay == 2000 then 5000 else if delay == 5000 then 10000 else 15000;
      now := o.Now();
    }
    r := Failed(StillProcessing);
  }
}
