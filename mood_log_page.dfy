/** The calendar view of the mood log (`MoodLogPage.tsx`): the days of the
    shown month, the entries of each day, the blank cells that pad the month
    to whole weeks of a seven-column grid, and the month navigation. */
module MoodLogPage {
  import opened Seqs
  import opened Calendar
  import opened Types

  /** `eachDayOfInterval` from the first to the last day of the month, as day numbers. */
  function Days(mo: Month): (ds: seq<int>)
    requires mo.Valid()
  {
    seq(MonthLength(mo), i => MonthStart(mo) + i)
  }

  /** The month's days are every day from its first up to the first of the
      next month, each once and in increasing order. */
  lemma DaysSpec(mo: Month)
    requires mo.Valid()
    ensures NoDup(Days(mo))
    ensures forall i, j :: 0 <= i < j < |Days(mo)| ==> Days(mo)[i] < Days(mo)[j]
    ensures forall d :: d in Days(mo) <==> MonthStart(mo) <= d < MonthStart(NextMonth(mo))
    ensures Days(mo)[0] == MonthStart(mo)
  {
    MonthsAreConsecutive(mo);
    forall d | MonthStart(mo) <= d < MonthStart(NextMonth(mo)) ensures d in Days(mo) {
      assert Days(mo)[d - MonthStart(mo)] == d;
    }
  }

  /** The entry has a timestamp and it falls on day `d`. */
  predicate OnDay(e: MoodEntry, d: int)
  {
    e.timestamp.Some? && DayNumber(e.timestamp.value) == d
  }

  /** `getEntriesForDay`: the entries with a timestamp on that day, in order,
      each as often as the list holds it. */
  function EntriesForDay(entries: seq<MoodEntry>, d: int): (r: seq<MoodEntry>)
    ensures forall i :: 0 <= i < |r| ==> r[i] in entries && r[i].timestamp.Some? &&
                                          DayNumber(r[i].timestamp.value) == d
    ensures forall i :: (0 <= i < |entries| && entries[i].timestamp.Some? &&
                         DayNumber(entries[i].timestamp.value) == d) ==> entries[i] in r
    ensures Subseq(r, entries)
    ensures |r| == CountWhere(entries, (e: MoodEntry) => OnDay(e, d))
  {
    var onDay := (e: MoodEntry) => OnDay(e, d);
    FilterIsSubseq(entries, onDay);
    CountIsFilterLength(entries, onDay);
    Filter(entries, onDay)
  }

  /** An entry of the list lands in the cell of its own day and in no other
      cell of the month; an entry of another month, or without a timestamp, in none. */
  lemma EntryInOneCell(entries: seq<MoodEntry>, e: MoodEntry, mo: Month)
    requires mo.Valid() && e in entries
    ensures forall i :: 0 <= i < |Days(mo)| ==>
              (e in EntriesForDay(entries, Days(mo)[i]) <==>
                 e.timestamp.Some? && DayNumber(e.timestamp.value) == MonthStart(mo) + i)
    ensures (exists i :: 0 <= i < |Days(mo)| && e in EntriesForDay(entries, Days(mo)[i])) <==>
              e.timestamp.Some? && DayNumber(e.timestamp.value) in Days(mo)
  {
    DaysSpec(mo);
    if e.timestamp.Some? && DayNumber(e.timestamp.value) in Days(mo) {
      var i := DayNumber(e.timestamp.value) - MonthStart(mo);
      assert Days(mo)[i] == DayNumber(e.timestamp.value);
      assert e in EntriesForDay(entries, Days(mo)[i]);
    }
  }

  /** Blank cells before the first day: its weekday, Sunday first. */
  function LeadingBlanks(mo: Month): (n: int)
    requires mo.Valid()
    ensures 0 <= n <= 6
  {
    Weekday(MonthStart(mo))
  }

  /** Blank cells after the last day: six less its weekday. */
  function TrailingBlanks(mo: Month): (n: int)
    requires mo.Valid()
    ensures 0 <= n <= 6
  {
    6 - Weekday(MonthStart(mo) + MonthLength(mo) - 1)
  }

  /** Adding whole weeks does not change the weekday. */
  lemma {:induction false} WeekdayShift(d: int, k: int)
    ensures Weekday(d + 7 * k) == Weekday(d)
    decreases if k >= 0 then k else -k
  {
    if k > 0 {
      WeekdayShift(d, k - 1);
      assert d + 7 * k == (d + 7 * (k - 1)) + 7;
    } else if k < 0 {
      WeekdayShift(d, k + 1);
      assert d + 7 * k + 7 == d + 7 * (k + 1);
    }
  }

  /** The blanks and the days fill whole rows of seven cells, and the first
      day sits under its weekday's column. */
  lemma {:induction false} GridFillsWeeks(mo: Month)
    requires mo.Valid()
    ensures (LeadingBlanks(mo) + |Days(mo)| + TrailingBlanks(mo)) % 7 == 0
    ensures Weekday(Days(mo)[0]) == LeadingBlanks(mo)
  {
    var s, l := MonthStart(mo), MonthLength(mo);
    var w := Weekday(s);
    var q := (s + 4) / 7;
    assert s + 4 == 7 * q + w;
    var x := w + l - 1;
    var y := x - 4;
    assert s + l - 1 == y + 7 * q;
    WeekdayShift(y, q);
    assert Weekday(s + l - 1) == x % 7;
    assert LeadingBlanks(mo) + |Days(mo)| + TrailingBlanks(mo) == 7 + x - x % 7;
  }

  /** `new Date(year, month - 1, 1)`: the first of the month before. */
  function PreviousMonthDate(t: LocalTime): (r: LocalTime)
    requires t.Valid()
    ensures r.Valid() && r.day == 1 && r.msOfDay == 0
    ensures MonthStart(r.month) + MonthLength(r.month) == MonthStart(t.month)
  {
    MonthsAreConsecutive(PrevMonth(t.month));
    PrevNextInverse(t.month);
    LocalTime(PrevMonth(t.month), 1, 0)
  }

  /** `new Date(year, month + 1, 1)`: the first of the month after. */
  function NextMonthDate(t: LocalTime): (r: LocalTime)
    requires t.Valid()
    ensures r.Valid() && r.day == 1 && r.msOfDay == 0
    ensures MonthStart(r.month) == MonthStart(t.month) + MonthLength(t.month)
  {
    MonthsAreConsecutive(t.month);
    LocalTime(NextMonth(t.month), 1, 0)
  }

  /** Going back a month and forward again returns to the first of the month
      shown, and so does going forward and back. */
  lemma NavigationRoundTrip(t: LocalTime)
    requires t.Valid()
    ensures NextMonthDate(PreviousMonthDate(t)) == LocalTime(t.month, 1, 0)
    ensures PreviousMonthDate(NextMonthDate(t)) == LocalTime(t.month, 1, 0)
  {
    PrevNextInverse(t.month);
  }

  /** The shown month. */
  class CalendarView {
    var currentDate: LocalTime

    constructor(now: LocalTime)
      requires now.Valid()
      ensures currentDate == now
    {
      currentDate := now;
    }

    method PreviousMonth()
      requires currentDate.Valid()
      modifies this
      ensures currentDate == PreviousMonthDate(old(currentDate))
    {
      currentDate := PreviousMonthDate(currentDate);
    }

    method NextMonth()
      requires currentDate.Valid()
      modifies this
      ensures currentDate == NextMonthDate(old(currentDate))
    {
      currentDate := NextMonthDate(currentDate);
    }
  }
}
