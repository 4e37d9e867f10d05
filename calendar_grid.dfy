/**
 * The month grid of the calendar page: 42 cells, six weeks of seven days,
 * starting with the tail of the previous month, then the whole current month,
 * then the head of the next month. Instants are turned into local calendar
 * dates by `local`, which stands for the `Date` getters in the user's time zone.
 */
module CalendarGrid {
  import opened Wrappers
  import opened Types
  import opened Seqs
  import opened Civil
  import Arith

  datatype Cell = Cell(date: CivilDate, isCurrentMonth: bool)

  /** `getDaysInMonth`: the `getDate()` of day 0 of the next month. */
  function GetDaysInMonth(d: ValidDate): (n: int)
    ensures n == DaysInMonth(d.year, d.month)
  {
    DayZeroOfNextMonth(d.year, d.month);
    MakeDate(d.year, d.month + 1, 0).day
  }

  /** `getFirstDayOfMonth`: the weekday of the first of the month. */
  function GetFirstDayOfMonth(d: ValidDate): (w: int)
    ensures 0 <= w < 7
    ensures w == Weekday(CivilDate(d.year, d.month, 1))
  {
    Weekday(MakeDate(d.year, d.month, 1))
  }

  /** The cell at index `i` of the grid of `current`'s month. */
  function GridCell(current: ValidDate, i: int): Cell
  {
    var y := current.year;
    var m := current.month;
    var first := Weekday(CivilDate(y, m, 1));
    var dim := DaysInMonth(y, m);
    var (py, pm) := PrevMonth(y, m);
    var (ny, nm) := NextMonth(y, m);
    if i < first then Cell(CivilDate(py, pm, DaysInMonth(py, pm) - first + 1 + i), false)
    else if i < first + dim then Cell(CivilDate(y, m, i - first + 1), true)
    else Cell(CivilDate(ny, nm, i - first - dim + 1), false)
  }

  function Grid(current: ValidDate): seq<Cell>
  {
    seq(42, i => GridCell(current, i))
  }

  /** `calendarDays`, built by the three loops of the component. */
  method CalendarDays(current: ValidDate) returns (calendarDays: seq<Cell>)
    ensures calendarDays == Grid(current)
  {
    calendarDays := PreviousMonthTail(current);
    calendarDays := AppendCurrentMonth(current, calendarDays);
    calendarDays := AppendNextMonthHead(current, calendarDays);
  }

  /** The first loop: the last `firstDayOfMonth` days of the previous month. */
  method PreviousMonthTail(current: ValidDate) returns (calendarDays: seq<Cell>)
    ensures |calendarDays| == GetFirstDayOfMonth(current)
    ensures forall k :: 0 <= k < |calendarDays| ==> calendarDays[k] == GridCell(current, k)
  {
    var y := current.year;
    var m := current.month;
    var firstDayOfMonth := GetFirstDayOfMonth(current);
    NormalizesToPrev(y, m);
    var prevMonthDays := GetDaysInMonth(MakeDate(y, m - 1, 1));
    ghost var (py, pm) := PrevMonth(y, m);
    assert prevMonthDays == DaysInMonth(py, pm);
    calendarDays := [];
    var i := firstDayOfMonth - 1;
    while i >= 0
      invariant -1 <= i < firstDayOfMonth
      invariant |calendarDays| == firstDayOfMonth - 1 - i
      invariant forall k :: 0 <= k < |calendarDays| ==> calendarDays[k] == GridCell(current, k)
    {
      assert MakeDate(y, m - 1, prevMonthDays - i) == CivilDate(py, pm, prevMonthDays - i);
      LeadingCell(current, firstDayOfMonth - 1 - i);
      calendarDays := calendarDays + [Cell(MakeDate(y, m - 1, prevMonthDays - i), false)];
      i := i - 1;
    }
  }

  /** The second loop: every day of the shown month. */
  method AppendCurrentMonth(current: ValidDate, cells: seq<Cell>) returns (calendarDays: seq<Cell>)
    requires |cells| == GetFirstDayOfMonth(current)
    requires forall k :: 0 <= k < |cells| ==> cells[k] == GridCell(current, k)
    ensures |calendarDays| == GetFirstDayOfMonth(current) + DaysInMonth(current.year, current.month)
    ensures forall k :: 0 <= k < |calendarDays| ==> calendarDays[k] == GridCell(current, k)
  {
    var y := current.year;
    var m := current.month;
    var daysInMonth := GetDaysInMonth(current);
    calendarDays := cells;
    var day := 1;
    while day <= daysInMonth
      invariant 1 <= day <= daysInMonth + 1
      invariant |calendarDays| == |cells| + day - 1
      invariant forall k :: 0 <= k < |calendarDays| ==> calendarDays[k] == GridCell(current, k)
    {
      assert MakeDate(y, m, day) == CivilDate(y, m, day);
      MiddleCell(current, |cells| + day - 1);
      calendarDays := calendarDays + [Cell(MakeDate(y, m, day), true)];
      day := day + 1;
    }
  }

  /** The third loop: days of the next month until the grid has 42 cells. */
  method AppendNextMonthHead(current: ValidDate, cells: seq<Cell>) returns (calendarDays: seq<Cell>)
    requires |cells| == GetFirstDayOfMonth(current) + DaysInMonth(current.year, current.month)
    requires forall k :: 0 <= k < |cells| ==> cells[k] == GridCell(current, k)
    ensures calendarDays == Grid(current)
  {
    var y := current.year;
    var m := current.month;
    NormalizesToNext(y, m);
    ghost var (ny, nm) := NextMonth(y, m);
    calendarDays := cells;
    var remainingDays := 42 - |calendarDays|;
    var day := 1;
    while day <= remainingDays
      invariant 1 <= day <= remainingDays + 1
      invariant |calendarDays| == |cells| + day - 1
      invariant forall k :: 0 <= k < |calendarDays| ==> calendarDays[k] == GridCell(current, k)
    {
      assert MakeDate(y, m + 1, day) == CivilDate(ny, nm, day);
      TrailingCell(current, |cells| + day - 1);
      calendarDays := calendarDays + [Cell(MakeDate(y, m + 1, day), false)];
      day := day + 1;
    }
    assert |calendarDays| == 42;
  }

  lemma LeadingCell(current: ValidDate, k: int)
    requires 0 <= k < GetFirstDayOfMonth(current)
    ensures var (py, pm) := PrevMonth(current.year, current.month);
            GridCell(current, k)
              == Cell(CivilDate(py, pm, DaysInMonth(py, pm) - GetFirstDayOfMonth(current) + 1 + k), false)
  {
  }

  lemma MiddleCell(current: ValidDate, k: int)
    requires GetFirstDayOfMonth(current) <= k < GetFirstDayOfMonth(current) + DaysInMonth(current.year, current.month)
    ensures GridCell(current, k)
         == Cell(CivilDate(current.year, current.month, k - GetFirstDayOfMonth(current) + 1), true)
  {
  }

  lemma TrailingCell(current: ValidDate, k: int)
    requires GetFirstDayOfMonth(current) + DaysInMonth(current.year, current.month) <= k
    ensures var (ny, nm) := NextMonth(current.year, current.month);
            GridCell(current, k)
              == Cell(CivilDate(ny, nm, k - GetFirstDayOfMonth(current) - DaysInMonth(current.year, current.month) + 1), false)
  {
  }

  /**
   * The three segments of the grid: the last `first` days of the previous
   * month in ascending order, days 1..length of the current month (the only
   * cells marked current), then next-month days from 1 up to fill 42 cells.
   */
  lemma GridSegments(current: ValidDate)
    ensures |Grid(current)| == 42
    ensures var first := GetFirstDayOfMonth(current);
            var dim := GetDaysInMonth(current);
            var (py, pm) := PrevMonth(current.year, current.month);
            var (ny, nm) := NextMonth(current.year, current.month);
      && first + dim <= 42
      && (forall i :: 0 <= i < first ==>
            Grid(current)[i] == Cell(CivilDate(py, pm, DaysInMonth(py, pm) - first + 1 + i), false))
      && (forall i :: first <= i < first + dim ==>
            Grid(current)[i] == Cell(CivilDate(current.year, current.month, i - first + 1), true))
      && (forall i :: first + dim <= i < 42 ==>
            Grid(current)[i] == Cell(CivilDate(ny, nm, i - first - dim + 1), false))
  {
  }

  /** A cell is marked current-month exactly when its date lies in the shown month; every date is real. */
  lemma GridCurrentMonth(current: ValidDate, i: int)
    requires 0 <= i < 42
    ensures Valid(Grid(current)[i].date)
    ensures Grid(current)[i].isCurrentMonth <==> SameMonth(Grid(current)[i].date, current)
  {
  }

  lemma DaysFromCivilInMonth(y: int, m: int, d: int)
    requires 0 <= m < 12 && 1 <= d <= DaysInMonth(y, m)
    ensures DaysFromCivil(CivilDate(y, m, d)) == DaysFromCivil(CivilDate(y, m, 1)) + d - 1
  {
  }

  /** The grid is 42 consecutive days: cell `i` is `i - first` days after the first of the month. */
  lemma GridConsecutive(current: ValidDate, i: int)
    requires 0 <= i < 42
    ensures Valid(Grid(current)[i].date)
    ensures DaysFromCivil(Grid(current)[i].date)
         == DaysFromCivil(CivilDate(current.year, current.month, 1)) - GetFirstDayOfMonth(current) + i
  {
    assert Grid(current)[i] == GridCell(current, i);
    var first := GetFirstDayOfMonth(current);
    if i < first {
      LeadingCellConsecutive(current, i);
    } else if i < first + DaysInMonth(current.year, current.month) {
      DaysFromCivilInMonth(current.year, current.month, i - first + 1);
    } else {
      TrailingCellConsecutive(current, i);
    }
  }

  lemma LeadingCellConsecutive(current: ValidDate, i: int)
    requires 0 <= i < GetFirstDayOfMonth(current)
    ensures Valid(GridCell(current, i).date)
    ensures DaysFromCivil(GridCell(current, i).date)
         == DaysFromCivil(CivilDate(current.year, current.month, 1)) - GetFirstDayOfMonth(current) + i
  {
    var y := current.year;
    var m := current.month;
    var first := GetFirstDayOfMonth(current);
    var (py, pm) := PrevMonth(y, m);
    var pdim := DaysInMonth(py, pm);
    var day := pdim - first + 1 + i;
    assert GridCell(current, i).date == CivilDate(py, pm, day);
    NormalizesToNext(py, pm);
    assert NextMonth(py, pm) == (y, m);
    FirstOfNextMonth(py, pm);
    assert MakeDate(py, pm + 1, 1) == CivilDate(y, m, 1);
    var d1 := DaysFromCivil(CivilDate(y, m, 1));
    var p1 := DaysFromCivil(CivilDate(py, pm, 1));
    assert d1 == p1 + pdim;
    DaysFromCivilInMonth(py, pm, day);
    assert DaysFromCivil(CivilDate(py, pm, day)) == p1 + day - 1;
  }

  lemma TrailingCellConsecutive(current: ValidDate, i: int)
    requires GetFirstDayOfMonth(current) + DaysInMonth(current.year, current.month) <= i < 42
    ensures Valid(GridCell(current, i).date)
    ensures DaysFromCivil(GridCell(current, i).date)
         == DaysFromCivil(CivilDate(current.year, current.month, 1)) - GetFirstDayOfMonth(current) + i
  {
    var y := current.year;
    var m := current.month;
    var first := GetFirstDayOfMonth(current);
    var dim := DaysInMonth(y, m);
    var (ny, nm) := NextMonth(y, m);
    var day := i - first - dim + 1;
    assert GridCell(current, i).date == CivilDate(ny, nm, day);
    NormalizesToNext(y, m);
    FirstOfNextMonth(y, m);
    assert MakeDate(y, m + 1, 1) == CivilDate(ny, nm, 1);
    var d1 := DaysFromCivil(CivilDate(y, m, 1));
    var n1 := DaysFromCivil(CivilDate(ny, nm, 1));
    assert n1 == d1 + dim;
    DaysFromCivilInMonth(ny, nm, day);
    assert DaysFromCivil(CivilDate(ny, nm, day)) == n1 + day - 1;
  }

  /** The grid's columns line up with the SUN..SAT header: cell `i` falls on weekday `i % 7`. */
  lemma GridWeekdays(current: ValidDate, i: int)
    requires 0 <= i < 42
    ensures Valid(Grid(current)[i].date)
    ensures Weekday(Grid(current)[i].date) == i % 7
  {
    GridConsecutive(current, i);
    WeekdayAt(Grid(current)[i].date, CivilDate(current.year, current.month, 1), GetFirstDayOfMonth(current), i);
  }

  /** A date `i - first` days after a first of month falling on weekday `first` falls on weekday `i % 7`. */
  lemma WeekdayAt(x: CivilDate, start: CivilDate, first: int, i: int)
    requires Valid(x) && Valid(start) && 0 <= i && first == Weekday(start)
    requires DaysFromCivil(x) == DaysFromCivil(start) - first + i
    ensures Weekday(x) == i % 7
  {
    WeekdayShift(DaysFromCivil(start), first, i);
  }

  lemma WeekdayShift(d1: int, first: int, i: int)
    requires 0 <= i && (d1 + 4) % 7 == first
    ensures (d1 - first + i + 4) % 7 == i % 7
  {
    var q := (d1 + 4) / 7;
    assert d1 + 4 == 7 * q + first;
    assert i == 7 * (i / 7) + i % 7;
    assert d1 - first + i + 4 == 7 * (q + i / 7) + i % 7;
    Arith.DivModUnique(d1 - first + i + 4, 7, q + i / 7, i % 7);
  }

  /** `getEventsForDate`: the events on the same local day as `date`. */
  function GetEventsForDate(events: seq<Event>, date: CivilDate, local: Instant -> CivilDate): (r: seq<Event>)
    ensures forall i :: 0 <= i < |r| ==> r[i] in events && SameDay(local(r[i].date), date)
    ensures forall i :: 0 <= i < |events| && SameDay(local(events[i].date), date) ==> events[i] in r
    ensures Subseq(r, events)
    ensures |r| == Count(events, (e: Event) => SameDay(local(e.date), date))
  {
    FilterIsSubseq(events, (e: Event) => SameDay(local(e.date), date));
    Filter(events, (e: Event) => SameDay(local(e.date), date))
  }

  /** `isSelected`: false with no selection, otherwise the same day. */
  function IsSelected(date: CivilDate, selectedDate: Option<CivilDate>): (b: bool)
    ensures selectedDate.None? ==> !b
    ensures selectedDate.Some? ==> (b <==> SameDay(date, selectedDate.value))
  {
    selectedDate.Some? && SameDay(date, selectedDate.value)
  }

  /** `isToday`, with today's local date as a parameter. */
  predicate IsToday(date: CivilDate, today: CivilDate)
  {
    SameDay(date, today)
  }

  /** The colour of an event dot. */
  datatype Dot = SecuredDot | SelectedDot | PlainDot

  /**
   * The dots of a cell: one for each of at most the first three events, green
   * when tickets are secured, inverted on the selected day.
   */
  function CellDots(dayEvents: seq<Event>, secured: Id -> bool, selected: bool): (dots: seq<Dot>)
    ensures |dots| <= 3 && |dots| == if |dayEvents| < 3 then |dayEvents| else 3
    ensures forall i :: 0 <= i < |dots| ==>
              dots[i] == (if secured(dayEvents[i].id) then SecuredDot else if selected then SelectedDot else PlainDot)
  {
    var shown := Take(dayEvents, 3);
    seq(|shown|, i requires 0 <= i < |shown| =>
      if secured(shown[i].id) then SecuredDot else if selected then SelectedDot else PlainDot)
  }
}
