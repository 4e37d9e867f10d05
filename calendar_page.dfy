/**
 * The calendar page: the month on display and the selected day (both unset
 * until the page has mounted), month navigation, the events of the selected
 * day and the two month counters. `local` turns an instant into the local
 * calendar date, as the `Date` getters do.
 */
module CalendarPage {
  import opened Wrappers
  import opened Types
  import opened Seqs
  import opened Civil
  import Arith
  import CalendarGrid

  /** `new Date(year, month + increment, 1)`: the first of a month some months away. */
  function MonthAfter(d: ValidDate, increment: int): (r: ValidDate)
    ensures r.day == 1
    ensures r.month == (d.month + increment) % 12
    ensures r.year == d.year + (d.month + increment) / 12
  {
    MakeDate(d.year, d.month + increment, 1)
  }

  /** Going forward and back by the same number of months lands on the first of the month. */
  lemma MonthChangeRoundTrip(d: ValidDate, increment: int)
    ensures MonthAfter(MonthAfter(d, increment), -increment) == CivilDate(d.year, d.month, 1)
  {
    var n := d.month + increment;
    var q := n / 12;
    var r := n % 12;
    assert r - increment == d.month - 12 * q;
    Arith.DivModUnique(d.month - 12 * q, 12, -q, d.month);
  }

  /** One step forward from December is January of the next year. */
  lemma DecemberRollsOver(y: int)
    ensures MonthAfter(CivilDate(y, 11, 1), 1) == CivilDate(y + 1, 0, 1)
  {
  }

  /** One step back from January is December of the previous year. */
  lemma JanuaryRollsBack(y: int)
    ensures MonthAfter(CivilDate(y, 0, 1), -1) == CivilDate(y - 1, 11, 1)
  {
  }

  /** `handleMonthChange`: nothing before the page is initialised, 0 means "today". */
  function ChangeMonth(current: Option<ValidDate>, increment: int, today: ValidDate): (r: Option<ValidDate>)
    ensures current.None? ==> r.None?
    ensures current.Some? && increment == 0 ==> r == Some(today)
    ensures current.Some? && increment != 0 ==> r == Some(MonthAfter(current.value, increment))
  {
    match current
    case None => None
    case Some(d) => if increment == 0 then Some(today) else Some(MonthAfter(d, increment))
  }

  /** Does a sale instant exist and fall in the given month? */
  predicate SaleInMonth(e: Event, month: CivilDate, local: Instant -> CivilDate)
  {
    match PresaleOrTicketSale(e)
    case None => false
    case Some(t) => SameMonth(local(t), month)
  }

  /** The events dated in the month of `month`. */
  function MonthEvents(events: seq<Event>, month: CivilDate, local: Instant -> CivilDate): (r: seq<Event>)
    ensures forall e :: e in r <==> e in events && SameMonth(local(e.date), month)
    ensures |r| == Count(events, (e: Event) => SameMonth(local(e.date), month))
  {
    Filter(events, (e: Event) => SameMonth(local(e.date), month))
  }

  /**
   * The events whose `presaleDate || ticketSaleDate` falls in the month of
   * `month`; events without a sale date never count, so there are at most as
   * many as events with a sale date.
   */
  function MonthSales(events: seq<Event>, month: CivilDate, local: Instant -> CivilDate): (r: seq<Event>)
    ensures forall e :: e in r <==>
              e in events && PresaleOrTicketSale(e).Some? && SameMonth(local(PresaleOrTicketSale(e).value), month)
    ensures |r| == Count(events, (e: Event) => SaleInMonth(e, month, local))
    ensures |r| <= Count(events, (e: Event) => PresaleOrTicketSale(e).Some?)
  {
    CountMono(events, (e: Event) => SaleInMonth(e, month, local), (e: Event) => PresaleOrTicketSale(e).Some?);
    Filter(events, (e: Event) => SaleInMonth(e, month, local))
  }

  class Page {
    var currentMonth: Option<ValidDate>
    var selectedDate: Option<ValidDate>
    /** `data?.events || []`: the fetched events, up to 100. */
    var events: seq<Event>

    constructor ()
      ensures currentMonth.None? && selectedDate.None? && events == []
    {
      currentMonth := None;
      selectedDate := None;
      events := [];
    }

    /** The effect after mounting: both dates become today. */
    method Initialize(today: ValidDate)
      modifies this
      ensures currentMonth == Some(today) && selectedDate == Some(today)
      ensures events == old(events)
    {
      currentMonth := Some(today);
      selectedDate := Some(today);
    }

    /** The fetched events arrive (or the fetch had no data). */
    method OnEventsLoaded(data: Option<seq<Event>>)
      modifies this
      ensures events == data.GetOr([])
      ensures currentMonth == old(currentMonth) && selectedDate == old(selectedDate)
    {
      events := data.GetOr([]);
    }

    method HandleMonthChange(increment: int, today: ValidDate)
      modifies this
      ensures currentMonth == ChangeMonth(old(currentMonth), increment, today)
      ensures selectedDate == old(selectedDate) && events == old(events)
    {
      if currentMonth.None? {
        return;
      }
      if increment == 0 {
        currentMonth := Some(today);
      } else {
        currentMonth := Some(MakeDate(currentMonth.value.year, currentMonth.value.month + increment, 1));
      }
    }

    /** A click on a cell, or on "Today". */
    method SelectDate(d: ValidDate)
      modifies this
      ensures selectedDate == Some(d)
      ensures currentMonth == old(currentMonth) && events == old(events)
    {
      selectedDate := Some(d);
    }

    /** The events on the selected day, in fetch order; none without a selection. */
    function SelectedEvents(local: Instant -> CivilDate): (r: seq<Event>)
      reads this
      ensures selectedDate.None? ==> r == []
      ensures selectedDate.Some? ==>
                (forall e :: e in r <==> e in events && SameDay(local(e.date), selectedDate.value))
      ensures Subseq(r, events)
      ensures selectedDate.Some? ==>
                var d := selectedDate.value; |r| == Count(events, (e: Event) => SameDay(local(e.date), d))
    {
      match selectedDate
      case None => []
      case Some(d) => CalendarGrid.GetEventsForDate(events, d, local)
    }

    /** "Total Events": events dated in the displayed month; not shown before initialisation. */
    function TotalEvents(local: Instant -> CivilDate): (n: Option<nat>)
      reads this
      ensures n.None? <==> currentMonth.None?
      ensures n.Some? ==>
                var m := currentMonth.value; n.value == Count(events, (e: Event) => SameMonth(local(e.date), m))
    {
      match currentMonth
      case None => None
      case Some(m) => Some(|MonthEvents(events, m, local)|)
    }

    /** "Ticket Sales": events whose sale instant falls in the displayed month. */
    function TicketSales(local: Instant -> CivilDate): (n: Option<nat>)
      reads this
      ensures n.None? <==> currentMonth.None?
      ensures n.Some? ==>
                var m := currentMonth.value; n.value == Count(events, (e: Event) => SaleInMonth(e, m, local))
    {
      match currentMonth
      case None => None
      case Some(m) => Some(|MonthSales(events, m, local)|)
    }
  }
}
