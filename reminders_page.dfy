/**
 * The reminders page: the active reminders joined with their events, filtered
 * by sale date, category and time window, sorted by sale date; and the four
 * counters above the list.
 */
module RemindersPage {
  import opened Wrappers
  import opened Types
  import opened Seqs
  import opened Sorting

  /** The time-window selector. */
  datatype Window = AllWindow | Upcoming | ThisWeek | ThisMonth

  /** The window test on the milliseconds left before the sale. */
  predicate WindowKeeps(w: Window, diff: int)
  {
    match w
    case Upcoming => diff > 0
    case ThisWeek => diff > 0 && diff <= 168 * MsPerHour
    case ThisMonth => diff > 0 && diff <= 720 * MsPerHour
    case AllWindow => true
  }

  /** The filter callback for an event that was found. */
  predicate Passes(e: Event, now: Instant, w: Window, c: CategoryFilter, showPast: bool)
  {
    match PresaleOrTicketSale(e)
    case None => false
    case Some(sale) =>
      && (showPast || !(sale < now))
      && CategoryMatches(c, e.category)
      && WindowKeeps(w, sale - now)
  }

  /** A reminder the list shows: its event is loaded and passes the filters. */
  predicate Listed(r: Reminder, events: seq<Event>, now: Instant, w: Window, c: CategoryFilter, showPast: bool)
  {
    LookupEvent(events, r.eventId).Some? && Passes(LookupEvent(events, r.eventId).value, now, w, c, showPast)
  }

  /** The join and the filter, in list order. */
  function Kept(rs: seq<Reminder>, events: seq<Event>, now: Instant, w: Window, c: CategoryFilter, showPast: bool): seq<Item>
  {
    if rs == [] then []
    else
      var rest := Kept(rs[1..], events, now, w, c, showPast);
      match LookupEvent(events, rs[0].eventId)
      case None => rest
      case Some(e) => if Passes(e, now, w, c, showPast) then [Item(rs[0], e)] + rest else rest
  }

  /**
   * Items are exactly the reminders whose event is found and passes, paired
   * with that event, one item for each such reminder.
   */
  lemma {:induction false} KeptSpec(rs: seq<Reminder>, events: seq<Event>, now: Instant, w: Window, c: CategoryFilter, showPast: bool)
    ensures forall it :: it in Kept(rs, events, now, w, c, showPast) ==>
        && it.reminder in rs
        && LookupEvent(events, it.reminder.eventId) == Some(it.event)
        && Passes(it.event, now, w, c, showPast)
    ensures forall i :: 0 <= i < |rs| && LookupEvent(events, rs[i].eventId).Some?
                        && Passes(LookupEvent(events, rs[i].eventId).value, now, w, c, showPast) ==>
              Item(rs[i], LookupEvent(events, rs[i].eventId).value) in Kept(rs, events, now, w, c, showPast)
    ensures |Kept(rs, events, now, w, c, showPast)| == Count(rs, (r: Reminder) => Listed(r, events, now, w, c, showPast))
  {
    if rs != [] {
      KeptSpec(rs[1..], events, now, w, c, showPast);
      var k := Kept(rs, events, now, w, c, showPast);
      var rest := Kept(rs[1..], events, now, w, c, showPast);
      assert rs == [rs[0]] + rs[1..];
      assert forall x :: x in rs[1..] ==> x in rs;
      match LookupEvent(events, rs[0].eventId) {
        case None =>
          assert k == rest;
        case Some(e) =>
          if Passes(e, now, w, c, showPast) {
            assert k == [Item(rs[0], e)] + rest;
            forall it | it in k
              ensures && it.reminder in rs
                      && LookupEvent(events, it.reminder.eventId) == Some(it.event)
                      && Passes(it.event, now, w, c, showPast)
            {
              if it != k[0] {
                assert it in rest;
              }
            }
          } else {
            assert k == rest;
          }
      }
      forall i | 0 <= i < |rs| && LookupEvent(events, rs[i].eventId).Some?
                 && Passes(LookupEvent(events, rs[i].eventId).value, now, w, c, showPast)
        ensures Item(rs[i], LookupEvent(events, rs[i].eventId).value) in k
      {
        if i > 0 {
          assert rs[i] == rs[1..][i - 1];
        }
      }
    }
  }

  /** `filterReminders`. */
  function FilterReminders(rs: seq<Reminder>, events: seq<Event>, now: Instant, w: Window, c: CategoryFilter, showPast: bool): seq<Item>
  {
    SortBy(Kept(rs, events, now, w, c, showPast), SaleKey)
  }

  /**
   * The page's list holds exactly the active reminders whose event is loaded
   * with a presale or ticket-sale date inside the filters, ascending by that date.
   */
  lemma FilterRemindersSpec(rs: seq<Reminder>, events: seq<Event>, now: Instant, w: Window, c: CategoryFilter, showPast: bool)
    ensures var out := FilterReminders(rs, events, now, w, c, showPast);
      && (forall i :: 0 <= i < |out| ==>
            && out[i].reminder in rs
            && LookupEvent(events, out[i].reminder.eventId) == Some(out[i].event)
            && PresaleOrTicketSale(out[i].event).Some?
            && (showPast || PresaleOrTicketSale(out[i].event).value >= now)
            && CategoryMatches(c, out[i].event.category)
            && WindowKeeps(w, PresaleOrTicketSale(out[i].event).value - now))
      && (forall i, j :: 0 <= i < j < |out| ==>
            PresaleOrTicketSale(out[i].event).value <= PresaleOrTicketSale(out[j].event).value)
      && (forall i :: 0 <= i < |rs| && LookupEvent(events, rs[i].eventId).Some?
                      && Passes(LookupEvent(events, rs[i].eventId).value, now, w, c, showPast) ==>
            Item(rs[i], LookupEvent(events, rs[i].eventId).value) in out)
      && multiset(out) == multiset(Kept(rs, events, now, w, c, showPast))
      && |out| == Count(rs, (r: Reminder) => Listed(r, events, now, w, c, showPast))
  {
    var k := Kept(rs, events, now, w, c, showPast);
    var out := FilterReminders(rs, events, now, w, c, showPast);
    KeptSpec(rs, events, now, w, c, showPast);
    forall i | 0 <= i < |out|
      ensures out[i] in k
      ensures && out[i].reminder in rs
              && LookupEvent(events, out[i].reminder.eventId) == Some(out[i].event)
              && PresaleOrTicketSale(out[i].event).Some?
              && (showPast || PresaleOrTicketSale(out[i].event).value >= now)
              && CategoryMatches(c, out[i].event.category)
              && WindowKeeps(w, PresaleOrTicketSale(out[i].event).value - now)
    {
      assert out[i] in multiset(out);
      assert Passes(out[i].event, now, w, c, showPast);
    }
    forall x | x in k
      ensures x in out
    {
      assert x in multiset(k);
    }
    forall i, j | 0 <= i < j < |out| && PresaleOrTicketSale(out[i].event).Some? && PresaleOrTicketSale(out[j].event).Some?
      ensures PresaleOrTicketSale(out[i].event).value <= PresaleOrTicketSale(out[j].event).value
    {
      assert out[i] in k && out[j] in k;
      assert KeyLe(SaleKey(out[i]), SaleKey(out[j]));
    }
  }

  /** With any window but "all", the show-past switch makes no difference: past sales fail the window. */
  lemma PastSwitchIrrelevantWithWindow(e: Event, now: Instant, w: Window, c: CategoryFilter)
    requires w != AllWindow
    ensures Passes(e, now, w, c, true) == Passes(e, now, w, c, false)
  {
  }

  /** The counters above the list. */
  datatype Stats = Stats(totalActive: nat, thisWeek: nat, next24h: nat, completed: nat)

  function ActiveOnly(rs: seq<Reminder>): seq<Reminder>
  {
    Filter(rs, (r: Reminder) => r.status == Active)
  }

  predicate DueWithin(it: Item, now: Instant, hours: int)
  {
    PresaleOrTicketSale(it.event).Some? &&
    0 <= PresaleOrTicketSale(it.event).value - now <= hours * MsPerHour
  }

  function PageStats(rs: seq<Reminder>, events: seq<Event>, now: Instant, w: Window, c: CategoryFilter, showPast: bool): Stats
  {
    var listed := FilterReminders(ActiveOnly(rs), events, now, w, c, showPast);
    Stats(|ActiveOnly(rs)|,
          Count(listed, (it: Item) => DueWithin(it, now, 168)),
          Count(listed, (it: Item) => DueWithin(it, now, 24)),
          Count(rs, (r: Reminder) => r.status == Completed))
  }

  /**
   * The counters are consistent: "Next 24h" never exceeds "This Week", which
   * never exceeds the listed reminders, which never exceed "Total Active"; and
   * "Completed" counts over all reminders, not only the active ones.
   */
  lemma StatsOrdered(rs: seq<Reminder>, events: seq<Event>, now: Instant, w: Window, c: CategoryFilter, showPast: bool)
    ensures var st := PageStats(rs, events, now, w, c, showPast);
      && st.next24h <= st.thisWeek
      && st.thisWeek <= |FilterReminders(ActiveOnly(rs), events, now, w, c, showPast)|
      && |FilterReminders(ActiveOnly(rs), events, now, w, c, showPast)| <= st.totalActive
      && st.completed == Count(rs, (r: Reminder) => r.status == Completed)
  {
    var listed := FilterReminders(ActiveOnly(rs), events, now, w, c, showPast);
    CountMono(listed, (it: Item) => DueWithin(it, now, 24), (it: Item) => DueWithin(it, now, 168));
    KeptSpec(ActiveOnly(rs), events, now, w, c, showPast);
  }
}
