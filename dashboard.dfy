/**
 * The dashboard: the active reminders with a loaded event ordered by sale
 * date, the ones selling within a week, and the five newest event updates.
 */
module Dashboard {
  import opened Wrappers
  import opened Types
  import opened Seqs
  import opened Sorting

  /** The join of the active reminders with their events, dropping those whose event is not loaded. */
  function Joined(rs: seq<Reminder>, events: seq<Event>): seq<Item>
  {
    if rs == [] then []
    else
      var rest := Joined(rs[1..], events);
      if rs[0].status != Active then rest
      else match LookupEvent(events, rs[0].eventId)
        case None => rest
        case Some(e) => [Item(rs[0], e)] + rest
  }

  /**
   * The joined items are exactly the active reminders with a loaded event, each
   * with that event, one item for each such reminder.
   */
  lemma {:induction false} JoinedSpec(rs: seq<Reminder>, events: seq<Event>)
    ensures forall it :: it in Joined(rs, events) ==>
              it.reminder in rs && it.reminder.status == Active && LookupEvent(events, it.reminder.eventId) == Some(it.event)
    ensures forall i :: 0 <= i < |rs| && rs[i].status == Active && LookupEvent(events, rs[i].eventId).Some? ==>
              Item(rs[i], LookupEvent(events, rs[i].eventId).value) in Joined(rs, events)
    ensures |Joined(rs, events)| == Count(rs, (r: Reminder) => r.status == Active && LookupEvent(events, r.eventId).Some?)
  {
    if rs != [] {
      JoinedSpec(rs[1..], events);
      var j := Joined(rs, events);
      var rest := Joined(rs[1..], events);
      assert rs == [rs[0]] + rs[1..];
      assert forall x :: x in rs[1..] ==> x in rs;
      if rs[0].status == Active && LookupEvent(events, rs[0].eventId).Some? {
        var e := LookupEvent(events, rs[0].eventId).value;
        assert j == [Item(rs[0], e)] + rest;
        forall it | it in j
          ensures it.reminder in rs && it.reminder.status == Active && LookupEvent(events, it.reminder.eventId) == Some(it.event)
        {
          if it != j[0] {
            assert it in rest;
          }
        }
      } else {
        assert j == rest;
      }
      forall i | 0 <= i < |rs| && rs[i].status == Active && LookupEvent(events, rs[i].eventId).Some?
        ensures Item(rs[i], LookupEvent(events, rs[i].eventId).value) in j
      {
        if i > 0 {
          assert rs[i] == rs[1..][i - 1];
        }
      }
    }
  }

  /** With no events loaded nothing is joined, whatever the reminders. */
  lemma {:induction false} JoinedWithoutEvents(rs: seq<Reminder>)
    ensures Joined(rs, []) == []
  {
    if rs != [] {
      JoinedWithoutEvents(rs[1..]);
    }
  }

  /** `reminderEvents`: the joined items ascending by sale date, those without one last. */
  function ReminderEvents(rs: seq<Reminder>, events: seq<Event>): seq<Item>
  {
    SortBy(Joined(rs, events), SaleKey)
  }

  /**
   * `reminderEvents` holds every active reminder whose event is loaded, ordered
   * by sale date, and every item without a sale date comes after every item with one.
   */
  lemma ReminderEventsSpec(rs: seq<Reminder>, events: seq<Event>)
    ensures var out := ReminderEvents(rs, events);
      && multiset(out) == multiset(Joined(rs, events))
      && (forall i, j :: 0 <= i < j < |out| && PresaleOrTicketSale(out[i].event).None? ==>
            PresaleOrTicketSale(out[j].event).None?)
      && (forall i, j :: 0 <= i < j < |out| && PresaleOrTicketSale(out[j].event).Some? ==>
            PresaleOrTicketSale(out[i].event).Some? &&
            PresaleOrTicketSale(out[i].event).value <= PresaleOrTicketSale(out[j].event).value)
  {
    var out := ReminderEvents(rs, events);
    forall i, j | 0 <= i < j < |out|
      ensures KeyLe(SaleKey(out[i]), SaleKey(out[j]))
    {
    }
  }

  /** The upcoming-sales test: a sale date at most 168 hours ahead (earlier ones included). */
  predicate WithinWeek(it: Item, now: Instant)
  {
    PresaleOrTicketSale(it.event).Some? && PresaleOrTicketSale(it.event).value - now <= 168 * MsPerHour
  }

  /** `upcomingSales`. */
  function UpcomingSales(rs: seq<Reminder>, events: seq<Event>, now: Instant): seq<Item>
  {
    Filter(ReminderEvents(rs, events), (it: Item) => WithinWeek(it, now))
  }

  /** The cards shown: the first three upcoming sales. */
  function ShownSales(rs: seq<Reminder>, events: seq<Event>, now: Instant): (r: seq<Item>)
    ensures |r| == (if |UpcomingSales(rs, events, now)| < 3 then |UpcomingSales(rs, events, now)| else 3)
    ensures r == UpcomingSales(rs, events, now)[..|r|]
  {
    Take(UpcomingSales(rs, events, now), 3)
  }

  /**
   * An upcoming sale has a sale date and is at most a week ahead; there is no
   * lower bound, so a sale that already started is kept; and they keep the
   * `reminderEvents` order.
   */
  lemma UpcomingSalesSpec(rs: seq<Reminder>, events: seq<Event>, now: Instant)
    ensures var up := UpcomingSales(rs, events, now);
      && (forall i :: 0 <= i < |up| ==>
            && up[i] in ReminderEvents(rs, events)
            && PresaleOrTicketSale(up[i].event).Some?
            && PresaleOrTicketSale(up[i].event).value - now <= 168 * MsPerHour)
      && Subseq(up, ReminderEvents(rs, events))
      && |up| == Count(ReminderEvents(rs, events), (it: Item) => WithinWeek(it, now))
      && (forall i :: 0 <= i < |ReminderEvents(rs, events)| && WithinWeek(ReminderEvents(rs, events)[i], now) ==>
            ReminderEvents(rs, events)[i] in up)
  {
    FilterIsSubseq(ReminderEvents(rs, events), (it: Item) => WithinWeek(it, now));
  }

  /** A sale in the past is listed as upcoming. */
  lemma PastSaleIsUpcoming(it: Item, now: Instant)
    requires PresaleOrTicketSale(it.event).Some? && PresaleOrTicketSale(it.event).value < now
    ensures WithinWeek(it, now)
  {
  }

  /** All updates of all events, event by event (`flatMap(evt => evt.updates || [])`). */
  function AllUpdates(events: seq<Event>): seq<EventUpdate>
  {
    if events == [] then [] else events[0].updates + AllUpdates(events[1..])
  }

  /** Newest first. */
  function NewestKey(u: EventUpdate): Key
  {
    Key(false, -u.timestamp)
  }

  /** `latestNews`: the five newest updates. */
  function LatestNews(events: seq<Event>): seq<EventUpdate>
  {
    Take(SortBy(AllUpdates(events), NewestKey), 5)
  }

  lemma LatestNewsOrdered(events: seq<Event>)
    ensures var news := LatestNews(events);
            forall i, j :: 0 <= i < j < |news| ==> news[i].timestamp >= news[j].timestamp
  {
    var sorted := SortBy(AllUpdates(events), NewestKey);
    var news := LatestNews(events);
    forall i, j | 0 <= i < j < |news|
      ensures news[i].timestamp >= news[j].timestamp
    {
      assert KeyLe(NewestKey(sorted[i]), NewestKey(sorted[j]));
    }
  }

  lemma LatestNewsMembers(events: seq<Event>)
    ensures var news := LatestNews(events);
            forall i :: 0 <= i < |news| ==> news[i] in AllUpdates(events)
  {
    var sorted := SortBy(AllUpdates(events), NewestKey);
    var news := LatestNews(events);
    forall i | 0 <= i < |news|
      ensures news[i] in AllUpdates(events)
    {
      assert news[i] == sorted[i];
      assert sorted[i] in multiset(sorted);
    }
  }

  lemma LatestNewsComplete(events: seq<Event>)
    ensures var news := LatestNews(events);
            forall u, i :: u in AllUpdates(events) && 0 <= i < |news| && u.timestamp > news[i].timestamp ==>
              u in news
  {
    var sorted := SortBy(AllUpdates(events), NewestKey);
    var news := LatestNews(events);
    forall u, i | u in AllUpdates(events) && 0 <= i < |news| && u.timestamp > news[i].timestamp
      ensures u in news
    {
      assert u in multiset(sorted);
      var k :| 0 <= k < |sorted| && sorted[k] == u;
      assert news[i] == sorted[i];
      assert k < |news|;
      assert news[k] == u;
    }
  }

  /**
   * `latestNews` has at most five updates, newest first, taken without
   * repetition from the events' updates, and no update left out is newer
   * than one shown.
   */
  lemma LatestNewsSpec(events: seq<Event>)
    ensures var news := LatestNews(events);
      && |news| <= 5
      && |news| == (if |AllUpdates(events)| < 5 then |AllUpdates(events)| else 5)
      && (forall i, j :: 0 <= i < j < |news| ==> news[i].timestamp >= news[j].timestamp)
      && (forall i :: 0 <= i < |news| ==> news[i] in AllUpdates(events))
      && multiset(news) <= multiset(AllUpdates(events))
      && (forall u, i :: u in AllUpdates(events) && 0 <= i < |news| && u.timestamp > news[i].timestamp ==>
            u in news)
  {
    var sorted := SortBy(AllUpdates(events), NewestKey);
    var news := LatestNews(events);
    assert sorted == news + sorted[|news|..];
    LatestNewsOrdered(events);
    LatestNewsMembers(events);
    LatestNewsComplete(events);
  }

  /**
   * Events without updates, as the listing route sends them (its query loads
   * no updates), leave "Latest News" empty.
   */
  lemma {:induction false} NoUpdatesNoNews(events: seq<Event>)
    requires forall i :: 0 <= i < |events| ==> events[i].updates == []
    ensures AllUpdates(events) == []
    ensures LatestNews(events) == []
  {
    if events != [] {
      NoUpdatesNoNews(events[1..]);
    }
  }
}
