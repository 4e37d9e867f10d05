/**
 * The application's records (events, reminders, per-user event status).
 * Every instant is an integer number of milliseconds since the epoch.
 */
module Types {
  import opened Wrappers
  import opened Seqs
  import opened Sorting

  type Instant = int
  type Id = string

  const MsPerSecond := 1000
  const MsPerMinute := 60000
  const MsPerHour := 3600000
  const MsPerDay := 86400000

  /** The owner used before authenticated ownership existed. */
  const DefaultUser := "default-user"

  datatype Category = Concert | Sports | Theater | Comedy | Festival | Nightlife

  /** The name a category has in the database and in query strings. */
  function CategoryName(c: Category): string
  {
    match c
    case Concert => "concert"
    case Sports => "sports"
    case Theater => "theater"
    case Comedy => "comedy"
    case Festival => "festival"
    case Nightlife => "nightlife"
  }

  datatype EventStatus = Upcoming | Presale | Onsale | Soldout

  function StatusName(s: EventStatus): string
  {
    match s
    case Upcoming => "upcoming"
    case Presale => "presale"
    case Onsale => "onsale"
    case Soldout => "soldout"
  }

  datatype ReminderStatus = Active | Completed | Dismissed

  /** A news item attached to an event (descriptive fields left out). */
  datatype EventUpdate = EventUpdate(id: Id, eventId: Id, title: string, timestamp: Instant)

  /** An event; an absent `updates` list is the empty sequence. */
  datatype Event = Event(
    id: Id,
    title: string,
    artist: Option<string>,
    venue: string,
    location: string,
    date: Instant,
    category: Category,
    imageUrl: string,
    description: string,
    ticketSaleDate: Option<Instant>,
    presaleDate: Option<Instant>,
    ticketUrl: Option<string>,
    status: EventStatus,
    updates: seq<EventUpdate>)

  /** The four lead-time flags of a reminder. */
  datatype Intervals = Intervals(twoHours: bool, oneHour: bool, thirtyMinutes: bool, tenMinutes: bool)

  /** The two delivery flags of a reminder. */
  datatype Methods = Methods(browserPush: bool, email: bool)

  datatype Reminder = Reminder(
    id: Id,
    eventId: Id,
    userId: Id,
    intervals: Intervals,
    notificationMethods: Methods,
    createdAt: Instant,
    status: ReminderStatus)

  /** Whether the user has secured tickets for an event. */
  datatype EventUserStatus = EventUserStatus(eventId: Id, userId: Id, ticketsSecured: bool, updatedAt: Instant)

  /** The names of the interval flags, in the order the application walks them. */
  datatype IntervalKey = TwoHours | OneHour | ThirtyMinutes | TenMinutes

  const IntervalOrder: seq<IntervalKey> := [TwoHours, OneHour, ThirtyMinutes, TenMinutes]

  function IntervalMinutes(k: IntervalKey): nat
  {
    match k
    case TwoHours => 120
    case OneHour => 60
    case ThirtyMinutes => 30
    case TenMinutes => 10
  }

  function IntervalKeyName(k: IntervalKey): string
  {
    match k
    case TwoHours => "twoHours"
    case OneHour => "oneHour"
    case ThirtyMinutes => "thirtyMinutes"
    case TenMinutes => "tenMinutes"
  }

  /** `intervals[key]`. */
  function Enabled(iv: Intervals, k: IntervalKey): bool
  {
    match k
    case TwoHours => iv.twoHours
    case OneHour => iv.oneHour
    case ThirtyMinutes => iv.thirtyMinutes
    case TenMinutes => iv.tenMinutes
  }

  predicate AnyInterval(iv: Intervals)
  {
    iv.twoHours || iv.oneHour || iv.thirtyMinutes || iv.tenMinutes
  }

  predicate AnyMethod(m: Methods)
  {
    m.browserPush || m.email
  }

  /** Default settings of a newly created reminder: one hour and ten minutes ahead, by browser push. */
  const DefaultIntervals := Intervals(false, true, false, true)
  const DefaultMethods := Methods(true, false)

  /** `event.presaleDate || event.ticketSaleDate`, the sale instant the pages show. */
  function PresaleOrTicketSale(e: Event): (r: Option<Instant>)
    ensures r.Some? <==> e.presaleDate.Some? || e.ticketSaleDate.Some?
    ensures e.presaleDate.Some? ==> r == e.presaleDate
    ensures e.presaleDate.None? ==> r == e.ticketSaleDate
  {
    if e.presaleDate.Some? then e.presaleDate else e.ticketSaleDate
  }

  /** `event.ticketSaleDate || event.date`, the sale instant the reminder evaluator uses. */
  function TicketSaleOrDate(e: Event): Instant
  {
    e.ticketSaleDate.GetOr(e.date)
  }

  /**
   * `new Map(events.map(e => [e.id, e])).get(id)`: a map built from pairs keeps
   * the last event with a given id.
   */
  function LookupEvent(events: seq<Event>, id: Id): (r: Option<Event>)
    ensures r.Some? ==> r.value in events && r.value.id == id
    ensures r.None? <==> forall i :: 0 <= i < |events| ==> events[i].id != id
    ensures r.Some? ==> exists i :: 0 <= i < |events| && events[i] == r.value &&
                          forall j :: i < j < |events| ==> events[j].id != id
  {
    match FindLast(events, (e: Event) => e.id == id)
    case None => None
    case Some(i) => Some(events[i])
  }

  /**
   * A browser localStorage entry as the stores read it: nothing stored (or an
   * empty string), text that does not parse as a list, or a stored list.
   */
  datatype Stored<T> = Absent | Malformed | Present(items: seq<T>)

  /**
   * The guarded read both stores share: outside a browser, with nothing stored
   * or with unparsable contents the list is empty.
   */
  function Load<T>(hasWindow: bool, s: Stored<T>): (r: seq<T>)
    ensures !hasWindow || !s.Present? ==> r == []
    ensures hasWindow && s.Present? ==> r == s.items
  {
    if hasWindow && s.Present? then s.items else []
  }

  /** A category selector with an "all" choice, as the list pages offer it. */
  datatype CategoryFilter = AllCategories | OnlyCategory(category: Category)

  /** `categoryFilter !== 'all' && event.category !== categoryFilter` rejects. */
  predicate CategoryMatches(f: CategoryFilter, c: Category)
  {
    f.AllCategories? || f.category == c
  }

  /** A reminder with the event it refers to, as the list pages join them. */
  datatype Item = Item(reminder: Reminder, event: Event)

  /** The pages' sort key: `presaleDate || ticketSaleDate`, missing last. */
  function SaleKey(it: Item): (k: Key)
    ensures k.missing <==> PresaleOrTicketSale(it.event).None?
    ensures !k.missing ==> k.value == PresaleOrTicketSale(it.event).value
  {
    match PresaleOrTicketSale(it.event)
    case None => Key(true, 0)
    case Some(t) => Key(false, t)
  }
}
