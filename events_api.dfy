/**
 * The public event listing endpoint: query validation with defaults, the
 * optional category / status / search filter, ordering by event date, and
 * page arithmetic. The event table is a sequence of rows.
 */
module EventsApi {
  import opened Wrappers
  import opened Types
  import opened Seqs
  import opened Sorting
  import Arith

  /** A numeric query parameter after coercion to a number. */
  datatype NumParam = Absent | IntValue(n: int) | NonInteger

  /** A positive integer parameter with a default and an optional maximum. */
  function PositiveParam(p: NumParam, default: int, max: Option<int>): (r: Option<int>)
    ensures p.Absent? ==> r == Some(default)
    ensures p.NonInteger? ==> r.None?
    ensures p.IntValue? ==> (r.Some? <==> p.n > 0 && (max.None? || p.n <= max.value))
    ensures p.IntValue? && r.Some? ==> r.value == p.n
  {
    match p
    case Absent => Some(default)
    case NonInteger => None
    case IntValue(n) =>
      if n > 0 && (max.None? || n <= max.value) then Some(n) else None
  }

  /** The text parameters, kept as given; an empty one filters nothing. */
  datatype Filters = Filters(category: Option<string>, search: Option<string>, status: Option<string>)

  /** The validated query. */
  datatype Query = Query(page: int, limit: int, filters: Filters)

  /** Page 1 and limit 10 by default; both positive integers, the limit at most 100. */
  function ParseQuery(page: NumParam, limit: NumParam, category: Option<string>,
                      search: Option<string>, status: Option<string>): (r: Option<Query>)
    ensures r.Some? <==> ((page.Absent? || (page.IntValue? && page.n >= 1))
                          && (limit.Absent? || (limit.IntValue? && 1 <= limit.n <= 100)))
    ensures r.Some? ==> r.value.page >= 1 && 1 <= r.value.limit <= 100
    ensures r.Some? ==> r.value.page == (if page.Absent? then 1 else page.n)
    ensures r.Some? ==> r.value.limit == (if limit.Absent? then 10 else limit.n)
    ensures r.Some? ==> r.value.filters == Filters(category, search, status)
  {
    match (PositiveParam(page, 1, None), PositiveParam(limit, 10, Some(100)))
    case (Some(p), Some(l)) => Some(Query(p, l, Filters(category, search, status)))
    case _ => None
  }

  /** Rows skipped before the requested page. */
  function Skip(page: int, limit: int): (s: nat)
    requires page >= 1 && limit >= 1
    ensures s == (page - 1) * limit
  {
    Arith.MulMonotone(limit, 0, page - 1);
    (page - 1) * limit
  }

  /** A page starts at a multiple of the limit: the row it skips to lies on that page. */
  lemma SkipStartsPage(page: int, limit: int)
    requires page >= 1 && limit >= 1
    ensures Skip(page, limit) / limit == page - 1 && Skip(page, limit) % limit == 0
  {
    Arith.DivModUnique(Skip(page, limit), limit, page - 1, 0);
  }

  /** `Math.ceil(total / limit)`. */
  function Pages(total: nat, limit: int): (p: nat)
    requires limit >= 1
    ensures total == 0 ==> p == 0
    ensures total > 0 ==> (p - 1) * limit < total <= p * limit
  {
    (total + limit - 1) / limit
  }

  /** A page holds some row exactly when its number is at most the page count. */
  lemma PageNonEmptyIff(total: nat, page: int, limit: int)
    requires page >= 1 && limit >= 1
    ensures Skip(page, limit) < total <==> page <= Pages(total, limit)
  {
    var p := Pages(total, limit);
    if page <= p {
      assert (page - 1) * limit <= (p - 1) * limit by {
        Arith.MulMonotone(limit, page - 1, p - 1);
      }
    } else {
      assert p * limit <= (page - 1) * limit by {
        Arith.MulMonotone(limit, p, page - 1);
      }
    }
  }

  /** `if (x)` on an optional string: present and non-empty. */
  predicate Given(x: Option<string>)
  {
    x.Some? && x.value != ""
  }

  /** `contains` with `mode: 'insensitive'` on one column. */
  predicate FieldMatches(field: string, search: string)
  {
    Contains(Lower(field), Lower(search))
  }

  /** The `where` clause: equality filters and the four-column search, each only when given. */
  predicate Matches(f: Filters, e: Event)
  {
    (!Given(f.category) || CategoryName(e.category) == f.category.value)
    && (!Given(f.status) || StatusName(e.status) == f.status.value)
    && (!Given(f.search) ||
        FieldMatches(e.title, f.search.value)
        || (e.artist.Some? && FieldMatches(e.artist.value, f.search.value))
        || FieldMatches(e.venue, f.search.value)
        || FieldMatches(e.location, f.search.value))
  }

  /** Without any filter every row matches. */
  lemma NoFiltersMatchAll(f: Filters, e: Event)
    requires !Given(f.category) && !Given(f.status) && !Given(f.search)
    ensures Matches(f, e)
  {
  }

  /** A row with no artist can match the search only through its title, venue or location. */
  lemma NullArtistNeverMatches(f: Filters, e: Event)
    requires Given(f.search) && e.artist.None?
    requires !FieldMatches(e.title, f.search.value) && !FieldMatches(e.venue, f.search.value)
    requires !FieldMatches(e.location, f.search.value)
    ensures !Matches(f, e)
  {
  }

  function DateKey(e: Event): Key
  {
    Key(false, e.date)
  }

  /** The matching rows ordered by date ascending. */
  function Ordered(table: seq<Event>, f: Filters): (r: seq<Event>)
    ensures SortedBy(r, DateKey)
    ensures multiset(r) == multiset(Filter(table, e => Matches(f, e)))
    ensures |r| == Count(table, e => Matches(f, e))
  {
    SortBy(Filter(table, e => Matches(f, e)), DateKey)
  }

  lemma OrderedMembers(table: seq<Event>, f: Filters, e: Event)
    requires e in Ordered(table, f)
    ensures e in table && Matches(f, e)
  {
    assert e in multiset(Filter(table, e => Matches(f, e)));
    var m := Filter(table, e => Matches(f, e));
    assert e in m;
  }

  /** `skip` then `take`. */
  function Window<T>(s: seq<T>, skip: nat, take: nat): (r: seq<T>)
    ensures |r| <= take
    ensures skip >= |s| ==> r == []
    ensures skip < |s| ==> |r| == (if skip + take <= |s| then take else |s| - skip)
    ensures skip < |s| ==> r == s[skip..skip + |r|]
  {
    if skip >= |s| then [] else Take(s[skip..], take)
  }

  lemma WindowMembers<T>(o: seq<T>, skip: nat, take: nat)
    ensures forall x :: x in Window(o, skip, take) ==> x in o
  {
    var r := Window(o, skip, take);
    forall x | x in r
      ensures x in o
    {
      var k :| 0 <= k < |r| && r[k] == x;
      assert o[skip + k] == x;
    }
  }

  lemma WindowByDate(o: seq<Event>, skip: nat, take: nat)
    requires SortedBy(o, DateKey)
    ensures var r := Window(o, skip, take);
            forall i, j :: 0 <= i < j < |r| ==> r[i].date <= r[j].date
  {
    var r := Window(o, skip, take);
    forall i, j | 0 <= i < j < |r|
      ensures r[i].date <= r[j].date
    {
      assert r[i] == o[skip + i] && r[j] == o[skip + j];
      assert KeyLe(DateKey(o[skip + i]), DateKey(o[skip + j]));
    }
  }

  /** The rows of the requested page. */
  function PageRows(table: seq<Event>, f: Filters, page: int, limit: int): (r: seq<Event>)
    requires page >= 1 && limit >= 1
    ensures |r| <= limit
    ensures forall e :: e in r ==> e in table && Matches(f, e)
    ensures forall i, j :: 0 <= i < j < |r| ==> r[i].date <= r[j].date
  {
    var o := Ordered(table, f);
    WindowMembers(o, Skip(page, limit), limit);
    WindowByDate(o, Skip(page, limit), limit);
    forall e | e in o
      ensures e in table && Matches(f, e)
    {
      OrderedMembers(table, f, e);
    }
    Window(o, Skip(page, limit), limit)
  }

  lemma WindowAt<T>(o: seq<T>, skip: nat, take: nat, k: nat)
    requires skip + k < |o| && k < take
    ensures k < |Window(o, skip, take)| && Window(o, skip, take)[k] == o[skip + k]
  {
  }

  /**
   * The row at position `i == q * limit + k` of the order is row `k` of page `q + 1`,
   * and that page is within the page count.
   */
  lemma RowOnItsPage(table: seq<Event>, f: Filters, limit: int, q: nat, k: nat, i: nat)
    requires limit >= 1 && k < limit && i == q * limit + k
    requires i < |Ordered(table, f)|
    ensures q + 1 <= Pages(|Ordered(table, f)|, limit)
    ensures k < |PageRows(table, f, q + 1, limit)|
    ensures PageRows(table, f, q + 1, limit)[k] == Ordered(table, f)[i]
  {
    var o := Ordered(table, f);
    assert PageRows(table, f, q + 1, limit) == Window(o, Skip(q + 1, limit), limit);
    WindowPage(o, limit, q, k, i);
  }

  /** Paging over any sequence: position `q * limit + k` is row `k` of page `q + 1`. */
  lemma WindowPage<T>(o: seq<T>, limit: int, q: nat, k: nat, i: nat)
    requires limit >= 1 && k < limit && i == q * limit + k
    requires i < |o|
    ensures q + 1 <= Pages(|o|, limit)
    ensures k < |Window(o, Skip(q + 1, limit), limit)|
    ensures Window(o, Skip(q + 1, limit), limit)[k] == o[i]
  {
    assert Skip(q + 1, limit) == q * limit;
    WindowAt(o, q * limit, limit, k);
    PageNonEmptyIff(|o|, q + 1, limit);
  }

  /**
   * The JSON form of a row; instants become ISO strings through `iso`, absent
   * sale dates `null`, and the remaining columns are copied.
   */
  datatype WireEvent = WireEvent(
    id: Id, title: string, artist: Option<string>, venue: string, location: string,
    date: string, category: Category, imageUrl: string, description: string,
    ticketSaleDate: Option<string>, presaleDate: Option<string>, ticketUrl: Option<string>,
    status: EventStatus)

  /** `d?.toISOString() || null`. */
  function IsoOrNull(d: Option<Instant>, iso: Instant -> string): (r: Option<string>)
    ensures r.None? <==> d.None?
    ensures d.Some? ==> r == Some(iso(d.value))
  {
    match d
    case None => None
    case Some(t) => Some(iso(t))
  }

  function Serialize(e: Event, iso: Instant -> string): (w: WireEvent)
    ensures w.id == e.id && w.title == e.title && w.artist == e.artist && w.venue == e.venue
    ensures w.location == e.location && w.category == e.category && w.status == e.status
    ensures w.imageUrl == e.imageUrl && w.description == e.description && w.ticketUrl == e.ticketUrl
    ensures w.date == iso(e.date)
    ensures w.ticketSaleDate == IsoOrNull(e.ticketSaleDate, iso)
    ensures w.presaleDate == IsoOrNull(e.presaleDate, iso)
  {
    WireEvent(e.id, e.title, e.artist, e.venue, e.location, iso(e.date), e.category,
              e.imageUrl, e.description, IsoOrNull(e.ticketSaleDate, iso), IsoOrNull(e.presaleDate, iso),
              e.ticketUrl, e.status)
  }

  datatype Pagination = Pagination(page: int, limit: int, total: nat, pages: nat)

  datatype EventsReply =
    | BadQuery                                             // 400
    | Listing(events: seq<WireEvent>, pagination: Pagination)  // 200

  function Status(r: EventsReply): int
  {
    if r.BadQuery? then 400 else 200
  }

  /** The GET handler over the event table. */
  function Get(table: seq<Event>, page: NumParam, limit: NumParam, category: Option<string>,
               search: Option<string>, status: Option<string>, iso: Instant -> string): (r: EventsReply)
    ensures r.BadQuery? <==> ParseQuery(page, limit, category, search, status).None?
    ensures r.Listing? ==>
              var q := ParseQuery(page, limit, category, search, status).value;
              var rows := PageRows(table, q.filters, q.page, q.limit);
              && r.pagination == Pagination(q.page, q.limit, Count(table, e => Matches(q.filters, e)),
                                            Pages(Count(table, e => Matches(q.filters, e)), q.limit))
              && |r.events| == |rows| <= q.limit
              && forall i :: 0 <= i < |rows| ==> r.events[i] == Serialize(rows[i], iso)
  {
    match ParseQuery(page, limit, category, search, status)
    case None => BadQuery
    case Some(q) =>
      var rows := PageRows(table, q.filters, q.page, q.limit);
      var total := Count(table, e => Matches(q.filters, e));
      Listing(seq(|rows|, i requires 0 <= i < |rows| => Serialize(rows[i], iso)),
              Pagination(q.page, q.limit, total, Pages(total, q.limit)))
  }

  /** Any limit above 100 is refused with 400, whatever the other parameters. */
  lemma LimitAboveHundredRefused(table: seq<Event>, page: NumParam, n: int, category: Option<string>,
                                 search: Option<string>, status: Option<string>, iso: Instant -> string)
    requires n > 100
    ensures Status(Get(table, page, IntValue(n), category, search, status, iso)) == 400
  {
  }

  /**
   * The events a page sees after `useEvents` (`data?.events || []`): a reply
   * that is not OK makes the hook throw, so its data stay null and the list is
   * empty; an OK reply gives its events.
   */
  function FetchedEvents(r: EventsReply): (evs: seq<WireEvent>)
    ensures Status(r) != 200 ==> evs == []
    ensures Status(r) == 200 ==> evs == r.events
  {
    match r
    case BadQuery => []
    case Listing(events, _) => events
  }

  /**
   * The request `useEvents(1, 200)` sends (page 1, limit 200, no filters) is
   * refused with 400, so its caller sees no events, whatever the table holds.
   */
  lemma TwoHundredPerPageSeesNothing(table: seq<Event>, iso: Instant -> string)
    ensures Status(Get(table, IntValue(1), IntValue(200), None, None, None, iso)) == 400
    ensures FetchedEvents(Get(table, IntValue(1), IntValue(200), None, None, None, iso)) == []
  {
    LimitAboveHundredRefused(table, IntValue(1), 200, None, None, None, iso);
  }
}
