/**
 * The event browsing pages (home and "Discover Events"): the query they send
 * to the listing endpoint, the client-side search over the page they get
 * back, and the set of events the user already has an active reminder for.
 */
module EventSearch {
  import opened Wrappers
  import opened Types
  import opened Seqs
  import EventsApi

  /** The category sent to the endpoint: none for "all". */
  function CategoryParam(f: CategoryFilter): (r: Option<string>)
    ensures r.None? <==> f.AllCategories?
    ensures f.OnlyCategory? ==> r == Some(CategoryName(f.category))
  {
    match f
    case AllCategories => None
    case OnlyCategory(c) => Some(CategoryName(c))
  }

  /** `searchQuery || undefined`: an empty search box sends no search. */
  function SearchParam(query: string): (r: Option<string>)
    ensures r.None? <==> query == ""
    ensures r.Some? ==> r.value == query
  {
    if query == "" then None else Some(query)
  }

  /** The filters both pages send with page 1 and limit 20. */
  function PageFilters(f: CategoryFilter, query: string): (r: EventsApi.Filters)
    ensures r.category == CategoryParam(f) && r.search == SearchParam(query) && r.status.None?
  {
    EventsApi.Filters(CategoryParam(f), SearchParam(query), None)
  }

  /** Title, artist (empty when absent) and location, separated by spaces, lower-cased. */
  function Haystack(e: Event): string
  {
    Lower(e.title + " " + e.artist.GetOr("") + " " + e.location)
  }

  predicate Keeps(query: string, e: Event)
  {
    Contains(Haystack(e), Lower(query))
  }

  /** Upper- and lower-case letters in the query are alike. */
  lemma QueryCaseIgnored(query: string, e: Event)
    ensures Keeps(Lower(query), e) == Keeps(query, e)
  {
    LowerIdempotent(query);
  }

  /** The client-side search over the fetched page (`data?.events || []`). */
  function ClientFilter(fetched: Option<seq<Event>>, query: string): (r: seq<Event>)
    ensures fetched.None? ==> r == []
    ensures fetched.Some? && query == "" ==> r == fetched.value
    ensures fetched.Some? && query != "" ==>
              (forall e :: e in r <==> e in fetched.value && Keeps(query, e))
    ensures fetched.Some? && query != "" ==> |r| == Count(fetched.value, (e: Event) => Keeps(query, e))
  {
    var events := fetched.GetOr([]);
    if query == "" then events else Filter(events, e => Keeps(query, e))
  }

  /** The search keeps the order of the fetched events and only removes some of them. */
  lemma ClientFilterIsSubseq(fetched: Option<seq<Event>>, query: string)
    ensures Subseq(ClientFilter(fetched, query), fetched.GetOr([]))
  {
    if query == "" {
      SubseqRefl(fetched.GetOr([]));
    } else {
      FilterIsSubseq(fetched.GetOr([]), e => Keeps(query, e));
    }
  }

  /**
   * The venue is searched by the endpoint but not by the page, so an event the
   * endpoint returns for its venue alone is dropped again on the client.
   */
  lemma VenueOnlyMatchDropped()
    ensures exists e: Event, query: string ::
              EventsApi.Matches(PageFilters(AllCategories, query), e) && !Keeps(query, e)
  {
    var e := Event("e1", "A", None, "Arena", "B", 0, Concert, "", "", None, None, None, Upcoming, []);
    var query := "arena";
    assert Lower(e.venue) == "arena";
    assert StartsWith(Lower(e.venue)[0..], Lower(query));
    assert EventsApi.FieldMatches(e.venue, query);
    assert |Haystack(e)| == 4;
    assert !Keeps(query, e);
    assert EventsApi.Matches(PageFilters(AllCategories, query), e);
  }

  /** `new Set(reminders.filter(active).map(r => r.eventId))`. */
  function ReminderEventIds(reminders: seq<Reminder>): (ids: set<Id>)
    ensures forall id :: id in ids <==> exists r :: r in reminders && r.status == Active && r.eventId == id
  {
    set r | r in reminders && r.status == Active :: r.eventId
  }
}
