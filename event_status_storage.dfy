/**
 * The browser-side "tickets secured" flags, one entry per (event, user) pair,
 * kept under one localStorage key and updated in place.
 */
module EventStatusStorage {
  import opened Wrappers
  import opened Types
  import opened Seqs

  const StorageKey := "ticketcue-event-statuses"

  predicate IsPair(s: EventUserStatus, eventId: Id, userId: Id)
  {
    s.eventId == eventId && s.userId == userId
  }

  /** No (event, user) pair occurs twice. */
  ghost predicate UniquePairs(ss: seq<EventUserStatus>)
  {
    forall i, j :: 0 <= i < j < |ss| ==> !IsPair(ss[j], ss[i].eventId, ss[i].userId)
  }

  /** The first entry for the pair, if any. */
  function FindPair(ss: seq<EventUserStatus>, eventId: Id, userId: Id): (r: Option<EventUserStatus>)
    ensures r.Some? ==> exists i :: 0 <= i < |ss| && ss[i] == r.value
                          && forall j :: 0 <= j < i ==> !IsPair(ss[j], eventId, userId)
    ensures r.Some? ==> IsPair(r.value, eventId, userId)
    ensures r.None? <==> forall i :: 0 <= i < |ss| ==> !IsPair(ss[i], eventId, userId)
  {
    match FindFirst(ss, (s: EventUserStatus) => IsPair(s, eventId, userId))
    case None => None
    case Some(i) => Some(ss[i])
  }

  /** The list after saving `st`: it replaces the first entry for its pair, or is appended. */
  function Put(ss: seq<EventUserStatus>, st: EventUserStatus): seq<EventUserStatus>
  {
    match FindFirst(ss, (s: EventUserStatus) => IsPair(s, st.eventId, st.userId))
    case None => ss + [st]
    case Some(i) => ss[i := st]
  }

  /**
   * A save replaces in place or appends: a pair without an entry gets `st`
   * appended; otherwise only its first entry is overwritten and any later
   * entry for the pair stays. Every entry for another pair keeps its place,
   * and the saved entry is what a lookup of its pair finds.
   */
  lemma PutSpec(ss: seq<EventUserStatus>, st: EventUserStatus)
    ensures var u := Put(ss, st);
      && |ss| <= |u| <= |ss| + 1
      && (|u| == |ss| + 1 <==> FindPair(ss, st.eventId, st.userId).None?)
      && (FindPair(ss, st.eventId, st.userId).None? ==> u == ss + [st])
      && (FindPair(ss, st.eventId, st.userId).Some? ==>
            exists k :: 0 <= k < |ss| && IsPair(ss[k], st.eventId, st.userId)
                        && (forall j :: 0 <= j < k ==> !IsPair(ss[j], st.eventId, st.userId))
                        && u == ss[k := st])
      && (forall i :: 0 <= i < |ss| && !IsPair(ss[i], st.eventId, st.userId) ==> u[i] == ss[i])
      && FindPair(u, st.eventId, st.userId) == Some(st)
  {
    var u := Put(ss, st);
    match FindFirst(ss, (s: EventUserStatus) => IsPair(s, st.eventId, st.userId))
    case None =>
      assert u[|ss|] == st;
    case Some(k) =>
      assert u[k] == st;
      assert forall j :: 0 <= j < k ==> u[j] == ss[j];
      assert IsPair(ss[k], st.eventId, st.userId) && u == ss[k := st];
  }

  /** Saving keeps each pair unique. */
  lemma PutKeepsUnique(ss: seq<EventUserStatus>, st: EventUserStatus)
    requires UniquePairs(ss)
    ensures UniquePairs(Put(ss, st))
  {
    var u := Put(ss, st);
    match FindFirst(ss, (s: EventUserStatus) => IsPair(s, st.eventId, st.userId))
    case None =>
      forall i, j | 0 <= i < j < |u|
        ensures !IsPair(u[j], u[i].eventId, u[i].userId)
      {
        if j == |ss| {
          assert !IsPair(ss[i], st.eventId, st.userId);
        }
      }
    case Some(k) =>
      forall i, j | 0 <= i < j < |u|
        ensures !IsPair(u[j], u[i].eventId, u[i].userId)
      {
        if i == k {
          assert IsPair(ss[k], st.eventId, st.userId);
        } else if j == k {
          assert IsPair(ss[k], st.eventId, st.userId);
        }
      }
  }

  /** The list after deleting the pair's entries. */
  function RemovePair(ss: seq<EventUserStatus>, eventId: Id, userId: Id): seq<EventUserStatus>
  {
    Filter(ss, (s: EventUserStatus) => !IsPair(s, eventId, userId))
  }

  /** Deleting removes exactly the pair's entries and keeps the rest in order, one copy for each. */
  lemma RemovePairSpec(ss: seq<EventUserStatus>, eventId: Id, userId: Id)
    ensures var d := RemovePair(ss, eventId, userId);
      && (forall i :: 0 <= i < |d| ==> !IsPair(d[i], eventId, userId))
      && (forall i :: 0 <= i < |ss| && !IsPair(ss[i], eventId, userId) ==> ss[i] in d)
      && Subseq(d, ss)
      && FindPair(d, eventId, userId).None?
      && |d| == |ss| - Count(ss, (s: EventUserStatus) => IsPair(s, eventId, userId))
  {
    FilterIsSubseq(ss, (s: EventUserStatus) => !IsPair(s, eventId, userId));
    CountComplement(ss, (s: EventUserStatus) => IsPair(s, eventId, userId), (s: EventUserStatus) => !IsPair(s, eventId, userId));
  }

  /** `status?.ticketsSecured || false` over a list. */
  function SecuredIn(ss: seq<EventUserStatus>, eventId: Id, userId: Id): bool
  {
    match FindPair(ss, eventId, userId)
    case None => false
    case Some(s) => s.ticketsSecured
  }

  /** Recording a flag and reading it back gives the flag recorded. */
  lemma SecuredAfterPut(ss: seq<EventUserStatus>, st: EventUserStatus)
    ensures SecuredIn(Put(ss, st), st.eventId, st.userId) == st.ticketsSecured
  {
    PutSpec(ss, st);
  }

  /** With no entry for the pair the flag reads false. */
  lemma NotSecuredWithoutEntry(ss: seq<EventUserStatus>, eventId: Id, userId: Id)
    requires forall i :: 0 <= i < |ss| ==> !IsPair(ss[i], eventId, userId)
    ensures !SecuredIn(ss, eventId, userId)
  {
  }

  /** The status list's storage slot. */
  class EventStatusStore {
    /** Whether a browser window exists. */
    const hasWindow: bool
    var stored: Stored<EventUserStatus>

    constructor (hasWindow: bool, stored: Stored<EventUserStatus>)
      ensures this.hasWindow == hasWindow && this.stored == stored
    {
      this.hasWindow := hasWindow;
      this.stored := stored;
    }

    /** `getEventStatuses`. */
    function GetEventStatuses(): seq<EventUserStatus>
      reads this
    {
      Load(hasWindow, stored)
    }

    /** `getEventStatus`: the first entry for the pair; the user defaults to `default-user`. */
    function GetEventStatus(eventId: Id, userId: Id := DefaultUser): Option<EventUserStatus>
      reads this
    {
      FindPair(GetEventStatuses(), eventId, userId)
    }

    /** `hasTicketsSecured`. */
    function HasTicketsSecured(eventId: Id, userId: Id := DefaultUser): bool
      reads this
    {
      SecuredIn(GetEventStatuses(), eventId, userId)
    }

    /** `saveEventStatus`: overwrite the pair's entry at its index, else append. */
    method SaveEventStatus(status: EventUserStatus)
      modifies this
      ensures hasWindow ==> stored == Present(Put(old(GetEventStatuses()), status))
      ensures !hasWindow ==> stored == old(stored)
      ensures hasWindow ==> GetEventStatuses() == Put(old(GetEventStatuses()), status)
    {
      if !hasWindow {
        return;
      }
      var statuses := GetEventStatuses();
      var existingIndex := FindFirst(statuses, (s: EventUserStatus) => IsPair(s, status.eventId, status.userId));
      if existingIndex.Some? {
        statuses := statuses[existingIndex.value := status];
      } else {
        statuses := statuses + [status];
      }
      stored := Present(statuses);
    }

    /** `updateTicketsSecured`: save a fresh status for the pair and return it. */
    method UpdateTicketsSecured(eventId: Id, secured: bool, now: Instant, userId: Id := DefaultUser)
      returns (status: EventUserStatus)
      modifies this
      ensures status == EventUserStatus(eventId, userId, secured, now)
      ensures hasWindow ==> stored == Present(Put(old(GetEventStatuses()), status))
      ensures hasWindow ==> HasTicketsSecured(eventId, userId) == secured
      ensures !hasWindow ==> stored == old(stored)
    {
      status := EventUserStatus(eventId, userId, secured, now);
      SaveEventStatus(status);
      SecuredAfterPut(old(GetEventStatuses()), status);
    }

    /** `deleteEventStatus`. */
    method DeleteEventStatus(eventId: Id, userId: Id := DefaultUser)
      modifies this
      ensures hasWindow ==> stored == Present(RemovePair(old(GetEventStatuses()), eventId, userId))
      ensures !hasWindow ==> stored == old(stored)
      ensures hasWindow ==> GetEventStatuses() == RemovePair(old(GetEventStatuses()), eventId, userId)
    {
      if !hasWindow {
        return;
      }
      var statuses := GetEventStatuses();
      var filtered := Filter(statuses, (s: EventUserStatus) => !IsPair(s, eventId, userId));
      stored := Present(filtered);
    }
  }
}
