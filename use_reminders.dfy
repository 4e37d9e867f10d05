/**
 * The client-side reminder list state: it is loaded from the reminders API
 * and patched locally after each successful create, update or delete.
 * Responses are parameters; a failed request leaves the list as it was.
 */
module UseReminders {
  import opened Wrappers
  import opened Types
  import opened Seqs
  import opened Decimal

  /** A reminder as it arrives in JSON: the creation time is still text. */
  datatype WireReminder = WireReminder(
    id: Id, eventId: Id, userId: Id, intervals: Intervals, notificationMethods: Methods,
    createdAt: string, status: ReminderStatus)

  /** `normalizeReminder`: parse the creation time; `parse` stands for `new Date(text)`. */
  function Normalize(w: WireReminder, parse: string -> Instant): (r: Reminder)
    ensures r.id == w.id && r.eventId == w.eventId && r.userId == w.userId
    ensures r.intervals == w.intervals && r.notificationMethods == w.notificationMethods
    ensures r.status == w.status
    ensures r.createdAt == parse(w.createdAt)
  {
    Reminder(w.id, w.eventId, w.userId, w.intervals, w.notificationMethods, parse(w.createdAt), w.status)
  }

  /** The JSON form of a reminder; `format` stands for the date serialisation. */
  function Serialize(r: Reminder, format: Instant -> string): WireReminder
  {
    WireReminder(r.id, r.eventId, r.userId, r.intervals, r.notificationMethods, format(r.createdAt), r.status)
  }

  /** Normalising what the server serialised gives the reminder back when the date text parses back. */
  lemma NormalizeSerialize(r: Reminder, format: Instant -> string, parse: string -> Instant)
    requires parse(format(r.createdAt)) == r.createdAt
    ensures Normalize(Serialize(r, format), parse) == r
  {
  }

  /** The list after a create: the new reminder first, without the active ones for its event. */
  function ApplyCreated(current: seq<Reminder>, created: Reminder): (r: seq<Reminder>)
    ensures |r| >= 1 && r[0] == created
  {
    [created] + Filter(current, (item: Reminder) => !(item.eventId == created.eventId && item.status == Active))
  }

  /**
   * After a create the rest of the list is the old list without its active
   * reminders for the same event, in the old order; everything else is kept,
   * so the list grows by one less the number of those active reminders.
   */
  lemma ApplyCreatedSpec(current: seq<Reminder>, created: Reminder)
    ensures var r := ApplyCreated(current, created);
      && (forall i :: 1 <= i < |r| ==> !(r[i].eventId == created.eventId && r[i].status == Active))
      && (forall i :: 0 <= i < |current| && !(current[i].eventId == created.eventId && current[i].status == Active)
            ==> current[i] in r[1..])
      && Subseq(r[1..], current)
      && |r| == 1 + |current| - Count(current, (item: Reminder) => item.eventId == created.eventId && item.status == Active)
  {
    var p := (item: Reminder) => !(item.eventId == created.eventId && item.status == Active);
    var r := ApplyCreated(current, created);
    CountComplement(current, (item: Reminder) => item.eventId == created.eventId && item.status == Active, p);
    assert r[1..] == Filter(current, p);
    FilterIsSubseq(current, p);
    forall i | 1 <= i < |r|
      ensures !(r[i].eventId == created.eventId && r[i].status == Active)
    {
      assert r[i] == r[1..][i - 1];
    }
  }

  /** The list after an update: every item with the id is replaced, the others stay in place. */
  function ApplyUpdated(current: seq<Reminder>, id: Id, updated: Reminder): (r: seq<Reminder>)
    ensures |r| == |current|
    ensures forall i :: 0 <= i < |r| && current[i].id == id ==> r[i] == updated
    ensures forall i :: 0 <= i < |r| && current[i].id != id ==> r[i] == current[i]
  {
    seq(|current|, i requires 0 <= i < |current| => if current[i].id == id then updated else current[i])
  }

  /** Updating an id that is not in the list changes nothing. */
  lemma ApplyUpdatedAbsent(current: seq<Reminder>, id: Id, updated: Reminder)
    requires forall i :: 0 <= i < |current| ==> current[i].id != id
    ensures ApplyUpdated(current, id, updated) == current
  {
  }

  /** The list after a delete. */
  function ApplyRemoved(current: seq<Reminder>, id: Id): seq<Reminder>
  {
    Filter(current, (item: Reminder) => item.id != id)
  }

  /** A delete drops exactly the items with the id and keeps the others in order. */
  lemma ApplyRemovedSpec(current: seq<Reminder>, id: Id)
    ensures var r := ApplyRemoved(current, id);
      && (forall i :: 0 <= i < |r| ==> r[i].id != id)
      && (forall i :: 0 <= i < |current| && current[i].id != id ==> current[i] in r)
      && Subseq(r, current)
      && |r| == |current| - Count(current, (item: Reminder) => item.id == id)
  {
    FilterIsSubseq(current, (item: Reminder) => item.id != id);
    CountComplement(current, (item: Reminder) => item.id == id, (item: Reminder) => item.id != id);
  }

  /** The body of a response, as far as the hook reads it. */
  datatype Payload =
    | ListBody(items: seq<WireReminder>)
    | ItemBody(item: WireReminder)
    | ErrorBody(error: Option<string>)
    | Unparsable

  /** The outcome of a `fetch`: the request failed, or a status, its text and a body. */
  datatype Response = NetworkFailure | Http(status: int, statusText: string, body: Payload)

  predicate Ok(resp: Response)
  {
    resp.Http? && 200 <= resp.status <= 299
  }

  /** What a failed call reports. */
  datatype Failure =
    | RequestFailed
    | HttpFailure(status: int, statusText: string)
    | MalformedBody
    | ApiError(message: string)

  /** `body?.error || fallback`: the server's message, or the fallback when there is none. */
  function ErrorText(body: Payload, fallback: string): (m: string)
    ensures body.ErrorBody? && body.error.Some? && body.error.value != "" ==> m == body.error.value
    ensures !(body.ErrorBody? && body.error.Some? && body.error.value != "") ==> m == fallback
  {
    if body.ErrorBody? && body.error.Some? && body.error.value != "" then body.error.value else fallback
  }

  /** The text `fetchReminders` puts in the error for a non-ok status. */
  function HttpMessage(status: int, statusText: string): string
  {
    "HTTP " + IntToString(status) + ": " + statusText
  }

  /** The hook's state. */
  class RemindersHook {
    var reminders: seq<Reminder>
    var loading: bool
    var error: Option<Failure>

    constructor ()
      ensures reminders == [] && loading && error == None
    {
      reminders := [];
      loading := true;
      error := None;
    }

    /**
     * `fetchReminders`: 401 empties the list, a list body replaces it with the
     * normalised items, and every other outcome records an error and keeps the list.
     */
    method FetchReminders(resp: Response, parse: string -> Instant)
      modifies this
      ensures !loading
      ensures resp.Http? && resp.status == 401 ==> reminders == [] && error == None
      ensures resp.Http? && resp.status != 401 && Ok(resp) && resp.body.ListBody? ==>
                reminders == seq(|resp.body.items|, i requires 0 <= i < |resp.body.items| => Normalize(resp.body.items[i], parse))
                && error == None
      ensures resp.NetworkFailure? ==> reminders == old(reminders) && error == Some(RequestFailed)
      ensures resp.Http? && resp.status != 401 && !Ok(resp) ==>
                reminders == old(reminders) && error == Some(HttpFailure(resp.status, resp.statusText))
      ensures Ok(resp) && !resp.body.ListBody? ==> reminders == old(reminders) && error == Some(MalformedBody)
    {
      loading := true;
      error := None;
      match resp {
        case NetworkFailure =>
          error := Some(RequestFailed);
        case Http(status, statusText, body) =>
          if status == 401 {
            reminders := [];
          } else if !(200 <= status <= 299) {
            error := Some(HttpFailure(status, statusText));
          } else if body.ListBody? {
            reminders := seq(|body.items|, i requires 0 <= i < |body.items| => Normalize(body.items[i], parse));
          } else {
            error := Some(MalformedBody);
          }
      }
      loading := false;
    }

    /** `createReminder` after the POST: on success the created reminder goes first. */
    method CreateReminder(resp: Response, parse: string -> Instant) returns (result: Result<Reminder, Failure>)
      modifies this
      ensures result.Success? <==> Ok(resp) && resp.body.ItemBody?
      ensures result.Success? ==> result.value == Normalize(resp.body.item, parse)
                                  && reminders == ApplyCreated(old(reminders), result.value)
      ensures result.Failure? ==> reminders == old(reminders)
      ensures resp.Http? && !Ok(resp) ==> result == Failure(ApiError(ErrorText(resp.body, "Failed to create reminder")))
      ensures loading == old(loading) && error == old(error)
    {
      if !Ok(resp) {
        if resp.NetworkFailure? {
          return Failure(RequestFailed);
        }
        return Failure(ApiError(ErrorText(resp.body, "Failed to create reminder")));
      }
      if !resp.body.ItemBody? {
        return Failure(MalformedBody);
      }
      var created := Normalize(resp.body.item, parse);
      reminders := ApplyCreated(reminders, created);
      return Success(created);
    }

    /** `updateReminder` after the PATCH: on success every item with the id is replaced. */
    method UpdateReminder(id: Id, resp: Response, parse: string -> Instant) returns (result: Result<Reminder, Failure>)
      modifies this
      ensures result.Success? <==> Ok(resp) && resp.body.ItemBody?
      ensures result.Success? ==> result.value == Normalize(resp.body.item, parse)
                                  && reminders == ApplyUpdated(old(reminders), id, result.value)
      ensures result.Failure? ==> reminders == old(reminders)
      ensures resp.Http? && !Ok(resp) ==> result == Failure(ApiError(ErrorText(resp.body, "Failed to update reminder")))
      ensures loading == old(loading) && error == old(error)
    {
      if !Ok(resp) {
        if resp.NetworkFailure? {
          return Failure(RequestFailed);
        }
        return Failure(ApiError(ErrorText(resp.body, "Failed to update reminder")));
      }
      if !resp.body.ItemBody? {
        return Failure(MalformedBody);
      }
      var updated := Normalize(resp.body.item, parse);
      reminders := ApplyUpdated(reminders, id, updated);
      return Success(updated);
    }

    /** `removeReminder` after the DELETE: on success the items with the id are dropped. */
    method RemoveReminder(id: Id, resp: Response) returns (result: Result<(), Failure>)
      modifies this
      ensures result.Success? <==> Ok(resp)
      ensures result.Success? ==> reminders == ApplyRemoved(old(reminders), id)
      ensures result.Failure? ==> reminders == old(reminders)
      ensures resp.Http? && !Ok(resp) ==> result == Failure(ApiError(ErrorText(resp.body, "Failed to delete reminder")))
      ensures loading == old(loading) && error == old(error)
    {
      if !Ok(resp) {
        if resp.NetworkFailure? {
          return Failure(RequestFailed);
        }
        return Failure(ApiError(ErrorText(resp.body, "Failed to delete reminder")));
      }
      reminders := ApplyRemoved(reminders, id);
      return Success(());
    }
  }
}
