/**
 * The browser-side reminder list kept under one localStorage key: reminders
 * are upserted and deleted by id, and looked up by event.
 */
module ReminderStorage {
  import opened Wrappers
  import opened Types
  import opened Seqs

  const StorageKey := "ticketcue_reminders"

  /** The list after saving `r`: every entry with `r`'s id removed, then `r` appended. */
  function Upsert(rs: seq<Reminder>, r: Reminder): seq<Reminder>
  {
    Filter(rs, (x: Reminder) => x.id != r.id) + [r]
  }

  /** The list after deleting `id`. */
  function RemoveId(rs: seq<Reminder>, id: Id): seq<Reminder>
  {
    Filter(rs, (x: Reminder) => x.id != id)
  }

  /**
   * After a save exactly one entry carries `r.id`: `r` itself, in last place;
   * the others are exactly the old entries with a different id, in their old order.
   */
  lemma UpsertSpec(rs: seq<Reminder>, r: Reminder)
    ensures var u := Upsert(rs, r);
      && |u| >= 1 && u[|u| - 1] == r
      && (forall i :: 0 <= i < |u| && u[i].id == r.id ==> i == |u| - 1)
      && Subseq(u[..|u| - 1], rs)
      && (forall i :: 0 <= i < |rs| && rs[i].id != r.id ==> rs[i] in u)
      && |u| == |rs| + 1 - Count(rs, (x: Reminder) => x.id == r.id)
  {
    var u := Upsert(rs, r);
    var f := Filter(rs, (x: Reminder) => x.id != r.id);
    CountComplement(rs, (x: Reminder) => x.id == r.id, (x: Reminder) => x.id != r.id);
    assert u[..|u| - 1] == f;
    FilterIsSubseq(rs, (x: Reminder) => x.id != r.id);
  }

  /**
   * Deleting keeps exactly the entries with another id, in order, one copy for
   * each; an absent id changes nothing.
   */
  lemma RemoveIdSpec(rs: seq<Reminder>, id: Id)
    ensures var d := RemoveId(rs, id);
      && (forall i :: 0 <= i < |d| ==> d[i].id != id)
      && (forall i :: 0 <= i < |rs| && rs[i].id != id ==> rs[i] in d)
      && Subseq(d, rs)
      && |d| == |rs| - Count(rs, (x: Reminder) => x.id == id)
    ensures (forall i :: 0 <= i < |rs| ==> rs[i].id != id) ==> RemoveId(rs, id) == rs
  {
    FilterIsSubseq(rs, (x: Reminder) => x.id != id);
    CountComplement(rs, (x: Reminder) => x.id == id, (x: Reminder) => x.id != id);
    if forall i :: 0 <= i < |rs| ==> rs[i].id != id {
      FilterAll(rs, (x: Reminder) => x.id != id);
    }
  }

  /** `options.userId || 'default-user'`: a missing or empty user id falls back to the default. */
  function UserIdOrDefault(userId: Option<string>): (u: string)
    ensures userId.Some? && userId.value != "" ==> u == userId.value
    ensures userId.None? || userId == Some("") ==> u == DefaultUser
  {
    if userId.Some? && userId.value != "" then userId.value else DefaultUser
  }

  /**
   * `createReminder`: an active reminder for `eventId` with the default owner,
   * intervals and methods; `freshId` and `now` stand for the generated id and the clock.
   */
  function CreateReminder(eventId: Id, freshId: Id, now: Instant): (r: Reminder)
    ensures r.id == freshId && r.eventId == eventId && r.createdAt == now
    ensures r.userId == DefaultUser && r.status == Active
    ensures r.intervals == Intervals(false, true, false, true)
    ensures r.notificationMethods == Methods(true, false)
  {
    Reminder(freshId, eventId, DefaultUser, DefaultIntervals, DefaultMethods, now, Active)
  }

  /** The reminder `addReminder` builds from its options. */
  function BuildReminder(eventId: Id, userId: Option<string>, intervals: Option<Intervals>,
                         methods: Option<Methods>, freshId: Id, now: Instant): (r: Reminder)
    ensures r.id == freshId && r.eventId == eventId && r.createdAt == now && r.status == Active
    ensures r.userId == UserIdOrDefault(userId)
    ensures r.intervals == intervals.GetOr(Intervals(false, true, false, true))
    ensures r.notificationMethods == methods.GetOr(Methods(true, false))
  {
    Reminder(freshId, eventId, UserIdOrDefault(userId), intervals.GetOr(DefaultIntervals),
             methods.GetOr(DefaultMethods), now, Active)
  }

  /** With no options given, `addReminder` builds the same reminder as `createReminder`. */
  lemma AddDefaultsAreCreateDefaults(eventId: Id, freshId: Id, now: Instant)
    ensures BuildReminder(eventId, None, None, None, freshId, now) == CreateReminder(eventId, freshId, now)
  {
  }

  /** The reminder list's storage slot. */
  class ReminderStore {
    /** Whether a browser window exists (`typeof window !== 'undefined'`). */
    const hasWindow: bool
    var stored: Stored<Reminder>

    constructor (hasWindow: bool, stored: Stored<Reminder>)
      ensures this.hasWindow == hasWindow && this.stored == stored
    {
      this.hasWindow := hasWindow;
      this.stored := stored;
    }

    /** `getReminders`. */
    function GetReminders(): seq<Reminder>
      reads this
    {
      Load(hasWindow, stored)
    }

    /**
     * `getReminderByEventId`: the first stored reminder for `eventId` that is
     * active, or nothing if there is none.
     */
    function GetReminderByEventId(eventId: Id): (r: Option<Reminder>)
      reads this
      ensures r.Some? ==> exists i :: 0 <= i < |GetReminders()| && GetReminders()[i] == r.value
                            && (forall j :: 0 <= j < i ==> !(GetReminders()[j].eventId == eventId && GetReminders()[j].status == Active))
      ensures r.Some? ==> r.value.eventId == eventId && r.value.status == Active
      ensures r.None? <==> forall i :: 0 <= i < |GetReminders()| ==> !(GetReminders()[i].eventId == eventId && GetReminders()[i].status == Active)
    {
      var rs := GetReminders();
      match FindFirst(rs, (x: Reminder) => x.eventId == eventId && x.status == Active)
      case None => None
      case Some(i) => Some(rs[i])
    }

    /** `saveReminder`: outside a browser nothing happens. */
    method SaveReminder(reminder: Reminder)
      modifies this
      ensures hasWindow ==> stored == Present(Upsert(old(GetReminders()), reminder))
      ensures !hasWindow ==> stored == old(stored)
      ensures hasWindow ==> GetReminders() == Upsert(old(GetReminders()), reminder)
    {
      if !hasWindow {
        return;
      }
      var reminders := GetReminders();
      var filtered := Filter(reminders, (r: Reminder) => r.id != reminder.id);
      filtered := filtered + [reminder];
      stored := Present(filtered);
    }

    /** `deleteReminder`: outside a browser nothing happens. */
    method DeleteReminder(reminderId: Id)
      modifies this
      ensures hasWindow ==> stored == Present(RemoveId(old(GetReminders()), reminderId))
      ensures !hasWindow ==> stored == old(stored)
      ensures hasWindow ==> GetReminders() == RemoveId(old(GetReminders()), reminderId)
    {
      if !hasWindow {
        return;
      }
      var reminders := GetReminders();
      var filtered := Filter(reminders, (r: Reminder) => r.id != reminderId);
      stored := Present(filtered);
    }

    /** `addReminder`: build the reminder from the options and defaults, store it, return it. */
    method AddReminder(eventId: Id, userId: Option<string>, intervals: Option<Intervals>,
                       methods: Option<Methods>, freshId: Id, now: Instant)
      returns (reminder: Reminder)
      modifies this
      ensures reminder == BuildReminder(eventId, userId, intervals, methods, freshId, now)
      ensures hasWindow ==> stored == Present(Upsert(old(GetReminders()), reminder))
      ensures !hasWindow ==> stored == old(stored)
      ensures hasWindow ==> GetReminders() == Upsert(old(GetReminders()), reminder)
    {
      reminder := BuildReminder(eventId, userId, intervals, methods, freshId, now);
      SaveReminder(reminder);
    }
  }
}
