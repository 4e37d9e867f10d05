/**
 * The "Set Reminder" dialog: two groups of switches (lead times and delivery
 * methods), a Save button enabled only when each group has a switch on, and a
 * save that stores the reminder in the client store and closes the dialog.
 */
module ReminderModal {
  import opened Wrappers
  import opened Types
  import opened ReminderStorage

  /** The keys of the delivery-method switches. */
  datatype MethodKey = BrowserPush | Email

  /** `notificationMethods[key]`. */
  function MethodOn(m: Methods, k: MethodKey): bool
  {
    match k
    case BrowserPush => m.browserPush
    case Email => m.email
  }

  /** `{...prev, [key]: !prev[key]}` on the interval switches. */
  function FlipInterval(iv: Intervals, k: IntervalKey): (r: Intervals)
    ensures Enabled(r, k) == !Enabled(iv, k)
    ensures forall k' :: k' != k ==> Enabled(r, k') == Enabled(iv, k')
  {
    match k
    case TwoHours => iv.(twoHours := !iv.twoHours)
    case OneHour => iv.(oneHour := !iv.oneHour)
    case ThirtyMinutes => iv.(thirtyMinutes := !iv.thirtyMinutes)
    case TenMinutes => iv.(tenMinutes := !iv.tenMinutes)
  }

  /** `{...prev, [key]: !prev[key]}` on the method switches. */
  function FlipMethod(m: Methods, k: MethodKey): (r: Methods)
    ensures MethodOn(r, k) == !MethodOn(m, k)
    ensures forall k' :: k' != k ==> MethodOn(r, k') == MethodOn(m, k')
  {
    match k
    case BrowserPush => m.(browserPush := !m.browserPush)
    case Email => m.(email := !m.email)
  }

  /** Interval settings are determined by their four switches. */
  lemma IntervalsExtensional(a: Intervals, b: Intervals)
    requires forall k :: Enabled(a, k) == Enabled(b, k)
    ensures a == b
  {
    assert Enabled(a, TwoHours) == Enabled(b, TwoHours);
    assert Enabled(a, OneHour) == Enabled(b, OneHour);
    assert Enabled(a, ThirtyMinutes) == Enabled(b, ThirtyMinutes);
    assert Enabled(a, TenMinutes) == Enabled(b, TenMinutes);
  }

  /** Toggling the same interval switch twice restores the settings. */
  lemma FlipIntervalTwice(iv: Intervals, k: IntervalKey)
    ensures FlipInterval(FlipInterval(iv, k), k) == iv
  {
    IntervalsExtensional(FlipInterval(FlipInterval(iv, k), k), iv);
  }

  /** Toggling two different interval switches gives the same result in either order. */
  lemma FlipIntervalCommutes(iv: Intervals, j: IntervalKey, k: IntervalKey)
    ensures FlipInterval(FlipInterval(iv, j), k) == FlipInterval(FlipInterval(iv, k), j)
  {
    IntervalsExtensional(FlipInterval(FlipInterval(iv, j), k), FlipInterval(FlipInterval(iv, k), j));
  }

  /** Toggling the same method switch twice restores the settings. */
  lemma FlipMethodTwice(m: Methods, k: MethodKey)
    ensures FlipMethod(FlipMethod(m, k), k) == m
  {
  }

  /** `Object.values(intervals).some(v => v) && Object.values(notificationMethods).some(v => v)`. */
  predicate CanSave(iv: Intervals, m: Methods)
  {
    AnyInterval(iv) && AnyMethod(m)
  }

  /** Saving is allowed exactly when some interval switch and some method switch are on. */
  lemma CanSaveIff(iv: Intervals, m: Methods)
    ensures CanSave(iv, m) <==> (exists k :: Enabled(iv, k)) && (exists k :: MethodOn(m, k))
  {
    if AnyInterval(iv) {
      var k :| k in IntervalOrder && Enabled(iv, k);
    }
    if AnyMethod(m) {
      var k := if m.browserPush then BrowserPush else Email;
      assert MethodOn(m, k);
    }
  }

  /** The dialog opens with settings it can save. */
  lemma DefaultsCanSave()
    ensures CanSave(DefaultIntervals, DefaultMethods)
  {
  }

  /** Switching off the only enabled interval disables Save. */
  lemma FlipLastIntervalDisablesSave(iv: Intervals, m: Methods, k: IntervalKey)
    requires Enabled(iv, k)
    requires forall k' :: k' != k ==> !Enabled(iv, k')
    ensures !CanSave(FlipInterval(iv, k), m)
  {
    var r := FlipInterval(iv, k);
    assert forall k' :: !Enabled(r, k');
    assert !Enabled(r, TwoHours) && !Enabled(r, OneHour) && !Enabled(r, ThirtyMinutes) && !Enabled(r, TenMinutes);
  }

  /** The dialog's state, for one event, saving into the client reminder store. */
  class Modal {
    var open: bool
    var intervals: Intervals
    var methods: Methods
    var isSaving: bool
    const event: Event
    const store: ReminderStore

    constructor (event: Event, store: ReminderStore, open: bool)
      ensures this.event == event && this.store == store && this.open == open
      ensures intervals == DefaultIntervals && methods == DefaultMethods && !isSaving
    {
      this.event := event;
      this.store := store;
      this.open := open;
      intervals := Intervals(false, true, false, true);
      methods := Methods(true, false);
      isSaving := false;
    }

    /** Save is enabled when the settings can be saved and no save is running. */
    predicate SaveEnabled()
      reads this
    {
      CanSave(intervals, methods) && !isSaving
    }

    method ToggleInterval(k: IntervalKey)
      modifies this
      ensures intervals == FlipInterval(old(intervals), k)
      ensures methods == old(methods) && open == old(open) && isSaving == old(isSaving)
    {
      intervals := FlipInterval(intervals, k);
    }

    method ToggleMethod(k: MethodKey)
      modifies this
      ensures methods == FlipMethod(old(methods), k)
      ensures intervals == old(intervals) && open == old(open) && isSaving == old(isSaving)
    {
      methods := FlipMethod(methods, k);
    }

    /**
     * Stores a reminder for the event with the current switches (the store
     * fills in the user, the status and the creation time), hands it back for
     * the optional creation callback, and closes the dialog.
     */
    method HandleSave(freshId: Id, now: Instant) returns (reminder: Reminder)
      modifies this, store
      ensures reminder == BuildReminder(event.id, None, Some(old(intervals)), Some(old(methods)), freshId, now)
      ensures reminder.intervals == old(intervals) && reminder.notificationMethods == old(methods)
      ensures store.hasWindow ==> store.stored == Present(Upsert(old(store.GetReminders()), reminder))
      ensures !store.hasWindow ==> store.stored == old(store.stored)
      ensures !open && !isSaving
      ensures intervals == old(intervals) && methods == old(methods)
    {
      isSaving := true;
      reminder := store.AddReminder(event.id, None, Some(intervals), Some(methods), freshId, now);
      isSaving := false;
      open := false;
    }

    /** Cancel, or the dialog being dismissed. */
    method Close()
      modifies this
      ensures !open
      ensures intervals == old(intervals) && methods == old(methods) && isSaving == old(isSaving)
    {
      open := false;
    }
  }
}
