/**
 * The reminder threshold evaluator. Once a minute it walks the active
 * reminders, finds each one's event and, for every enabled lead time whose
 * one-minute window contains the whole minutes left before the sale, shows a
 * browser notification (when allowed) and, for ten minutes or less, raises the
 * urgent in-app alert.
 */
module NotificationProvider {
  import opened Wrappers
  import opened Types
  import opened Seqs
  import opened Decimal
  import opened Arith
  import opened NotificationUtils

  /** `Math.floor(timeDiff / 60000)`. */
  function MinutesUntil(sale: Instant, now: Instant): int
  {
    (sale - now) / MsPerMinute
  }

  /** The source's window test; over whole minutes it is a single value. */
  predicate InWindow(minutesUntil: int, m: int)
    ensures InWindow(minutesUntil, m) <==> minutesUntil == m
  {
    minutesUntil <= m && minutesUntil > m - 1
  }

  /** The alert text for an interval of `minutes`. */
  function Message(minutes: int): string
  {
    "Ticket sale starts in "
      + (if minutes == 120 then "2 hours" else if minutes == 60 then "1 hour" else IntToString(minutes) + " minutes")
      + "!"
  }

  /** The de-duplication tag of a reminder's notification for one interval. */
  function Tag(reminderId: Id, k: IntervalKey): string
  {
    "reminder-" + reminderId + "-" + IntervalKeyName(k)
  }

  /** One interval of one reminder whose window contains the minutes left. */
  datatype Match = Match(reminder: Reminder, event: Event, key: IntervalKey, message: string)

  predicate Fires(r: Reminder, minutesUntil: int, k: IntervalKey)
  {
    Enabled(r.intervals, k) && InWindow(minutesUntil, IntervalMinutes(k))
  }

  /** The match of interval `k`, if it fires. */
  function Hit(r: Reminder, e: Event, mu: int, k: IntervalKey): seq<Match>
  {
    if Fires(r, mu, k) then [Match(r, e, k, Message(IntervalMinutes(k)))] else []
  }

  /** The matches among `keys`, in order. */
  function KeyMatches(r: Reminder, e: Event, minutesUntil: int, keys: seq<IntervalKey>): seq<Match>
  {
    if keys == [] then []
    else
      KeyMatches(r, e, minutesUntil, keys[..|keys| - 1]) + Hit(r, e, minutesUntil, keys[|keys| - 1])
  }

  /** The matches of one reminder: none unless it is active and its event is loaded. */
  function ReminderMatches(r: Reminder, events: seq<Event>, now: Instant): seq<Match>
  {
    if r.status != Active then []
    else match LookupEvent(events, r.eventId)
      case None => []
      case Some(e) => KeyMatches(r, e, MinutesUntil(TicketSaleOrDate(e), now), IntervalOrder)
  }

  /** Every match of one tick, reminder by reminder. */
  function TickMatches(rs: seq<Reminder>, events: seq<Event>, now: Instant): seq<Match>
  {
    if rs == [] then []
    else TickMatches(rs[..|rs| - 1], events, now) + ReminderMatches(rs[|rs| - 1], events, now)
  }

  /** The notification options built for a match. */
  function OptionsFor(m: Match): NotificationOptions
  {
    NotificationOptions(m.event.title, m.message, None, Some(Tag(m.reminder.id, m.key)), Some("/events/" + m.event.id))
  }

  /** What the browser shows for one match: only with browser push enabled and permission granted. */
  function MatchDispatch(m: Match, p: Platform): seq<Shown>
  {
    if m.reminder.notificationMethods.browserPush && GetNotificationPermission(p) == Granted then
      match SendBrowserNotification(p, OptionsFor(m))
      case Some(n) => [n]
      case None => []
    else []
  }

  function Dispatches(ms: seq<Match>, p: Platform): seq<Shown>
  {
    if ms == [] then [] else Dispatches(ms[..|ms| - 1], p) + MatchDispatch(ms[|ms| - 1], p)
  }

  /** The urgent-alert state: the event shown (if any) and its message. */
  datatype Alert = Alert(event: Option<Event>, message: string)

  const NoAlert := Alert(None, "")

  /** A match of ten minutes or less overwrites the urgent alert. */
  function AfterMatch(a: Alert, m: Match): Alert
  {
    if IntervalMinutes(m.key) <= 10 then Alert(Some(m.event), m.message) else a
  }

  function AfterMatches(a: Alert, ms: seq<Match>): Alert
  {
    if ms == [] then a else AfterMatch(AfterMatches(a, ms[..|ms| - 1]), ms[|ms| - 1])
  }

  /** What one tick produces: the notifications shown and the new alert state. */
  datatype TickOutcome = TickOutcome(sent: seq<Shown>, alert: Alert)

  function Tick(rs: seq<Reminder>, events: seq<Event>, now: Instant, p: Platform, prior: Alert): TickOutcome
  {
    var ms := TickMatches(rs, events, now);
    TickOutcome(Dispatches(ms, p), AfterMatches(prior, ms))
  }

  // ---------------------------------------------------------------------------
  // Properties of one tick

  /** An interval fires exactly when its flag is set and the whole minutes left equal its length. */
  lemma KeyMatchesIff(r: Reminder, e: Event, mu: int, keys: seq<IntervalKey>, k: IntervalKey)
    ensures (exists i :: 0 <= i < |KeyMatches(r, e, mu, keys)| && KeyMatches(r, e, mu, keys)[i].key == k)
            <==> k in keys && Enabled(r.intervals, k) && mu == IntervalMinutes(k)
    ensures forall i :: 0 <= i < |KeyMatches(r, e, mu, keys)| ==>
              var m := KeyMatches(r, e, mu, keys)[i];
              m.reminder == r && m.event == e && m.message == Message(IntervalMinutes(m.key))
              && Enabled(r.intervals, m.key) && mu == IntervalMinutes(m.key)
  {
    KeyMatchesFields(r, e, mu, keys);
    if k in keys && Enabled(r.intervals, k) && mu == IntervalMinutes(k) {
      KeyMatchesComplete(r, e, mu, keys, k);
    }
    if exists i :: 0 <= i < |KeyMatches(r, e, mu, keys)| && KeyMatches(r, e, mu, keys)[i].key == k {
      var i :| 0 <= i < |KeyMatches(r, e, mu, keys)| && KeyMatches(r, e, mu, keys)[i].key == k;
      KeyMatchesSound(r, e, mu, keys, i);
    }
  }

  /** Every match carries the reminder, the event and its interval's message, and fired. */
  lemma {:induction false} KeyMatchesFields(r: Reminder, e: Event, mu: int, keys: seq<IntervalKey>)
    ensures forall i :: 0 <= i < |KeyMatches(r, e, mu, keys)| ==>
              var m := KeyMatches(r, e, mu, keys)[i];
              m.reminder == r && m.event == e && m.message == Message(IntervalMinutes(m.key))
              && Enabled(r.intervals, m.key) && mu == IntervalMinutes(m.key)
  {
    if keys != [] {
      var front := keys[..|keys| - 1];
      KeyMatchesFields(r, e, mu, front);
    }
  }

  /** A match's key is one of the keys walked. */
  lemma {:induction false} KeyMatchesSound(r: Reminder, e: Event, mu: int, keys: seq<IntervalKey>, i: int)
    requires 0 <= i < |KeyMatches(r, e, mu, keys)|
    ensures KeyMatches(r, e, mu, keys)[i].key in keys
  {
    var front := keys[..|keys| - 1];
    var last := keys[|keys| - 1];
    assert keys == front + [last];
    var fs := KeyMatches(r, e, mu, front);
    if i < |fs| {
      KeyMatchesSound(r, e, mu, front, i);
    }
  }

  /** A walked key whose flag is set and whose window holds the minutes left produces a match. */
  lemma {:induction false} KeyMatchesComplete(r: Reminder, e: Event, mu: int, keys: seq<IntervalKey>, k: IntervalKey)
    requires k in keys && Enabled(r.intervals, k) && mu == IntervalMinutes(k)
    ensures exists i :: 0 <= i < |KeyMatches(r, e, mu, keys)| && KeyMatches(r, e, mu, keys)[i].key == k
  {
    var front := keys[..|keys| - 1];
    var last := keys[|keys| - 1];
    assert keys == front + [last];
    var ms := KeyMatches(r, e, mu, keys);
    var fs := KeyMatches(r, e, mu, front);
    assert ms == fs + Hit(r, e, mu, last);
    if k == last {
      assert ms[|ms| - 1].key == k;
    } else {
      assert k in front;
      KeyMatchesComplete(r, e, mu, front, k);
      var i :| 0 <= i < |fs| && fs[i].key == k;
      assert ms[i].key == k;
    }
  }

  lemma KeyMatchesStep(r: Reminder, e: Event, mu: int, keys: seq<IntervalKey>, j: int)
    requires 0 <= j < |keys|
    ensures KeyMatches(r, e, mu, keys[..j + 1]) == KeyMatches(r, e, mu, keys[..j]) + Hit(r, e, mu, keys[j])
  {
    assert keys[..j + 1][..j] == keys[..j];
  }

  /** The four intervals, checked longest first. */
  lemma KeyMatchesUnrolled(r: Reminder, e: Event, mu: int)
    ensures KeyMatches(r, e, mu, IntervalOrder)
         == Hit(r, e, mu, TwoHours) + Hit(r, e, mu, OneHour) + Hit(r, e, mu, ThirtyMinutes) + Hit(r, e, mu, TenMinutes)
  {
    var o := IntervalOrder;
    assert o[..1][..0] == [];
    assert KeyMatches(r, e, mu, o[..1]) == Hit(r, e, mu, TwoHours);
    assert o[..2][..1] == o[..1];
    assert KeyMatches(r, e, mu, o[..2]) == KeyMatches(r, e, mu, o[..1]) + Hit(r, e, mu, OneHour);
    assert o[..3][..2] == o[..2];
    assert KeyMatches(r, e, mu, o[..3]) == KeyMatches(r, e, mu, o[..2]) + Hit(r, e, mu, ThirtyMinutes);
    assert o[..4][..3] == o[..3];
    assert o[..4] == o;
  }

  /**
   * The evaluator's rule for one reminder: interval `k` fires iff the reminder
   * is active, its event is loaded, the flag for `k` is set and
   * `floor((ticketSaleDate || date) - now) / 60000) == minutes(k)`; each match
   * carries the loaded event and the message for its interval.
   */
  lemma ReminderMatchesIff(r: Reminder, events: seq<Event>, now: Instant, k: IntervalKey)
    ensures var ms := ReminderMatches(r, events, now);
      (exists i :: 0 <= i < |ms| && ms[i].key == k) <==>
        && r.status == Active
        && LookupEvent(events, r.eventId).Some?
        && Enabled(r.intervals, k)
        && MinutesUntil(TicketSaleOrDate(LookupEvent(events, r.eventId).value), now) == IntervalMinutes(k)
    ensures var ms := ReminderMatches(r, events, now);
      forall i :: 0 <= i < |ms| ==>
        && ms[i].reminder == r
        && Some(ms[i].event) == LookupEvent(events, r.eventId)
        && ms[i].message == Message(IntervalMinutes(ms[i].key))
  {
    if r.status == Active {
      match LookupEvent(events, r.eventId)
      case None =>
      case Some(e) =>
        KeyMatchesIff(r, e, MinutesUntil(TicketSaleOrDate(e), now), IntervalOrder, k);
    }
  }

  /** The lead times are distinct, so a reminder fires at most one interval per tick. */
  lemma AtMostOneMatchPerReminder(r: Reminder, events: seq<Event>, now: Instant)
    ensures |ReminderMatches(r, events, now)| <= 1
  {
    if r.status == Active && LookupEvent(events, r.eventId).Some? {
      var e := LookupEvent(events, r.eventId).value;
      KeyMatchesUnrolled(r, e, MinutesUntil(TicketSaleOrDate(e), now));
    }
  }

  /** A reminder with every interval flag off never fires, whatever the time. */
  lemma NoFlagsNeverFires(r: Reminder, events: seq<Event>, now: Instant)
    requires !AnyInterval(r.intervals)
    ensures ReminderMatches(r, events, now) == []
  {
    if r.status == Active && LookupEvent(events, r.eventId).Some? {
      var e := LookupEvent(events, r.eventId).value;
      KeyMatchesUnrolled(r, e, MinutesUntil(TicketSaleOrDate(e), now));
    }
  }

  /** In milliseconds: interval `m` fires while the time left is in `[m, m + 1)` minutes. */
  lemma WindowInMilliseconds(sale: Instant, now: Instant, m: int)
    ensures InWindow(MinutesUntil(sale, now), m) <==> m * MsPerMinute <= sale - now < (m + 1) * MsPerMinute
  {
    var d := sale - now;
    var q := d / MsPerMinute;
    assert d == MsPerMinute * q + d % MsPerMinute;
    if q < m {
      assert q * MsPerMinute <= (m - 1) * MsPerMinute;
    } else if q > m {
      assert (m + 1) * MsPerMinute <= q * MsPerMinute;
    }
  }

  /** The four alert texts. */
  lemma Messages()
    ensures Message(IntervalMinutes(TwoHours)) == "Ticket sale starts in 2 hours!"
    ensures Message(IntervalMinutes(OneHour)) == "Ticket sale starts in 1 hour!"
    ensures Message(IntervalMinutes(ThirtyMinutes)) == "Ticket sale starts in 30 minutes!"
    ensures Message(IntervalMinutes(TenMinutes)) == "Ticket sale starts in 10 minutes!"
  {
    assert NatToString(30) == "30";
    assert NatToString(10) == "10";
  }

  /** Tags of different reminders, or of different intervals, never collide. */
  lemma TagsDistinct(id1: Id, k1: IntervalKey, id2: Id, k2: IntervalKey)
    requires Tag(id1, k1) == Tag(id2, k2)
    ensures id1 == id2 && k1 == k2
  {
    TagDashes(id1, k1);
    TagDashes(id2, k2);
    assert |id1| == |id2|;
    TagParts(id1, k1);
    TagParts(id2, k2);
  }

  /** Where the id and the interval name sit inside a tag. */
  lemma TagParts(id: Id, k: IntervalKey)
    ensures Tag(id, k)[9..9 + |id|] == id
    ensures Tag(id, k)[10 + |id|..] == IntervalKeyName(k)
  {
    var head := "reminder-" + id;
    var tail := "-" + IntervalKeyName(k);
    assert Tag(id, k) == head + tail;
    assert head[9..] == id;
    assert tail[1..] == IntervalKeyName(k);
  }

  /** The dash after the id is the last one in a tag: interval names have none. */
  lemma TagDashes(id: Id, k: IntervalKey)
    ensures |Tag(id, k)| > 9 + |id| && Tag(id, k)[9 + |id|] == '-'
    ensures forall p :: 10 + |id| <= p < |Tag(id, k)| ==> Tag(id, k)[p] != '-'
  {
    var name := IntervalKeyName(k);
    TagParts(id, k);
    assert Tag(id, k) == "reminder-" + id + "-" + name;
    assert forall i :: 0 <= i < |name| ==> name[i] != '-';
    forall p | 10 + |id| <= p < |Tag(id, k)|
      ensures Tag(id, k)[p] != '-'
    {
      assert Tag(id, k)[p] == Tag(id, k)[10 + |id|..][p - 10 - |id|];
    }
  }

  lemma DispatchesAppend(ms: seq<Match>, m: Match, p: Platform)
    ensures Dispatches(ms + [m], p) == Dispatches(ms, p) + MatchDispatch(m, p)
  {
    assert (ms + [m])[..|ms|] == ms;
  }

  /** A single match dispatches and updates the alert on its own. */
  lemma SingleMatch(a: Alert, m: Match, p: Platform)
    ensures Dispatches([m], p) == MatchDispatch(m, p)
    ensures AfterMatches(a, [m]) == AfterMatch(a, m)
  {
    assert [m][..0] == [];
  }

  lemma {:induction false} DispatchesConcat(xs: seq<Match>, ys: seq<Match>, p: Platform)
    ensures Dispatches(xs + ys, p) == Dispatches(xs, p) + Dispatches(ys, p)
  {
    if ys == [] {
      assert xs + ys == xs;
    } else {
      var front := ys[..|ys| - 1];
      var last := ys[|ys| - 1];
      assert ys == front + [last];
      assert xs + ys == (xs + front) + [last];
      DispatchesConcat(xs, front, p);
      DispatchesAppend(xs + front, last, p);
      DispatchesAppend(front, last, p);
    }
  }

  lemma {:induction false} AfterMatchesConcat(a: Alert, xs: seq<Match>, ys: seq<Match>)
    ensures AfterMatches(a, xs + ys) == AfterMatches(AfterMatches(a, xs), ys)
  {
    if ys == [] {
      assert xs + ys == xs;
    } else {
      var front := ys[..|ys| - 1];
      var last := ys[|ys| - 1];
      assert ys == front + [last];
      assert xs + ys == (xs + front) + [last];
      AfterMatchesConcat(a, xs, front);
      AfterMatchesAppend(a, xs + front, last);
      AfterMatchesAppend(AfterMatches(a, xs), front, last);
    }
  }

  lemma AfterMatchesAppend(a: Alert, ms: seq<Match>, m: Match)
    ensures AfterMatches(a, ms + [m]) == AfterMatch(AfterMatches(a, ms), m)
  {
    assert (ms + [m])[..|ms|] == ms;
  }

  /**
   * A notification is shown only for a match whose reminder has browser push
   * on, only while permission is granted, and it carries the event title, the
   * match's message and the tag `reminder-<id>-<key>`; with permission granted
   * on a platform where constructing a notification does not throw, every
   * push-enabled match is shown.
   */
  lemma {:induction false} DispatchesSpec(ms: seq<Match>, p: Platform)
    ensures GetNotificationPermission(p) != Granted || !p.constructs ==> Dispatches(ms, p) == []
    ensures |Dispatches(ms, p)| == Count(ms, (m: Match) => m.reminder.notificationMethods.browserPush && GetNotificationPermission(p) == Granted && p.constructs)
    ensures forall n :: n in Dispatches(ms, p) ==>
              exists m :: (m in ms && m.reminder.notificationMethods.browserPush &&
                n.title == m.event.title && n.body == m.message && n.tag == Some(Tag(m.reminder.id, m.key)))
  {
    DispatchesCount(ms, p);
    DispatchesContent(ms, p);
    if GetNotificationPermission(p) != Granted || !p.constructs {
      CountMono(ms, (m: Match) => m.reminder.notificationMethods.browserPush && GetNotificationPermission(p) == Granted && p.constructs,
                (m: Match) => false);
      NoneCounted(ms);
    }
  }

  lemma {:induction false} NoneCounted<T>(s: seq<T>)
    ensures Count(s, (x: T) => false) == 0
  {
    if s != [] {
      NoneCounted(s[1..]);
    }
  }

  lemma {:induction false} DispatchesCount(ms: seq<Match>, p: Platform)
    ensures |Dispatches(ms, p)| == Count(ms, (m: Match) => m.reminder.notificationMethods.browserPush && GetNotificationPermission(p) == Granted && p.constructs)
  {
    if ms != [] {
      var front := ms[..|ms| - 1];
      var last := ms[|ms| - 1];
      DispatchesCount(front, p);
      assert ms == front + [last];
      CountAppend(front, last, (m: Match) => m.reminder.notificationMethods.browserPush && GetNotificationPermission(p) == Granted && p.constructs);
    }
  }

  lemma {:induction false} DispatchesContent(ms: seq<Match>, p: Platform)
    ensures forall n :: n in Dispatches(ms, p) ==>
              exists m :: (m in ms && m.reminder.notificationMethods.browserPush &&
                n.title == m.event.title && n.body == m.message && n.tag == Some(Tag(m.reminder.id, m.key)))
  {
    if ms != [] {
      var front := ms[..|ms| - 1];
      var last := ms[|ms| - 1];
      DispatchesContent(front, p);
      assert ms == front + [last];
      forall n | n in Dispatches(ms, p)
        ensures exists m :: (m in ms && m.reminder.notificationMethods.browserPush &&
                n.title == m.event.title && n.body == m.message && n.tag == Some(Tag(m.reminder.id, m.key)))
      {
        if n in Dispatches(front, p) {
          var m :| m in front && m.reminder.notificationMethods.browserPush &&
                n.title == m.event.title && n.body == m.message && n.tag == Some(Tag(m.reminder.id, m.key));
          assert m in ms;
        } else {
          assert n in MatchDispatch(last, p);
          assert last in ms;
        }
      }
    }
  }

  lemma {:induction false} CountAppend<T>(s: seq<T>, x: T, q: T -> bool)
    ensures Count(s + [x], q) == Count(s, q) + (if q(x) then 1 else 0)
  {
    if s == [] {
      assert [] + [x] == [x];
    } else {
      assert (s + [x])[1..] == s[1..] + [x];
      CountAppend(s[1..], x, q);
    }
  }

  /**
   * The alert after a tick is the one of the last match of ten minutes or less,
   * and the prior alert when there is none: later matches overwrite earlier ones.
   */
  lemma {:induction false} AfterMatchesIsLastUrgent(a: Alert, ms: seq<Match>)
    ensures match FindLast(ms, (m: Match) => IntervalMinutes(m.key) <= 10)
      case None => AfterMatches(a, ms) == a
      case Some(i) => AfterMatches(a, ms) == Alert(Some(ms[i].event), ms[i].message)
  {
    if ms != [] {
      AfterMatchesIsLastUrgent(a, ms[..|ms| - 1]);
    }
  }

  /**
   * The scenario of a sale 60 minutes and 30 seconds away for a reminder with
   * the default flags (one hour and ten minutes): exactly one match, the
   * one-hour one.
   */
  lemma OneHourScenario(r: Reminder, e: Event, now: Instant)
    requires r.status == Active && r.eventId == e.id
    requires r.intervals == DefaultIntervals
    requires e.ticketSaleDate == Some(now + 60 * MsPerMinute + 30000)
    ensures TickMatches([r], [e], now) == [Match(r, e, OneHour, "Ticket sale starts in 1 hour!")]
  {
    assert LookupEvent([e], r.eventId) == Some(e);
    assert MinutesUntil(TicketSaleOrDate(e), now) == 60;
    assert [r][..0] == [];
    assert TickMatches([], [e], now) == [];
    assert TickMatches([r], [e], now) == TickMatches([r][..0], [e], now) + ReminderMatches(r, [e], now);
    KeyMatchesUnrolled(r, e, 60);
    Messages();
  }

  /**
   * In that scenario, with browser push on and permission granted, one
   * notification is shown with the one-hour message and the tag
   * `reminder-<id>-oneHour`, and the urgent alert is untouched.
   */
  lemma OneHourTick(r: Reminder, e: Event, now: Instant, prior: Alert)
    requires r.status == Active && r.eventId == e.id
    requires r.intervals == DefaultIntervals && r.notificationMethods == DefaultMethods
    requires e.ticketSaleDate == Some(now + 60 * MsPerMinute + 30000)
    ensures var t := Tick([r], [e], now, Platform(true, Granted, true), prior);
      && t.alert == prior
      && |t.sent| == 1
      && t.sent[0].body == "Ticket sale starts in 1 hour!"
      && t.sent[0].tag == Some("reminder-" + r.id + "-oneHour")
  {
    OneHourScenario(r, e, now);
    var ms := TickMatches([r], [e], now);
    assert ms[..0] == [];
    assert AfterMatches(prior, ms) == AfterMatch(AfterMatches(prior, []), ms[0]);
    assert Dispatches(ms, Platform(true, Granted, true)) == Dispatches([], Platform(true, Granted, true)) + MatchDispatch(ms[0], Platform(true, Granted, true));
    assert Tag(r.id, OneHour) == "reminder-" + r.id + "-oneHour";
  }

  /**
   * A sale nine minutes away for a reminder with only the ten-minute flag:
   * the boundary has already been crossed, so nothing fires.
   */
  lemma AlreadyCrossedScenario(r: Reminder, e: Event, now: Instant)
    requires r.status == Active && r.eventId == e.id
    requires r.intervals == Intervals(false, false, false, true)
    requires e.ticketSaleDate == Some(now + 9 * MsPerMinute)
    ensures TickMatches([r], [e], now) == []
  {
    assert LookupEvent([e], r.eventId) == Some(e);
    assert MinutesUntil(TicketSaleOrDate(e), now) == 9;
    assert [r][..0] == [];
    KeyMatchesUnrolled(r, e, 9);
  }

  // ---------------------------------------------------------------------------
  // The provider component

  /**
   * The dispatch step of one match: a browser notification with the event
   * title, the message, the tag and a link to the event page, only when the
   * reminder asks for browser push, permission is granted and constructing
   * the notification does not throw.
   */
  method Notify(m: Match, platform: Platform) returns (shown: seq<Shown>)
    ensures shown == MatchDispatch(m, platform)
    ensures |shown| <= 1
    ensures |shown| == 1 <==> m.reminder.notificationMethods.browserPush && GetNotificationPermission(platform) == Granted
                              && platform.constructs
    ensures forall i :: 0 <= i < |shown| ==>
              shown[i].title == m.event.title && shown[i].body == m.message
              && shown[i].tag == Some(Tag(m.reminder.id, m.key)) && shown[i].clickPath == Some("/events/" + m.event.id)
  {
    shown := [];
    if m.reminder.notificationMethods.browserPush && GetNotificationPermission(platform) == Granted {
      var n := SendBrowserNotification(platform, OptionsFor(m));
      if n.Some? {
        shown := [n.value];
      }
    }
  }

  /** The provider's state: the urgent event and message it currently shows. */
  class Provider {
    var urgentEvent: Option<Event>
    var urgentMessage: string

    function CurrentAlert(): Alert
      reads this
    {
      Alert(urgentEvent, urgentMessage)
    }

    /** No message is kept without an event. */
    ghost predicate Valid()
      reads this
    {
      urgentEvent.None? ==> urgentMessage == ""
    }

    constructor ()
      ensures Valid() && CurrentAlert() == NoAlert
    {
      urgentEvent := None;
      urgentMessage := "";
    }

    /** One interval of one reminder: dispatch and possibly take over the alert when it fires. */
    method CheckInterval(reminder: Reminder, event: Event, minutesUntil: int, key: IntervalKey, platform: Platform)
      returns (sent: seq<Shown>)
      requires Valid()
      modifies this
      ensures Valid()
      ensures sent == Dispatches(Hit(reminder, event, minutesUntil, key), platform)
      ensures CurrentAlert() == AfterMatches(old(CurrentAlert()), Hit(reminder, event, minutesUntil, key))
    {
      var fires := Enabled(reminder.intervals, key) && minutesUntil <= IntervalMinutes(key)
                   && minutesUntil > IntervalMinutes(key) - 1;
      assert fires == Fires(reminder, minutesUntil, key);
      if fires {
        var message := Message(IntervalMinutes(key));
        var m := Match(reminder, event, key, message);
        sent := Notify(m, platform);
        if IntervalMinutes(key) <= 10 {
          urgentEvent := Some(event);
          urgentMessage := message;
        }
        SingleMatch(old(CurrentAlert()), m, platform);
      } else {
        sent := [];
      }
    }

    /** The inner loop of `checkReminders`: the enabled intervals of one active reminder with its event. */
    method CheckIntervals(reminder: Reminder, event: Event, minutesUntil: int, platform: Platform)
      returns (sent: seq<Shown>)
      requires Valid()
      modifies this
      ensures Valid()
      ensures sent == Dispatches(KeyMatches(reminder, event, minutesUntil, IntervalOrder), platform)
      ensures CurrentAlert() == AfterMatches(old(CurrentAlert()), KeyMatches(reminder, event, minutesUntil, IntervalOrder))
    {
      sent := [];
      var j := 0;
      while j < |IntervalOrder|
        invariant 0 <= j <= |IntervalOrder|
        invariant sent == Dispatches(KeyMatches(reminder, event, minutesUntil, IntervalOrder[..j]), platform)
        invariant CurrentAlert() == AfterMatches(old(CurrentAlert()), KeyMatches(reminder, event, minutesUntil, IntervalOrder[..j]))
        invariant Valid()
      {
        ghost var done := KeyMatches(reminder, event, minutesUntil, IntervalOrder[..j]);
        ghost var hit := Hit(reminder, event, minutesUntil, IntervalOrder[j]);
        KeyMatchesStep(reminder, event, minutesUntil, IntervalOrder, j);
        var shown := CheckInterval(reminder, event, minutesUntil, IntervalOrder[j], platform);
        DispatchesConcat(done, hit, platform);
        AfterMatchesConcat(old(CurrentAlert()), done, hit);
        sent := sent + shown;
        j := j + 1;
      }
      assert IntervalOrder[..|IntervalOrder|] == IntervalOrder;
    }

    /** The body of `checkReminders` for one reminder: skipped unless active and its event is loaded. */
    method CheckReminder(reminder: Reminder, events: seq<Event>, now: Instant, platform: Platform)
      returns (sent: seq<Shown>)
      requires Valid()
      modifies this
      ensures Valid()
      ensures sent == Dispatches(ReminderMatches(reminder, events, now), platform)
      ensures CurrentAlert() == AfterMatches(old(CurrentAlert()), ReminderMatches(reminder, events, now))
    {
      var found := LookupEvent(events, reminder.eventId);
      if reminder.status == Active && found.Some? {
        var event := found.value;
        sent := CheckIntervals(reminder, event, MinutesUntil(TicketSaleOrDate(event), now), platform);
      } else {
        sent := [];
      }
    }

    /** `checkReminders`: one tick over the stored reminders and the loaded events. */
    method CheckReminders(reminders: seq<Reminder>, events: seq<Event>, now: Instant, platform: Platform)
      returns (sent: seq<Shown>)
      requires Valid()
      modifies this
      ensures Valid()
      ensures TickOutcome(sent, CurrentAlert()) == Tick(reminders, events, now, platform, old(CurrentAlert()))
    {
      sent := [];
      var i := 0;
      while i < |reminders|
        invariant 0 <= i <= |reminders|
        invariant sent == Dispatches(TickMatches(reminders[..i], events, now), platform)
        invariant CurrentAlert() == AfterMatches(old(CurrentAlert()), TickMatches(reminders[..i], events, now))
        invariant Valid()
      {
        ghost var done := TickMatches(reminders[..i], events, now);
        ghost var these := ReminderMatches(reminders[i], events, now);
        assert reminders[..i + 1][..i] == reminders[..i];
        assert TickMatches(reminders[..i + 1], events, now) == done + these;
        var more := CheckReminder(reminders[i], events, now, platform);
        DispatchesConcat(done, these, platform);
        AfterMatchesConcat(old(CurrentAlert()), done, these);
        sent := sent + more;
        i := i + 1;
      }
      assert reminders[..|reminders|] == reminders;
    }

    /**
     * The effect that runs the ticks: with no events loaded it does nothing;
     * otherwise it ticks at once (and then every minute, not modelled).
     */
    method OnEventsLoaded(reminders: seq<Reminder>, events: seq<Event>, now: Instant, platform: Platform)
      returns (sent: seq<Shown>)
      requires Valid()
      modifies this
      ensures Valid()
      ensures events == [] ==> sent == [] && CurrentAlert() == old(CurrentAlert())
      ensures events != [] ==> TickOutcome(sent, CurrentAlert()) == Tick(reminders, events, now, platform, old(CurrentAlert()))
    {
      if |events| == 0 {
        sent := [];
      } else {
        sent := CheckReminders(reminders, events, now, platform);
      }
    }

    /** The alert's `onOpenChange`: closing it clears both the event and the message. */
    method OnOpenChange(open: bool)
      requires Valid()
      modifies this
      ensures Valid()
      ensures !open ==> CurrentAlert() == NoAlert
      ensures open ==> CurrentAlert() == old(CurrentAlert())
    {
      if !open {
        urgentEvent := None;
        urgentMessage := "";
      }
    }
  }
}
