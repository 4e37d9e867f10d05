/**
 * Browser-notification helpers. The platform is a value: whether the
 * `Notification` API exists and the permission it currently reports.
 */
module NotificationUtils {
  import opened Wrappers
  import opened Types
  import opened Decimal
  import opened Arith

  datatype Permission = PermissionDefault | Granted | Denied

  /**
   * `constructs` says whether `new Notification(...)` returns normally on this
   * platform; when it throws, `sendBrowserNotification` catches the error and
   * returns null.
   */
  datatype Platform = Platform(supported: bool, permission: Permission, constructs: bool)

  /** What `sendBrowserNotification` is asked to show. */
  datatype NotificationOptions = NotificationOptions(
    title: string, body: string, icon: Option<string>, tag: Option<string>, clickPath: Option<string>)

  /** A notification the browser displays; `clickPath` is where activating it navigates. */
  datatype Shown = Shown(
    title: string, body: string, icon: string, tag: Option<string>, badge: string,
    requireInteraction: bool, clickPath: Option<string>)

  const AppIcon := "/icon.svg"

  /** `getNotificationPermission`: "denied" where notifications are unsupported. */
  function GetNotificationPermission(p: Platform): (r: Permission)
    ensures !p.supported ==> r == Denied
    ensures r == Granted ==> p.permission == Granted
  {
    if !p.supported then Denied else p.permission
  }

  /** The outcome of `requestNotificationPermission`, and whether the user was prompted. */
  datatype RequestOutcome = RequestOutcome(result: Permission, prompted: bool)

  /**
   * `requestNotificationPermission`: a settled permission is returned without
   * prompting; otherwise the user's answer (`None` when the prompt fails) decides.
   */
  function RequestNotificationPermission(p: Platform, answer: Option<Permission>): (r: RequestOutcome)
    ensures r.prompted <==> p.supported && p.permission == PermissionDefault
    ensures !r.prompted ==> r.result == GetNotificationPermission(p)
    ensures r.prompted ==> r.result == answer.GetOr(Denied)
  {
    if !p.supported then RequestOutcome(Denied, false)
    else match p.permission
      case Granted => RequestOutcome(Granted, false)
      case Denied => RequestOutcome(Denied, false)
      case PermissionDefault => RequestOutcome(answer.GetOr(Denied), true)
  }

  /**
   * `sendBrowserNotification`: shows a notification only when permission is
   * granted and constructing it does not throw.
   */
  function SendBrowserNotification(p: Platform, o: NotificationOptions): (r: Option<Shown>)
    ensures r.Some? <==> GetNotificationPermission(p) == Granted && p.constructs
    ensures r.Some? ==> r.value.title == o.title && r.value.body == o.body && r.value.tag == o.tag
    ensures r.Some? && o.icon.Some? && o.icon.value != "" ==> r.value.icon == o.icon.value
    ensures r.Some? && (o.icon.None? || o.icon == Some("")) ==> r.value.icon == AppIcon
    ensures r.Some? ==> r.value.badge == AppIcon
                        && r.value.requireInteraction && r.value.clickPath == o.clickPath
  {
    if !p.supported then None
    else if p.permission != Granted then None
    else if !p.constructs then None
    else
      var icon := if o.icon.Some? && o.icon.value != "" then o.icon.value else AppIcon;
      Some(Shown(o.title, o.body, icon, o.tag, AppIcon, true, o.clickPath))
  }

  /** `shouldSendNotification`: whole minutes left are within two of the interval. */
  predicate ShouldSendNotification(eventDate: Instant, intervalMinutes: int, now: Instant)
  {
    var minutesUntil := (eventDate - now) / MsPerMinute;
    -2 <= minutesUntil - intervalMinutes <= 2
  }

  /**
   * The same window in milliseconds: from two minutes before the interval up
   * to, but excluding, three minutes after it.
   */
  lemma ShouldSendWindow(eventDate: Instant, intervalMinutes: int, now: Instant)
    ensures ShouldSendNotification(eventDate, intervalMinutes, now) <==>
            (intervalMinutes - 2) * MsPerMinute <= eventDate - now < (intervalMinutes + 3) * MsPerMinute
  {
    var d := eventDate - now;
    var q := d / MsPerMinute;
    assert d == MsPerMinute * q + d % MsPerMinute;
    if -2 <= q - intervalMinutes <= 2 {
      assert (intervalMinutes - 2) * MsPerMinute <= q * MsPerMinute;
    } else if q < intervalMinutes - 2 {
      assert q * MsPerMinute <= (intervalMinutes - 3) * MsPerMinute;
    } else {
      assert (intervalMinutes + 3) * MsPerMinute <= q * MsPerMinute;
    }
  }

  /** `formatNotificationTime`: minutes below an hour, else whole hours, plural unless exactly 1. */
  function FormatNotificationTime(minutes: int): string
  {
    if minutes < 60 then
      IntToString(minutes) + " minute" + (if minutes != 1 then "s" else "")
    else
      var hours := minutes / 60;
      IntToString(hours) + " hour" + (if hours != 1 then "s" else "")
  }

  /**
   * From an hour on, the label is whole hours rounded down, and it is the
   * singular "1 hour" for every value from 60 to 119 minutes.
   */
  lemma FormatHours(minutes: int)
    requires minutes >= 60
    ensures FormatNotificationTime(minutes) == "1 hour" <==> minutes < 120
    ensures minutes >= 120 ==> FormatNotificationTime(minutes) == NatToString(minutes / 60) + " hours"
  {
    if minutes >= 120 {
      assert |FormatNotificationTime(minutes)| >= 7;
    } else {
      assert minutes / 60 == 1;
      assert NatToString(1) == "1";
    }
  }

  /**
   * Below an hour the label is the minute count in decimal, and it is the
   * singular "1 minute" only for one minute.
   */
  lemma FormatMinutes(minutes: int)
    requires 0 <= minutes < 60
    ensures FormatNotificationTime(minutes) == NatToString(minutes) + (if minutes == 1 then " minute" else " minutes")
    ensures FormatNotificationTime(minutes) == "1 minute" <==> minutes == 1
  {
    var t := FormatNotificationTime(minutes);
    if minutes != 1 {
      assert t[|t| - 1] == 's';
    } else {
      assert NatToString(1) == "1";
    }
  }

  /** Ninety minutes reads "1 hour"; forty-five reads "45 minutes"; one reads "1 minute". */
  lemma FormatExamples()
    ensures FormatNotificationTime(90) == "1 hour"
    ensures FormatNotificationTime(45) == "45 minutes"
    ensures FormatNotificationTime(1) == "1 minute"
  {
    FormatHours(90);
    assert NatToString(45) == "45";
    assert NatToString(1) == "1";
  }
}
