/**
 * The reminder card: which sale instant it counts down to, how urgent that
 * sale is, the badge it shows and the label above the countdown.
 */
module ReminderCard {
  import opened Wrappers
  import opened Types
  import opened Decimal

  datatype Urgency = Urgent | Soon | Normal

  /** Two hours or less (past sales included) is urgent, a day or less is soon. */
  function UrgencyLevel(sale: Instant, now: Instant): (u: Urgency)
    ensures u == Urgent <==> sale - now <= 2 * MsPerHour
    ensures u == Soon <==> 2 * MsPerHour < sale - now <= 24 * MsPerHour
    ensures u == Normal <==> sale - now > 24 * MsPerHour
  {
    var diff := sale - now;
    if diff <= 2 * MsPerHour then Urgent
    else if diff <= 24 * MsPerHour then Soon
    else Normal
  }

  /** `Math.ceil(diff / 86400000)` for a positive `diff`: whole days, rounded up. */
  function DaysRoundedUp(diff: int): (d: int)
    requires diff > 0
    ensures d >= 1
    ensures (d - 1) * MsPerDay < diff <= d * MsPerDay
  {
    (diff + MsPerDay - 1) / MsPerDay
  }

  /** The days badge is only shown for normal urgency, where at least two days are counted. */
  lemma NormalBadgeAtLeastTwoDays(sale: Instant, now: Instant)
    requires UrgencyLevel(sale, now) == Normal
    ensures DaysRoundedUp(sale - now) >= 2
  {
  }

  /** The badge text of each urgency level. */
  function BadgeText(sale: Instant, now: Instant): (s: string)
    ensures UrgencyLevel(sale, now) == Urgent ==> s == "🔥 Sale Starting Soon!"
    ensures UrgencyLevel(sale, now) == Soon ==> s == "⏰ Sale in 2 Days"
    ensures UrgencyLevel(sale, now) == Normal ==>
              s == "Sale in " + IntToString(DaysRoundedUp(sale - now)) + " Days"
  {
    match UrgencyLevel(sale, now)
    case Urgent => "🔥 Sale Starting Soon!"
    case Soon => "⏰ Sale in 2 Days"
    case Normal => "Sale in " + IntToString(DaysRoundedUp(sale - now)) + " Days"
  }

  /** The label says presale exactly when the event has a presale date. */
  function SaleLabel(e: Event): (s: string)
    ensures s == "Presale Access" <==> e.presaleDate.Some?
    ensures s == "Ticket Sale" <==> e.presaleDate.None?
  {
    if e.presaleDate.Some? then "Presale Access" else "Ticket Sale"
  }

  /** What a rendered card shows. */
  datatype Card = Card(saleDate: Instant, level: Urgency, badge: string, heading: string)

  /** The card of an event at `now`; nothing is rendered without a sale date. */
  function RenderCard(e: Event, now: Instant): (c: Option<Card>)
    ensures c.None? <==> e.presaleDate.None? && e.ticketSaleDate.None?
    ensures e.presaleDate.Some? ==> c.Some? && c.value.saleDate == e.presaleDate.value
    ensures e.presaleDate.None? && e.ticketSaleDate.Some? ==>
              c.Some? && c.value.saleDate == e.ticketSaleDate.value
    ensures c.Some? ==> (c.value.level == UrgencyLevel(c.value.saleDate, now)
                         && c.value.badge == BadgeText(c.value.saleDate, now)
                         && c.value.heading == SaleLabel(e))
  {
    match PresaleOrTicketSale(e)
    case None => None
    case Some(sale) => Some(Card(sale, UrgencyLevel(sale, now), BadgeText(sale, now), SaleLabel(e)))
  }

  /** A past sale is always urgent, and the urgency levels are ordered by time to sale. */
  lemma UrgencyMonotone(sale1: Instant, sale2: Instant, now: Instant)
    requires sale1 <= sale2
    ensures UrgencyLevel(sale2, now) == Urgent ==> UrgencyLevel(sale1, now) == Urgent
    ensures UrgencyLevel(sale1, now) == Normal ==> UrgencyLevel(sale2, now) == Normal
    ensures sale1 <= now ==> UrgencyLevel(sale1, now) == Urgent
  {
  }
}
