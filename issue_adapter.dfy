/**
 * One row of a complaint list: its texts, its status badge, its first image
 * and how long ago it was filed; plus the list's change detection and its
 * click handling.
 */
module IssueAdapter {
  import opened Wrappers
  import opened Models

  const MillisPerDay := 86400000
  const MillisPerHour := 3600000
  const MillisPerMinute := 60000

  /** Java's `/` on `long`: the quotient rounded toward zero (Dafny's own
      `/` rounds down for a positive divisor). */
  function TruncDiv(a: int, b: int): (q: int)
    requires b > 0
    ensures a >= 0 ==> q == a / b
    ensures a < 0 ==> q == -((-a) / b)
    ensures q > 0 <==> a >= b
  {
    if a >= 0 then a / b else -((-a) / b)
  }

  datatype TimeUnit = Day | Hour | Minute

  /** How many milliseconds one unit spans. */
  function UnitMillis(unit: TimeUnit): nat {
    match unit
    case Day => MillisPerDay
    case Hour => MillisPerHour
    case Minute => MillisPerMinute
  }

  /** What the date column says: a count of the largest positive unit,
      "Just now", or "Unknown" for a date that does not parse. */
  datatype TimeAgo = Ago(count: int, unit: TimeUnit) | JustNow | Unknown

  /**
   * `getTimeAgo`, from the milliseconds elapsed since the complaint was
   * filed (`None` when its date does not parse): whole days, else whole
   * hours, else whole minutes, whichever is first positive.
   */
  function Bucket(diff: Option<int>): (r: TimeAgo)
    ensures diff.None? <==> r == Unknown
    ensures r.Ago? ==> r.count > 0
    ensures r.Ago? ==> r.count == diff.value / UnitMillis(r.unit)
  {
    match diff
    case None => Unknown
    case Some(d) =>
      var days := TruncDiv(d, MillisPerDay);
      var hours := TruncDiv(d, MillisPerHour);
      var minutes := TruncDiv(d, MillisPerMinute);
      if days > 0 then Ago(days, Day)
      else if hours > 0 then Ago(hours, Hour)
      else if minutes > 0 then Ago(minutes, Minute)
      else JustNow
  }

  /** The bucket is fixed by the interval the difference falls in, and each
      unit's count stays below the next larger unit. */
  lemma BucketIntervals(d: int)
    ensures Bucket(Some(d)) == Ago(d / MillisPerDay, Day) <==> d >= MillisPerDay
    ensures Bucket(Some(d)).Ago? && Bucket(Some(d)).unit == Hour <==> MillisPerHour <= d < MillisPerDay
    ensures Bucket(Some(d)).Ago? && Bucket(Some(d)).unit == Minute <==> MillisPerMinute <= d < MillisPerHour
    ensures Bucket(Some(d)) == JustNow <==> d < MillisPerMinute
    ensures Bucket(Some(d)).Ago? && Bucket(Some(d)).unit == Hour ==> 1 <= Bucket(Some(d)).count <= 23
    ensures Bucket(Some(d)).Ago? && Bucket(Some(d)).unit == Minute ==> 1 <= Bucket(Some(d)).count <= 59
    ensures Bucket(Some(d)).Ago? && Bucket(Some(d)).unit == Hour ==> Bucket(Some(d)).count == d / MillisPerHour
    ensures Bucket(Some(d)).Ago? && Bucket(Some(d)).unit == Minute ==> Bucket(Some(d)).count == d / MillisPerMinute
  {
    if d >= MillisPerDay {
      assert TruncDiv(d, MillisPerDay) == d / MillisPerDay;
    } else if d >= MillisPerHour {
      assert d / MillisPerHour <= 23;
    } else if d >= MillisPerMinute {
      assert d / MillisPerMinute <= 59;
    }
  }

  /** A date in the future, or the present moment, reads "Just now". */
  lemma FutureIsJustNow(d: int)
    requires d <= 0
    ensures Bucket(Some(d)) == JustNow
  {
    BucketIntervals(d);
  }

  function Digit(n: int): (c: char)
    requires 0 <= n < 10
    ensures '0' <= c <= '9'
  {
    ['0', '1', '2', '3', '4', '5', '6', '7', '8', '9'][n]
  }

  /** Decimal digits of a natural number, most significant first. */
  function NatToString(n: nat): (s: string)
    ensures s != [] && forall i :: 0 <= i < |s| ==> '0' <= s[i] <= '9'
    ensures |s| > 1 ==> s[0] != '0'
    decreases n
  {
    if n < 10 then [Digit(n)] else NatToString(n / 10) + [Digit(n % 10)]
  }

  /** The number a string of decimal digits denotes. */
  function ParseDecimal(s: string): nat
    requires forall i :: 0 <= i < |s| ==> '0' <= s[i] <= '9'
  {
    if s == [] then 0
    else ParseDecimal(s[..|s| - 1]) * 10 + (s[|s| - 1] as int - '0' as int)
  }

  /** The rendering loses nothing: the digits read back as the count. */
  lemma {:induction false} NatToStringRoundTrip(n: nat)
    ensures ParseDecimal(NatToString(n)) == n
    decreases n
  {
    var s := NatToString(n);
    if n >= 10 {
      NatToStringRoundTrip(n / 10);
      assert s[..|s| - 1] == NatToString(n / 10);
    }
  }

  function UnitName(unit: TimeUnit): string {
    match unit
    case Day => "day"
    case Hour => "hour"
    case Minute => "min"
  }

  /** The text shown: "<count> <unit>", with an "s" exactly when the count
      is above one. */
  function TimeAgoText(t: TimeAgo): (s: string)
    requires t.Ago? ==> t.count > 0
    ensures t.Ago? ==> |s| > |NatToString(t.count)| + 1
    ensures t.Ago? ==> s[..|NatToString(t.count)|] == NatToString(t.count)
    ensures t.Ago? ==> (s[|s| - 1] == 's' <==> t.count > 1)
    ensures t.Ago? ==> s[|NatToString(t.count)|..] == " " + UnitName(t.unit) + (if t.count > 1 then "s" else "")
    ensures t == JustNow ==> s == "Just now"
    ensures t == Unknown ==> s == "Unknown"
  {
    match t
    case Ago(count, unit) =>
      NatToString(count) + " " + UnitName(unit) + (if count > 1 then "s" else "")
    case JustNow => "Just now"
    case Unknown => "Unknown"
  }

  /** The status badge's background. */
  datatype Badge = PendingBadge | ProgressBadge | ResolvedBadge | DefaultBadge

  /** `getStatusBackground`: the three statuses with their capitals as the
      backend writes them; anything else gets the default badge. */
  function StatusBackground(status: string): (b: Badge)
    ensures b == PendingBadge <==> status == "Pending"
    ensures b == ProgressBadge <==> status == "In Progress"
    ensures b == ResolvedBadge <==> status == "Resolved"
  {
    match status
    case "Pending" => PendingBadge
    case "In Progress" => ProgressBadge
    case "Resolved" => ResolvedBadge
    case _ => DefaultBadge
  }

  /** The badge test is case-sensitive: lower-case statuses get the
      default badge. */
  lemma BadgeIsCaseSensitive()
    ensures StatusBackground("pending") == DefaultBadge
    ensures StatusBackground("in progress") == DefaultBadge
    ensures StatusBackground("resolved") == DefaultBadge
  {
  }

  /** What one row shows. */
  datatype Row = Row(
    title: string,
    description: string,
    address: string,
    status: string,
    badge: Badge,
    image: Option<string>,
    date: string)

  /** `bind`: the row for a complaint filed `diff` milliseconds ago. */
  function Bind(c: Complaint, diff: Option<int>): (r: Row)
    ensures r.title == c.title && r.description == c.description
    ensures r.address == c.location.address && r.status == c.status
    ensures r.image.Some? <==> c.images != []
    ensures r.image.Some? ==> r.image.value == c.images[0].url
    ensures r.badge == StatusBackground(c.status)
    ensures r.date == TimeAgoText(Bucket(diff))
  {
    Row(c.title, c.description, c.location.address, c.status, StatusBackground(c.status),
        if c.images != [] then Some(c.images[0].url) else None,
        TimeAgoText(Bucket(diff)))
  }

  /** `areItemsTheSame`: the same complaint is the one with the same id. */
  predicate AreItemsTheSame(a: Complaint, b: Complaint) {
    a.id == b.id
  }

  /** `areContentsTheSame`: every field equal. */
  predicate AreContentsTheSame(a: Complaint, b: Complaint) {
    a == b
  }

  /** The list's change detection is consistent: equal contents imply the
      same item, and an item whose id changed is a different item. */
  lemma DiffCallbackConsistent(a: Complaint, b: Complaint)
    ensures AreContentsTheSame(a, b) ==> AreItemsTheSame(a, b)
    ensures a.id != b.id ==> !AreItemsTheSame(a, b) && !AreContentsTheSame(a, b)
  {
  }

  /** `RecyclerView.NO_POSITION`. */
  const NoPosition := -1

  /** A row click: a row without a position, or a list without a listener,
      does nothing; otherwise the listener receives the complaint at that
      position. */
  function OnRowClick(items: seq<Complaint>, position: int, hasListener: bool): (r: Option<Complaint>)
    requires position == NoPosition || 0 <= position < |items|
    ensures r.Some? <==> position != NoPosition && hasListener
    ensures r.Some? ==> r.value == items[position]
  {
    if position != NoPosition && hasListener then Some(items[position]) else None
  }
}
