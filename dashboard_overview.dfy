/** The dashboard overview of the client
    (frontend/src/pages/DashboardOverview.jsx): the fallbacks for missing
    responses, the four statistic cards, the relative time of an alert and
    the two most recent projects. */
module DashboardOverview {
  import opened Lists
  import opened Text
  import opened Store
  import opened Auth
  import opened FirestoreUtils

  // ---------------------------------------------------------------------
  // Fallbacks
  // ---------------------------------------------------------------------

  /** The statistics shown: the response's, or all zero. */
  function ShownStats(stats: Option<UserStats>): UserStats
  {
    stats.GetOr(UserStats(0, 0, 0.0, 0))
  }

  /** The usage meter shown: the response's, or an empty starter meter. */
  function ShownUsage(usage: Option<UsageStats>): UsageStats
  {
    usage.GetOr(UsageStats("starter", 0, 10, 0.0))
  }

  /** The fallbacks are what the server reports with no store configured,
      and the fallback meter's limit is the quota gate's starter limit. */
  lemma FallbacksMatchServer()
    ensures ShownStats(None) == NoStats
    ensures ShownUsage(None) == NoUsage
    ensures ShownUsage(None).limit == PlanLimit(ShownUsage(None).plan)
    ensures StatCards(ShownStats(None))[2].trend == Down && StatCards(ShownStats(None))[3].trend == Down
    ensures StatCards(ShownStats(None))[3].trendValue == Label("0")
  {
  }

  // ---------------------------------------------------------------------
  // Statistic cards
  // ---------------------------------------------------------------------

  datatype Trend = Up | Down

  /** A card's value: text, or the success rate followed by "%" (the
      rendering of a JavaScript number is not modelled). */
  datatype CardValue = Label(text: string) | Percent(rate: real)

  datatype StatCard = StatCard(title: string, value: CardValue, trend: Trend, trendValue: CardValue)

  const IdeasTrendText: string := "+3 this week"

  /** `statCards`: ideas analysed (always trending up by a fixed "+3 this
      week"), revenue streams (always up, by their own total), success rate
      (up from 70), active projects (up when there is one). */
  function StatCards(stats: UserStats): (cards: seq<StatCard>)
    ensures |cards| == 4
    ensures cards[0].title == "Ideas Analyzed" && cards[1].title == "Revenue Streams"
    ensures cards[2].title == "Success Rate" && cards[3].title == "Active Projects"
    ensures cards[0].value == Label(NatToString(stats.ideasAnalyzed)) && cards[0].trend == Up
    ensures cards[0].trendValue == Label(IdeasTrendText)
    ensures cards[1].value == Label(IntToString(stats.revenueStreams)) && cards[1].trend == Up
    ensures cards[1].trendValue == Label("+" + IntToString(stats.revenueStreams))
    ensures cards[2].value == Percent(stats.successRate) && cards[2].trendValue == Percent(stats.successRate)
    ensures cards[2].trend == Up <==> stats.successRate >= 70.0
    ensures cards[3].value == Label(NatToString(stats.activeProjects))
    ensures cards[3].trend == Up <==> stats.activeProjects > 0
    ensures cards[3].trendValue == Label(if stats.activeProjects > 0 then "+" + NatToString(stats.activeProjects) else "0")
  {
    [
      StatCard("Ideas Analyzed", Label(NatToString(stats.ideasAnalyzed)), Up, Label(IdeasTrendText)),
      StatCard("Revenue Streams", Label(IntToString(stats.revenueStreams)), Up, Label("+" + IntToString(stats.revenueStreams))),
      StatCard("Success Rate", Percent(stats.successRate), if stats.successRate >= 70.0 then Up else Down, Percent(stats.successRate)),
      StatCard("Active Projects", Label(NatToString(stats.activeProjects)),
        if stats.activeProjects > 0 then Up else Down,
        Label(if stats.activeProjects > 0 then "+" + NatToString(stats.activeProjects) else "0"))
    ]
  }

  /** For the exact mean, the success card trends up exactly when the mean
      reaches 70, that is when the score total reaches 70 per project;
      `StatsOf` gives this relation between a listing's mean and its total.
      The server rounds the mean to one decimal, which this does not
      capture: a mean just below 70 may be shown as 70.0. */
  lemma SuccessCardOfMean(stats: UserStats, total: int, n: nat)
    requires n > 0 && stats.successRate * n as real == total as real
    ensures StatCards(stats)[2].trend == Up <==> total >= 70 * n
  {
    MeanThreshold(stats.successRate, n, total);
  }

  /** A mean reaches 70 exactly when the total reaches 70 times the count. */
  lemma MeanThreshold(mean: real, n: nat, total: int)
    requires n > 0 && mean * n as real == total as real
    ensures mean >= 70.0 <==> total >= 70 * n
  {
    var x := n as real;
    assert (70 * n) as real == 70.0 * x;
    if mean >= 70.0 {
      RealMulMono(mean, 70.0, x);
    } else {
      RealMulStrict(70.0, mean, x);
    }
  }

  lemma RealMulMono(a: real, b: real, c: real)
    requires a >= b && c >= 0.0
    ensures a * c >= b * c
  {
  }

  lemma RealMulStrict(a: real, b: real, c: real)
    requires a > b && c > 0.0
    ensures a * c > b * c
  {
  }

  /** The active card trends up exactly when some project of the listing is
      active. */
  lemma ActiveCardOfListing(listing: seq<(DocId, ProjectDoc)>)
    ensures StatCards(StatsOf(listing))[3].trend == Up <==> exists i :: 0 <= i < |listing| && listing[i].1.status == Some("active")
  {
    var s := StatsOf(listing);
    assert s.activeProjects == 0 <==> forall i :: 0 <= i < |listing| ==> listing[i].1.status != Some("active");
  }

  // ---------------------------------------------------------------------
  // Relative time
  // ---------------------------------------------------------------------

  /** `formatTimestamp`, before rendering: no timestamp is "Just now";
      otherwise whole minutes below the hour, whole hours below the day,
      whole days after that. */
  datatype Ago = JustNow | Minutes(minutes: int) | Hours(hours: int) | Days(days: int)

  const MinuteMs: nat := 60000
  const HourMs: nat := 3600000
  const DayMs: nat := 86400000

  /** The bucket of an alert's time, given the current time (both in
      milliseconds). A zero timestamp counts as missing; a time in the
      future gives a negative number of minutes. */
  function FormatTimestamp(timestamp: Option<int>, now: int): (r: Ago)
    ensures timestamp.None? || timestamp.value == 0 <==> r.JustNow?
    ensures r.Minutes? ==> var diff := now - timestamp.value;
      r.minutes < 60 && r.minutes * MinuteMs <= diff < (r.minutes + 1) * MinuteMs
    ensures r.Hours? ==> var diff := now - timestamp.value;
      1 <= r.hours < 24 && r.hours * HourMs <= diff < (r.hours + 1) * HourMs
    ensures r.Days? ==> var diff := now - timestamp.value;
      r.days >= 1 && r.days * DayMs <= diff < (r.days + 1) * DayMs
  {
    if timestamp.None? || timestamp.value == 0 then JustNow
    else
      var diff := now - timestamp.value;
      var mins, hours, days := diff / MinuteMs, diff / HourMs, diff / DayMs;
      if mins < 60 then Minutes(mins)
      else if hours < 24 then Hours(hours)
      else Days(days)
  }

  /** The buckets split by elapsed time: minutes below one hour, hours from
      one hour to below one day, days from one day. */
  lemma BucketsByElapsedTime(timestamp: int, now: int)
    requires timestamp != 0
    ensures FormatTimestamp(Some(timestamp), now).Minutes? <==> now - timestamp < HourMs
    ensures FormatTimestamp(Some(timestamp), now).Hours? <==> HourMs <= now - timestamp < DayMs
    ensures FormatTimestamp(Some(timestamp), now).Days? <==> now - timestamp >= DayMs
  {
    var diff := now - timestamp;
    var r := FormatTimestamp(Some(timestamp), now);
    if r.Minutes? {
      assert r.minutes <= 59;
      assert (r.minutes + 1) * MinuteMs <= HourMs;
    } else if r.Hours? {
      assert r.hours * HourMs >= HourMs;
      assert (r.hours + 1) * HourMs <= DayMs;
    } else {
      assert r.days * DayMs >= DayMs;
    }
  }

  /** The text shown for a bucket. */
  function Render(a: Ago): (s: string)
    ensures a.JustNow? <==> s == "Just now"
    ensures a.Minutes? ==> s == IntToString(a.minutes) + " minutes ago"
    ensures a.Hours? ==> s == IntToString(a.hours) + " hours ago"
    ensures a.Days? ==> s == IntToString(a.days) + " days ago"
  {
    match a
    case JustNow => "Just now"
    case Minutes(m) => IntToString(m) + " minutes ago"
    case Hours(h) => IntToString(h) + " hours ago"
    case Days(d) => IntToString(d) + " days ago"
  }

  // ---------------------------------------------------------------------
  // Recent projects
  // ---------------------------------------------------------------------

  /** The recent projects panel: the first two of the response's projects
      (none when there is no response). */
  function RecentShown<T>(projects: Option<seq<T>>): (r: seq<T>)
    ensures |r| == if |projects.GetOr([])| < 2 then |projects.GetOr([])| else 2
    ensures r == projects.GetOr([])[..|r|]
  {
    var ps := projects.GetOr([]);
    if |ps| < 2 then ps else ps[..2]
  }
}
