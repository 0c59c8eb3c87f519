/** Week-over-week change of the four headline metrics and the trend badge of a
    metric card. */
module WeekChange {
  import opened DashboardData
  import opened Weeks

  /** What `calculateChange` yields: `null`, `NaN` (the current value was absent, and
      `Math.round(NaN)` is `NaN`), or a whole percentage. */
  datatype Change = Null | NaN | Percent(value: int)

  /** `Math.round`: the nearest integer, halves going up. */
  function Round(x: real): (n: int)
    ensures n as real <= x + 0.5 < n as real + 1.0
  {
    (x + 0.5).Floor
  }

  function Abs(n: int): (m: nat)
    ensures m == n || m == -n
  {
    if n < 0 then -n else n
  }

  /** Exact percent change from `previous` to `current`. */
  function ExactPercent(current: real, previous: real): real
    requires previous != 0.0
  {
    (current - previous) / previous * 100.0
  }

  /** `calculateChange(current, previous)`: no change without a non-zero previous value,
      NaN without a current value, else the exact percent change rounded. */
  function CalculateChange(current: Option<real>, previous: Option<real>): (c: Change)
    ensures c == Null <==> previous == None || previous == Some(0.0)
    ensures c == NaN <==> previous != None && previous != Some(0.0) && current == None
    ensures c.Percent? ==>
      var exact := ExactPercent(current.value, previous.value);
      c.value as real <= exact + 0.5 < c.value as real + 1.0
  {
    if previous.None? || previous.value == 0.0 then Null
    else if current.None? then NaN
    else Percent(Round(ExactPercent(current.value, previous.value)))
  }

  /** The change of each metric card. */
  datatype Changes = Changes(hours: Change, tasks: Change, revenue: Change, providers: Change)

  const NoChanges := Changes(Null, Null, Null, Null)

  /** `previousWeekData`: the summary of the previous week, when that week is a
      non-empty (truthy) key that the summary map holds. */
  function PreviousWeekData(d: Data, selected: string): (s: Option<WeekSummary>)
    ensures var p := PreviousWeek(d.availableWeeks, selected);
      s.Some? <==> p.Some? && p.value != "" && p.value in d.weeklySummary
    ensures s.Some? ==> s.value == d.weeklySummary[PreviousWeek(d.availableWeeks, selected).value]
  {
    match PreviousWeek(d.availableWeeks, selected)
    case None => None
    case Some(p) =>
      if p != "" && p in d.weeklySummary then Some(d.weeklySummary[p]) else None
  }

  /** `currentWeekData`: the selected week's summary, or `{}` when there is none. */
  function CurrentWeekData(d: Data, selected: string): (s: WeekSummary)
    ensures selected in d.weeklySummary ==> s == d.weeklySummary[selected]
    ensures selected !in d.weeklySummary ==> s == EmptySummary
  {
    Lookup(d.weeklySummary, selected, EmptySummary)
  }

  /** `changes`: all four metrics compared with the previous week, or all null when
      there is no previous week's summary. */
  function WeekChanges(d: Data, selected: string): (c: Changes)
    ensures selected !in d.availableWeeks ==> c == NoChanges
    ensures |d.availableWeeks| > 0 && selected == d.availableWeeks[0] ==> c == NoChanges
    ensures PreviousWeekData(d, selected).None? ==> c == NoChanges
    ensures PreviousWeekData(d, selected).Some? ==>
      var cur := CurrentWeekData(d, selected);
      var prev := PreviousWeekData(d, selected).value;
      c == Changes(CalculateChange(cur.totalHours, prev.totalHours),
                   CalculateChange(cur.totalTasks, prev.totalTasks),
                   CalculateChange(cur.totalRevenue, prev.totalRevenue),
                   CalculateChange(cur.activeProviders, prev.activeProviders))
  {
    match PreviousWeekData(d, selected)
    case None => NoChanges
    case Some(prev) =>
      var cur := CurrentWeekData(d, selected);
      Changes(CalculateChange(cur.totalHours, prev.totalHours),
              CalculateChange(cur.totalTasks, prev.totalTasks),
              CalculateChange(cur.totalRevenue, prev.totalRevenue),
              CalculateChange(cur.activeProviders, prev.activeProviders))
  }

  /** The badge in a metric card's corner: arrow direction and magnitude in percent. */
  datatype Badge = Badge(up: bool, magnitude: nat)

  /** `showTrend` and the badge it guards: shown for a non-zero change below 200% in
      magnitude, pointing up for growth. */
  function TrendBadge(trend: Change): (b: Option<Badge>)
    ensures b.Some? <==> trend.Percent? && 0 < Abs(trend.value) < 200
    ensures b.Some? ==> b.value.magnitude == Abs(trend.value) && (b.value.up <==> trend.value > 0)
  {
    match trend
    case Percent(p) =>
      if 0 < Abs(p) < 200 then Some(Badge(p > 0, Abs(p))) else None
    case _ => None
  }

  /** With a positive previous value, a shown badge points up exactly when the metric
      grew. */
  lemma BadgeFollowsGrowth(current: real, previous: real)
    requires previous > 0.0
    ensures var b := TrendBadge(CalculateChange(Some(current), Some(previous)));
      b.Some? ==> (b.value.up <==> current > previous)
  {
  }

  /** An unchanged metric shows no badge. */
  lemma NoBadgeWhenUnchanged(value: real, previous: real)
    requires previous != 0.0 && value == previous
    ensures TrendBadge(CalculateChange(Some(value), Some(previous))) == None
  {
  }

  /** Growth of 199.5% or more rounds to at least 200 and is hidden as an outlier. */
  lemma OutlierGrowthHidden(current: real, previous: real)
    requires previous > 0.0 && current - previous >= 1.995 * previous
    ensures TrendBadge(CalculateChange(Some(current), Some(previous))) == None
  {
  }

  /** No metric card shows a badge for a week without a predecessor. */
  lemma NoBadgesWithoutPredecessor(d: Data, selected: string)
    requires selected !in d.availableWeeks || selected == d.availableWeeks[0]
    ensures var c := WeekChanges(d, selected);
      TrendBadge(c.hours) == TrendBadge(c.tasks) == TrendBadge(c.revenue) == TrendBadge(c.providers) == None
  {
  }

  /** 100 hours one week and 150 the next: the Total Hours card shows "↑ 50%". */
  lemma HoursChangeExample()
    ensures var s1 := EmptySummary.(totalHours := Some(100.0));
            var s2 := EmptySummary.(totalHours := Some(150.0));
            var d := Data(["2026-01-05", "2026-01-12"], map["2026-01-05" := s1, "2026-01-12" := s2],
                          map[], map[], map[], map[]);
            WeekChanges(d, "2026-01-12").hours == Percent(50)
            && TrendBadge(WeekChanges(d, "2026-01-12").hours) == Some(Badge(true, 50))
  {
  }
}
