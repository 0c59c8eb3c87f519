/** The three chart series: all weeks, the selected provider, the selected service line.
    `weekLabel` stands for the date formatting of a week key (a locale-dependent call). */
module Trends {
  import opened DashboardData

  /** `trends.map(t => ({week: weekLabel(t.week), hours: t.hours, tasks: t.tasks}))` */
  function Relabel(trends: seq<TrendPoint>, weekLabel: string -> string): (r: seq<TrendPoint>)
    ensures |r| == |trends|
    ensures forall i :: 0 <= i < |r| ==>
      r[i].week == weekLabel(trends[i].week) && r[i].hours == trends[i].hours && r[i].tasks == trends[i].tasks
  {
    seq(|trends|, i requires 0 <= i < |trends| => TrendPoint(weekLabel(trends[i].week), trends[i].hours, trends[i].tasks))
  }

  /** With week keys shown as they are, a series is the stored trend itself. */
  lemma RelabelIdentity(trends: seq<TrendPoint>)
    ensures Relabel(trends, w => w) == trends
  {
  }

  /** `allWeeksTrend`: one point per available week, in order, absent totals read as 0. */
  function AllWeeksTrend(d: Data, weekLabel: string -> string): (r: seq<TrendPoint>)
    ensures |r| == |d.availableWeeks|
    ensures forall i :: 0 <= i < |r| ==>
      var s := Lookup(d.weeklySummary, d.availableWeeks[i], EmptySummary);
      r[i].week == weekLabel(d.availableWeeks[i])
      && r[i].hours == s.totalHours.GetOr(0.0)
      && r[i].tasks == s.totalTasks.GetOr(0.0)
  {
    var weeks := d.availableWeeks;
    seq(|weeks|, i requires 0 <= i < |weeks| =>
      var s := Lookup(d.weeklySummary, weeks[i], EmptySummary);
      TrendPoint(weekLabel(weeks[i]), s.totalHours.GetOr(0.0), s.totalTasks.GetOr(0.0)))
  }

  /** A week without a summary, or whose summary lacks the totals, is plotted at zero. */
  lemma MissingWeekPlottedAtZero(d: Data, weekLabel: string -> string, i: int)
    requires 0 <= i < |d.availableWeeks|
    requires d.availableWeeks[i] !in d.weeklySummary
    ensures AllWeeksTrend(d, weekLabel)[i] == TrendPoint(weekLabel(d.availableWeeks[i]), 0.0, 0.0)
  {
  }

  /** The series of a drill-down selection: empty when nothing (or the empty key, which
      is falsy) is selected, or when no trend is stored for it; otherwise the stored
      trend relabelled. */
  function SelectedTrend(trends: map<string, seq<TrendPoint>>, selected: Option<string>,
                         weekLabel: string -> string): (r: seq<TrendPoint>)
    ensures selected == None || selected == Some("") ==> r == []
    ensures selected.Some? && selected.value !in trends ==> r == []
    ensures selected.Some? && selected.value != "" && selected.value in trends ==>
      r == Relabel(trends[selected.value], weekLabel)
  {
    match selected
    case None => []
    case Some(key) =>
      if key == "" then [] else Relabel(Lookup(trends, key, []), weekLabel)
  }

  /** `providerTrendData` */
  function ProviderTrendData(d: Data, selected: Option<string>, weekLabel: string -> string): (r: seq<TrendPoint>)
    ensures selected == None ==> r == []
    ensures selected.Some? && (selected.value == "" || selected.value !in d.employeeTrends) ==> r == []
    ensures selected.Some? && selected.value != "" && selected.value in d.employeeTrends ==>
      var stored := d.employeeTrends[selected.value];
      |r| == |stored|
      && forall i :: 0 <= i < |r| ==> r[i].hours == stored[i].hours && r[i].tasks == stored[i].tasks
  {
    SelectedTrend(d.employeeTrends, selected, weekLabel)
  }

  /** `serviceLineTrendData` */
  function ServiceLineTrendData(d: Data, selected: Option<string>, weekLabel: string -> string): (r: seq<TrendPoint>)
    ensures selected == None ==> r == []
    ensures selected.Some? && (selected.value == "" || selected.value !in d.unitTrends) ==> r == []
    ensures selected.Some? && selected.value != "" && selected.value in d.unitTrends ==>
      var stored := d.unitTrends[selected.value];
      |r| == |stored|
      && forall i :: 0 <= i < |r| ==> r[i].hours == stored[i].hours && r[i].tasks == stored[i].tasks
  {
    SelectedTrend(d.unitTrends, selected, weekLabel)
  }
}
