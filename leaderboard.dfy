/** The provider leaderboard (`employeeData`) and the service-line cards (`unitData`)
    of the selected week. */
module Leaderboard {
  import opened DashboardData
  import opened Ordering

  /** The three sort buttons. */
  datatype SortKey = TotalHours | TotalTasks | TasksPerHour

  /** One leaderboard row; `displayName` is the displayed "Doctor <id>". */
  datatype ProviderRow = ProviderRow(
    displayName: string,
    empId: string,
    totalHours: real,
    totalTasks: real,
    shifts: real,
    tasksPerHour: real,
    avgShiftLength: real)

  function ProviderRowOf(id: string, rec: EmployeeRecord): ProviderRow {
    ProviderRow("Doctor " + id, id, rec.totalTime, rec.tasksCompleted, rec.timesheetId,
                rec.tasksPerHour, rec.avgShiftLength)
  }

  /** `row[sortBy]` */
  function SortValue(key: SortKey, row: ProviderRow): real {
    match key
    case TotalHours => row.totalHours
    case TotalTasks => row.totalTasks
    case TasksPerHour => row.tasksPerHour
  }

  function SortValueOf(key: SortKey): ProviderRow -> real {
    row => SortValue(key, row)
  }

  /** The `.map` step: one row per entry, in entry order. */
  function ProviderRows(entries: Entries<EmployeeRecord>): (rows: seq<ProviderRow>)
    ensures |rows| == |entries|
    ensures forall i :: 0 <= i < |rows| ==> rows[i] == ProviderRowOf(entries[i].0, entries[i].1)
  {
    seq(|entries|, i requires 0 <= i < |entries| => ProviderRowOf(entries[i].0, entries[i].1))
  }

  /** The provider entries of a week; a week without a provider map has none. */
  function WeekProviders(d: Data, week: string): (e: Entries<EmployeeRecord>)
    ensures week in d.weeklyEmployees ==> e == d.weeklyEmployees[week]
    ensures week !in d.weeklyEmployees ==> e == []
  {
    Lookup(d.weeklyEmployees, week, [])
  }

  /** `employeeData`: the week's providers as rows, highest `sortBy` value first. */
  function EmployeeData(d: Data, week: string, sortBy: SortKey): (rows: seq<ProviderRow>)
    ensures SortedDesc(rows, SortValueOf(sortBy))
    ensures multiset(rows) == multiset(ProviderRows(WeekProviders(d, week)))
    ensures week !in d.weeklyEmployees ==> rows == []
  {
    SortDesc(ProviderRows(WeekProviders(d, week)), SortValueOf(sortBy))
  }

  /** Switching the sort key reorders the leaderboard and never changes its rows. */
  lemma SortKeyOnlyReorders(d: Data, week: string, k1: SortKey, k2: SortKey)
    ensures multiset(EmployeeData(d, week, k1)) == multiset(EmployeeData(d, week, k2))
    ensures |EmployeeData(d, week, k1)| == |WeekProviders(d, week)|
  {
  }

  /** A provider's row is on the leaderboard exactly when the provider is listed for the
      week with that record. */
  lemma {:induction false} ProviderListed(d: Data, week: string, sortBy: SortKey, id: string, rec: EmployeeRecord)
    ensures ProviderRowOf(id, rec) in EmployeeData(d, week, sortBy) <==> (id, rec) in WeekProviders(d, week)
  {
    var entries := WeekProviders(d, week);
    var rows := ProviderRows(entries);
    var row := ProviderRowOf(id, rec);
    SortDescMembers(rows, SortValueOf(sortBy), row);
    if row in rows {
      var i :| 0 <= i < |rows| && rows[i] == row;
      assert entries[i] == (id, rec);
    }
    if (id, rec) in entries {
      var i :| 0 <= i < |entries| && entries[i] == (id, rec);
      assert rows[i] == row;
    }
  }

  /** A service-line card; `efficiency` is tasks per hour, absent when the line logged
      no hours. */
  datatype UnitRow = UnitRow(name: string, hours: real, tasks: real, efficiency: Option<real>)

  /** Tasks per hour of a service line, defined only when it logged hours. */
  function Efficiency(rec: UnitRecord): (e: Option<real>)
    ensures e.Some? <==> rec.totalTime != 0.0
    ensures e.Some? ==> e.value * rec.totalTime == rec.tasksCompleted
  {
    if rec.totalTime == 0.0 then None else Some(rec.tasksCompleted / rec.totalTime)
  }

  /** A JavaScript quotient: a finite number, an infinity, or NaN. */
  datatype Quotient = Finite(value: real) | Infinity(positive: bool) | NaN

  /** The efficiency exactly as the card computes it, `tasks_completed / total_time`,
      with IEEE division by zero. */
  function EfficiencyAsWritten(rec: UnitRecord): (q: Quotient)
    ensures q.Finite? <==> rec.totalTime != 0.0
    ensures q.Finite? ==> q.value * rec.totalTime == rec.tasksCompleted
    ensures q.NaN? <==> rec.totalTime == 0.0 && rec.tasksCompleted == 0.0
    ensures q.Infinity? ==> (q.positive <==> rec.tasksCompleted > 0.0)
  {
    if rec.totalTime != 0.0 then Finite(rec.tasksCompleted / rec.totalTime)
    else if rec.tasksCompleted == 0.0 then NaN
    else Infinity(rec.tasksCompleted > 0.0)
  }

  /** The two agree whenever the line logged hours ... */
  lemma EfficiencyAgrees(rec: UnitRecord)
    requires rec.totalTime != 0.0
    ensures EfficiencyAsWritten(rec) == Finite(Efficiency(rec).value)
  {
  }

  /** ... and a service line with tasks but no hours is shown as "Infinity" tasks/hr. */
  lemma ZeroHoursShowsInfinity()
    ensures EfficiencyAsWritten(UnitRecord(0.0, 5.0)) == Infinity(true)
    ensures Efficiency(UnitRecord(0.0, 5.0)) == None
  {
  }

  function UnitRowOf(name: string, rec: UnitRecord): UnitRow {
    UnitRow(name, rec.totalTime, rec.tasksCompleted, Efficiency(rec))
  }

  function UnitRows(entries: Entries<UnitRecord>): (rows: seq<UnitRow>)
    ensures |rows| == |entries|
    ensures forall i :: 0 <= i < |rows| ==> rows[i] == UnitRowOf(entries[i].0, entries[i].1)
  {
    seq(|entries|, i requires 0 <= i < |entries| => UnitRowOf(entries[i].0, entries[i].1))
  }

  /** The service-line entries of a week; a week without a service-line map has none. */
  function WeekUnits(d: Data, week: string): (e: Entries<UnitRecord>)
    ensures week in d.weeklyUnits ==> e == d.weeklyUnits[week]
    ensures week !in d.weeklyUnits ==> e == []
  {
    Lookup(d.weeklyUnits, week, [])
  }

  function UnitHours(row: UnitRow): real { row.hours }

  /** `unitData`: the week's service lines as cards, most hours first. */
  function UnitData(d: Data, week: string): (rows: seq<UnitRow>)
    ensures SortedDesc(rows, UnitHours)
    ensures multiset(rows) == multiset(UnitRows(WeekUnits(d, week)))
    ensures week !in d.weeklyUnits ==> rows == []
  {
    SortDesc(UnitRows(WeekUnits(d, week)), UnitHours)
  }

  /** A service line's card is shown exactly when the line is listed for the week with
      that record. */
  lemma {:induction false} ServiceLineListed(d: Data, week: string, name: string, rec: UnitRecord)
    ensures UnitRowOf(name, rec) in UnitData(d, week) <==> (name, rec) in WeekUnits(d, week)
  {
    var entries := WeekUnits(d, week);
    var rows := UnitRows(entries);
    var row := UnitRowOf(name, rec);
    SortDescMembers(rows, UnitHours, row);
    if row in rows {
      var i :| 0 <= i < |rows| && rows[i] == row;
      assert entries[i] == (name, rec);
    }
    if (name, rec) in entries {
      var i :| 0 <= i < |entries| && entries[i] == (name, rec);
      assert rows[i] == row;
    }
  }

  /** Two providers with 40 and 60 hours, sorted by hours: the 60-hour provider leads. */
  lemma HoursLeaderboardExample()
    ensures var a := EmployeeRecord(40.0, 10.0, 5.0, 0.25, 8.0);
            var b := EmployeeRecord(60.0, 12.0, 6.0, 0.2, 10.0);
            var d := Data(["2026-01-05"], map[], map["2026-01-05" := [("A", a), ("B", b)]], map[], map[], map[]);
            EmployeeData(d, "2026-01-05", TotalHours) == [ProviderRowOf("B", b), ProviderRowOf("A", a)]
  {
  }
}
