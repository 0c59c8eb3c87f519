/** The shape of the dashboard's input object. The original reads it from a global;
    here it is an explicit value passed to every derivation. */
module DashboardData {

  datatype Option<+T> = None | Some(value: T) {
    /** `x || default` for a value that is either absent or a number. */
    function GetOr(default: T): T {
      match this
      case Some(v) => v
      case None => default
    }
  }

  /** A JavaScript object as `Object.entries` enumerates it: key/value pairs in the
      object's own iteration order (a Dafny map has no order, the source's sort ties do). */
  type Entries<V> = seq<(string, V)>

  /** `weekly_summary[week]`: every field may be absent. */
  datatype WeekSummary = WeekSummary(
    totalHours: Option<real>,
    totalTasks: Option<real>,
    totalRevenue: Option<real>,
    activeProviders: Option<real>,
    totalShifts: Option<real>,
    avgTasksPerHour: Option<real>)

  /** The empty object `{}` a missing summary falls back to. */
  const EmptySummary := WeekSummary(None, None, None, None, None, None)

  /** `weekly_employees[week][providerId]`. */
  datatype EmployeeRecord = EmployeeRecord(
    totalTime: real,
    tasksCompleted: real,
    timesheetId: real,
    tasksPerHour: real,
    avgShiftLength: real)

  /** `weekly_units[week][serviceLine]`. */
  datatype UnitRecord = UnitRecord(totalTime: real, tasksCompleted: real)

  /** One point of a stored trend, and of a chart series built from it. */
  datatype TrendPoint = TrendPoint(week: string, hours: real, tasks: real)

  datatype Data = Data(
    availableWeeks: seq<string>,
    weeklySummary: map<string, WeekSummary>,
    weeklyEmployees: map<string, Entries<EmployeeRecord>>,
    weeklyUnits: map<string, Entries<UnitRecord>>,
    employeeTrends: map<string, seq<TrendPoint>>,
    unitTrends: map<string, seq<TrendPoint>>)

  /** `m[k] || default` where every stored value is an object or array, hence truthy. */
  function Lookup<V>(m: map<string, V>, k: string, default: V): V {
    if k in m then m[k] else default
  }
}
