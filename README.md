# Weekly operations dashboard: selection and derivation model

A Dafny model of the logic inside the `Dashboard` React component of a weekly operations
dashboard for a healthcare staffing organisation. The component holds four selection slots
(week, leaderboard sort key, selected provider, selected service line). From them and a
read-only data object of weekly aggregates it derives:

- the week-over-week change of the four headline metrics;
- the trend badge of each metric card;
- the provider leaderboard and the service-line cards of the selected week;
- three chart series.

The data object is a global in the original. Here it is an explicit `DashboardData.Data` value.

Modules, one per concern of the component:

- `DashboardData` (data.dfy): the input shape. JavaScript numbers are `real`. Optional summary
  fields are `Option<real>`. A provider or service-line object, read through `Object.entries`,
  is a sequence of key/value pairs in the object's own iteration order.
- `Weeks` (weeks.dfy): `indexOf` over `available_weeks`, the previous week, and the Previous/Next
  navigation, whose Previous target is defined through the previous week.
- `WeekChange` (change.dfy): `calculateChange`, the `changes` record and the `showTrend` badge.
  `Math.round` is floor(x + 1/2).
- `Ordering` (ordering.dfy): `Array.prototype.sort` with a descending numeric comparator, as a
  stable insertion sort over sequences.
- `Leaderboard` (leaderboard.dfy): `employeeData` and `unitData`.
- `Trends` (trends.dfy): `allWeeksTrend`, `providerTrendData` and `serviceLineTrendData`. A week's
  date label is produced by a `weekLabel` function parameter, which stands for the
  locale-dependent date formatting.
- `Selection` (selection.dfy): the `ViewState` class with its four slots and one method per
  event handler, plus the toggle rule and how it interacts with the trend panels.

`calculateChange` has three outcomes:

- `Null` when the previous value is absent or zero;
- `NaN` when the current value is absent, because `undefined - p` is `NaN` and so is its rounding;
- otherwise a whole percentage.

The badge is hidden for both `Null` and `NaN`.

JavaScript truthiness is modelled where the code relies on it. An empty week key before the
selected week yields no previous-week data. An empty provider or service-line key yields an
empty series.

## Model

| member | source | states |
|---|---|---|
| `Weeks.IndexOf` | dashboard-component.js:11 | the result is -1 exactly when the week is not listed; otherwise it is the position of the week's first occurrence |
| `Weeks.IndexOfDistinct` | dashboard-component.js:11 | in a list without repeated weeks, the position of the k-th week is k |
| `Weeks.PreviousWeek` | dashboard-component.js:11-12 | a previous week exists iff the selected week is listed and is not the first; it is the listed week at the position just before the selected week's |
| `Weeks.PreviousWeekIsPredecessor` | dashboard-component.js:11-12 | in a list without repeated weeks, the week before the k-th week is the (k-1)-th, and the first week has none |
| `Weeks.PreviousOf` | dashboard-component.js:165 | Previous selects the previous week when there is one and otherwise keeps the week; so it selects either the current week or a listed week either the current week or a listed week; a listed week stays listed; it moves only from a listed week other than the first |
| `Weeks.NextOf` | dashboard-component.js:172 | Next selects either the current week or a listed week; a listed week stays listed; with no weeks it never moves |
| `Weeks.PreviousStepsBack` | dashboard-component.js:165-167 | with distinct weeks, Previous moves exactly one position back when the position is above 0, and otherwise does nothing |
| `Weeks.NextStepsForward` | dashboard-component.js:172-174 | with distinct weeks, Next moves exactly one position forward when the position is below the last, and otherwise does nothing |
| `Weeks.NextUndoesPrevious` | dashboard-component.js:165-172 | with distinct weeks, Next after a Previous that moved returns to the starting week |
| `Weeks.PreviousUndoesNext` | dashboard-component.js:165-172 | with distinct weeks, Previous after a Next that moved from a listed week returns to the starting week |
| `Weeks.NextFromUnlistedWeek` | dashboard-component.js:172 | from a week that is not listed (position -1), Next selects the first listed week |
| `WeekChange.Round` | dashboard-component.js:19 | `Math.round`: the result n satisfies n <= x + 1/2 < n + 1 |
| `WeekChange.Abs` | dashboard-component.js:88 | `Math.abs`: a non-negative number equal to n or -n |
| `WeekChange.CalculateChange` | dashboard-component.js:17-20 | Null iff the previous value is absent or 0; NaN iff there is a non-zero previous value but no current value; otherwise the exact percent change (current - previous) / previous * 100, rounded half up |
| `WeekChange.PreviousWeekData` | dashboard-component.js:15 | previous-week data exists iff there is a previous week, its key is non-empty and the summary map holds it; it is then that week's summary |
| `WeekChange.CurrentWeekData` | dashboard-component.js:14 | the selected week's summary when the map holds it, otherwise the empty summary with every field absent |
| `WeekChange.WeekChanges` | dashboard-component.js:22-27 | all four changes are null for an unlisted week, for the first week, and whenever there is no previous-week data (including a listed previous week without a summary); with previous-week data, each card's change compares the current and previous value of its own metric |
| `WeekChange.TrendBadge` | dashboard-component.js:88 | the badge is shown iff the change is a number with 0 < abs < 200; when shown, the arrow is up iff the change is positive and the magnitude is the absolute change |
| `WeekChange.BadgeFollowsGrowth` | dashboard-component.js:123-126 | with a positive previous value, a shown badge points up exactly when the current value exceeds the previous one |
| `WeekChange.NoBadgeWhenUnchanged` | dashboard-component.js:88 | an unchanged metric shows no badge |
| `WeekChange.OutlierGrowthHidden` | dashboard-component.js:88 | growth of 199.5% or more rounds to at least 200 and hides the badge |
| `WeekChange.NoBadgesWithoutPredecessor` | dashboard-component.js:11-27 | no card shows a badge for an unlisted week or for the first week |
| `WeekChange.HoursChangeExample` | dashboard-component.js:17-27 | 100 hours followed by 150 hours gives +50 and an up badge of 50 on Total Hours |
| `Ordering.ConsSorted` | dashboard-component.js:41 | an element whose key is at least the head's key extends a non-increasing sequence to a non-increasing one |
| `Ordering.Insert` | dashboard-component.js:41 | inserting into a non-increasing sequence keeps it non-increasing and adds exactly the one element |
| `Ordering.SortDesc` | dashboard-component.js:41 | the sort result is ordered non-increasing by the key and is a permutation of the input |
| `Ordering.SortDescMembers` | dashboard-component.js:41 | sorting keeps the length, and an element is in the result iff it is in the input |
| `Leaderboard.WeekProviders` | dashboard-component.js:30 | the week's provider entries when the map holds the week, otherwise none |
| `Leaderboard.ProviderRows` | dashboard-component.js:31-40 | one row per provider entry, in entry order, carrying the entry's id and record fields |
| `Leaderboard.EmployeeData` | dashboard-component.js:29-42 | the leaderboard is non-increasing on the sort key and a permutation of the week's provider rows; it is empty for a week without a provider map |
| `Leaderboard.SortKeyOnlyReorders` | dashboard-component.js:29-42 | switching the sort key never changes the multiset of rows, and there is one row per provider entry |
| `Leaderboard.ProviderListed` | dashboard-component.js:30-41 | a provider's row is on the leaderboard iff the provider is listed for the week with that record |
| `Leaderboard.HoursLeaderboardExample` | dashboard-component.js:29-42 | providers A with 40 hours and B with 60 hours, sorted by hours, give the order [B, A] |
| `Leaderboard.Efficiency` | dashboard-component.js:51 | efficiency exists iff the line logged hours, and then efficiency times hours equals tasks |
| `Leaderboard.EfficiencyAsWritten` | dashboard-component.js:51 | the quotient as JavaScript computes it: finite iff hours are non-zero, and then it times hours equals tasks; NaN iff hours and tasks are both 0; otherwise an infinity with the sign of the tasks |
| `Leaderboard.EfficiencyAgrees` | dashboard-component.js:51 | when hours are non-zero, the card's quotient is the finite efficiency |
| `Leaderboard.ZeroHoursShowsInfinity` | dashboard-component.js:51 | a line with 5 tasks and 0 hours gets the quotient Infinity as written, and no efficiency in the corrected model |
| `Leaderboard.WeekUnits` | dashboard-component.js:45 | the week's service-line entries when the map holds the week, otherwise none |
| `Leaderboard.UnitRows` | dashboard-component.js:46-52 | one card per service-line entry, in entry order, with its hours, tasks and efficiency |
| `Leaderboard.UnitData` | dashboard-component.js:44-54 | the service-line cards are non-increasing by hours and a permutation of the week's cards; they are empty for a week without a service-line map |
| `Leaderboard.ServiceLineListed` | dashboard-component.js:45-53 | a service line's card is shown iff the line is listed for the week with that record |
| `Trends.Relabel` | dashboard-component.js:70-74 | same length and order as the stored trend; hours and tasks copied unchanged; each week relabelled |
| `Trends.RelabelIdentity` | dashboard-component.js:70-74 | with week keys shown as they are, the series is the stored trend itself |
| `Trends.AllWeeksTrend` | dashboard-component.js:56-64 | one point per available week, in order; each point has that week's total hours and tasks, absent ones as 0 |
| `Trends.MissingWeekPlottedAtZero` | dashboard-component.js:58-62 | a week with no summary is plotted at 0 hours and 0 tasks |
| `Trends.SelectedTrend` | dashboard-component.js:68-69 | empty when nothing is selected, when the empty key is selected, or when no trend is stored for the key; otherwise the stored trend relabelled |
| `Trends.ProviderTrendData` | dashboard-component.js:67-75 | empty without a selected provider, for the empty key and for a provider with no stored trend; for a selected provider with a stored trend, the same length, with hours and tasks copied in order |
| `Trends.ServiceLineTrendData` | dashboard-component.js:77-85 | empty without a selected service line, for the empty key and for a line with no stored trend; for a selected line with a stored trend, the same length, with hours and tasks copied in order |
| `Selection.Toggle` | dashboard-component.js:260 | clicking the selected item clears the selection; clicking any other item selects it |
| `Selection.ToggleTwice` | dashboard-component.js:260 | two clicks on an item restore the previous selection, except when another item was selected before, which leaves nothing selected |
| `Selection.ToggleProviderShowsTrend` | dashboard-component.js:67-75 | clicking a provider other than the selected one (or with none selected) shows exactly its stored trend; a second click empties the panel |
| `Selection.ToggleServiceLineShowsTrend` | dashboard-component.js:77-85 | clicking a service line other than the selected one (or with none selected) shows exactly its stored trend; a second click empties the panel |
| `Selection.ViewState.constructor` | dashboard-component.js:5-8 | initial state: the literal week, sort by hours, nothing selected |
| `Selection.ViewState.SelectWeek` | dashboard-component.js:154 | the dropdown sets the week and leaves the other three slots unchanged |
| `Selection.ViewState.PreviousWeek` | dashboard-component.js:165 | the week becomes the Previous target; a listed week stays listed; the other slots are unchanged |
| `Selection.ViewState.NextWeek` | dashboard-component.js:172 | the week becomes the Next target; a listed week stays listed; the other slots are unchanged |
| `Selection.ViewState.SetSortBy` | dashboard-component.js:240 | the sort key is replaced; the other slots are unchanged |
| `Selection.ViewState.ToggleProvider` | dashboard-component.js:260 | the provider slot follows the toggle rule; the other slots are unchanged |
| `Selection.ViewState.DismissProvider` | dashboard-component.js:327 | the provider slot is cleared; the other slots are unchanged |
| `Selection.ViewState.ToggleServiceLine` | dashboard-component.js:357 | the service-line slot follows the toggle rule; the other slots are unchanged |
| `Selection.ViewState.DismissServiceLine` | dashboard-component.js:403 | the service-line slot is cleared; the other slots are unchanged |

## Left out

- Rendering is not modelled: the JSX layout, styles, the Recharts chart components and
  `ReactDOM.render`. These are markup and foreign library calls.
- Display formatting is not modelled: `toLocaleDateString` (replaced by the `weekLabel`
  parameter, or by the raw key for the Previous/Next and dropdown values), `toFixed`,
  `toLocaleString`, the `$…k` revenue text, and the one-decimal rendering of efficiency.
- Floating point is not modelled. Numbers are exact reals, so the rounding in
  `calculateChange` is applied to the exact quotient. IEEE rounding of
  `(current - previous) / previous * 100` may differ near a half.
- NaN or infinite values in the input data are not modelled. Every stored number is a real.
- `useMemo` caching and dependency lists are not modelled. Each derivation is a plain
  function of the data and the selection.
- Rank badges (top three rows highlighted) are not modelled. They are positional styling
  after the sort.
- Ordering.SortDesc: the contract states order and permutation but not stability. JavaScript's
  sort is stable, and so is the insertion sort, but which of two equal-key rows comes first
  is not stated.
- Object key order: the model takes the order in which `Object.entries` yields providers and
  service lines as given by the data. It does not model JavaScript's rule that integer-like
  keys come first in ascending order.
- Selection.ViewState.SelectWeek: the dropdown only offers listed weeks, but the model
  accepts any week string, as the handler itself does.

## Findings

| source | as written | input that shows it | evidently intended | confidence | as-written member | corrected member |
|---|---|---|---|---|---|---|
| dashboard-component.js:51 | efficiency is `tasks_completed / total_time` with no guard for zero hours | a service line with 5 tasks and 0 hours shows "Infinity" tasks/hr; 0 tasks and 0 hours shows "NaN" | no efficiency figure when no hours were logged | high, not executed | `Leaderboard.ZeroHoursShowsInfinity` | `Leaderboard.Efficiency` |
