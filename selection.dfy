/** The dashboard's four selection slots and the event handlers that update them. */
module Selection {
  import opened DashboardData
  import opened Weeks
  import opened Leaderboard
  import opened Trends

  /** The week selected when the dashboard first renders; it need not be listed in
      `available_weeks`. */
  const InitialWeek := "2026-01-05"

  /** Clicking a leaderboard row or a service-line card: clicking the selected item
      deselects it, clicking any other item selects that one. */
  function Toggle(current: Option<string>, clicked: string): (r: Option<string>)
    ensures r == None <==> current == Some(clicked)
    ensures r != None ==> r == Some(clicked)
  {
    if current == Some(clicked) then None else Some(clicked)
  }

  /** Two clicks on the same item restore the previous selection, unless a different
      item was selected before: then the two clicks leave nothing selected. */
  lemma ToggleTwice(current: Option<string>, clicked: string)
    ensures Toggle(Toggle(current, clicked), clicked)
         == if current.Some? && current.value != clicked then None else current
  {
  }

  /** Clicking a provider other than the selected one shows exactly its stored trend;
      clicking it again clears the panel. */
  lemma ToggleProviderShowsTrend(d: Data, current: Option<string>, id: string, weekLabel: string -> string)
    requires id != "" && id in d.employeeTrends && current != Some(id)
    ensures ProviderTrendData(d, Toggle(current, id), weekLabel) == Relabel(d.employeeTrends[id], weekLabel)
    ensures ProviderTrendData(d, Toggle(Toggle(current, id), id), weekLabel) == []
  {
  }

  /** Clicking a service line other than the selected one shows exactly its stored
      trend; clicking it again clears the panel. */
  lemma ToggleServiceLineShowsTrend(d: Data, current: Option<string>, name: string, weekLabel: string -> string)
    requires name != "" && name in d.unitTrends && current != Some(name)
    ensures ServiceLineTrendData(d, Toggle(current, name), weekLabel) == Relabel(d.unitTrends[name], weekLabel)
    ensures ServiceLineTrendData(d, Toggle(Toggle(current, name), name), weekLabel) == []
  {
  }

  /** The four `useState` slots. Every handler changes one slot and leaves the other
      three as they were. */
  class ViewState {
    var selectedWeek: string
    var sortBy: SortKey
    var selectedProvider: Option<string>
    var selectedServiceLine: Option<string>

    constructor ()
      ensures selectedWeek == InitialWeek && sortBy == TotalHours
      ensures selectedProvider == None && selectedServiceLine == None
    {
      selectedWeek := InitialWeek;
      sortBy := TotalHours;
      selectedProvider := None;
      selectedServiceLine := None;
    }

    /** The week dropdown's `onChange`. */
    method SelectWeek(week: string)
      modifies this
      ensures selectedWeek == week
      ensures sortBy == old(sortBy) && selectedProvider == old(selectedProvider)
      ensures selectedServiceLine == old(selectedServiceLine)
    {
      selectedWeek := week;
    }

    /** The Previous button: moves back one week only from a listed week after the first. */
    method PreviousWeek(weeks: seq<string>)
      modifies this
      ensures selectedWeek == PreviousOf(weeks, old(selectedWeek))
      ensures old(selectedWeek) in weeks ==> selectedWeek in weeks
      ensures sortBy == old(sortBy) && selectedProvider == old(selectedProvider)
      ensures selectedServiceLine == old(selectedServiceLine)
    {
      var index := IndexOf(weeks, selectedWeek);
      if index > 0 {
        selectedWeek := weeks[index - 1];
      }
    }

    /** The Next button: moves forward one week while the position is before the last. */
    method NextWeek(weeks: seq<string>)
      modifies this
      ensures selectedWeek == NextOf(weeks, old(selectedWeek))
      ensures old(selectedWeek) in weeks ==> selectedWeek in weeks
      ensures sortBy == old(sortBy) && selectedProvider == old(selectedProvider)
      ensures selectedServiceLine == old(selectedServiceLine)
    {
      var index := IndexOf(weeks, selectedWeek);
      if index < |weeks| - 1 {
        selectedWeek := weeks[index + 1];
      }
    }

    /** A sort button. */
    method SetSortBy(key: SortKey)
      modifies this
      ensures sortBy == key
      ensures selectedWeek == old(selectedWeek) && selectedProvider == old(selectedProvider)
      ensures selectedServiceLine == old(selectedServiceLine)
    {
      sortBy := key;
    }

    /** A click on a leaderboard row. */
    method ToggleProvider(id: string)
      modifies this
      ensures selectedProvider == Toggle(old(selectedProvider), id)
      ensures selectedWeek == old(selectedWeek) && sortBy == old(sortBy)
      ensures selectedServiceLine == old(selectedServiceLine)
    {
      if selectedProvider == Some(id) {
        selectedProvider := None;
      } else {
        selectedProvider := Some(id);
      }
    }

    /** The dismiss button of the provider trend panel. */
    method DismissProvider()
      modifies this
      ensures selectedProvider == None
      ensures selectedWeek == old(selectedWeek) && sortBy == old(sortBy)
      ensures selectedServiceLine == old(selectedServiceLine)
    {
      selectedProvider := None;
    }

    /** A click on a service-line card. */
    method ToggleServiceLine(name: string)
      modifies this
      ensures selectedServiceLine == Toggle(old(selectedServiceLine), name)
      ensures selectedWeek == old(selectedWeek) && sortBy == old(sortBy)
      ensures selectedProvider == old(selectedProvider)
    {
      if selectedServiceLine == Some(name) {
        selectedServiceLine := None;
      } else {
        selectedServiceLine := Some(name);
      }
    }

    /** The dismiss button of the service-line trend panel. */
    method DismissServiceLine()
      modifies this
      ensures selectedServiceLine == None
      ensures selectedWeek == old(selectedWeek) && sortBy == old(sortBy)
      ensures selectedProvider == old(selectedProvider)
    {
      selectedServiceLine := None;
    }
  }
}
