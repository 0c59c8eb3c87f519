/** Positions in `available_weeks` and the Previous/Next navigation over them. */
module Weeks {
  import opened DashboardData

  /** `Array.prototype.indexOf`: the first position of `x` in `s`, or -1. */
  function IndexOf(s: seq<string>, x: string): (i: int)
    ensures -1 <= i < |s|
    ensures i == -1 <==> x !in s
    ensures 0 <= i ==> s[i] == x && x !in s[..i]
  {
    if |s| == 0 then -1
    else if s[0] == x then 0
    else
      var j := IndexOf(s[1..], x);
      assert j >= 0 ==> s[..j + 1] == [s[0]] + s[1..][..j];
      if j == -1 then -1 else j + 1
  }

  /** No week is listed twice. */
  predicate Distinct(s: seq<string>) {
    forall i, j :: 0 <= i < j < |s| ==> s[i] != s[j]
  }

  /** `previousWeek`: the week listed just before the selected one, present only when
      the selected week is listed at a position above 0. */
  function PreviousWeek(weeks: seq<string>, selected: string): (p: Option<string>)
    ensures p.Some? <==> selected in weeks && selected != weeks[0]
    ensures p.Some? ==> p.value in weeks && p.value == weeks[IndexOf(weeks, selected) - 1]
  {
    var i := IndexOf(weeks, selected);
    if i > 0 then Some(weeks[i - 1]) else None
  }

  /** In a list without repetitions, the week before the k-th week is the (k-1)-th, and
      the first week has none. */
  lemma PreviousWeekIsPredecessor(weeks: seq<string>, k: int)
    requires Distinct(weeks) && 0 <= k < |weeks|
    ensures PreviousWeek(weeks, weeks[k]) == if k > 0 then Some(weeks[k - 1]) else None
  {
    IndexOfDistinct(weeks, k);
  }

  /** The week the Previous button selects: the previous week when there is one,
      otherwise the current week unchanged. */
  function PreviousOf(weeks: seq<string>, w: string): (r: string)
    ensures r == w || r in weeks
    ensures w in weeks ==> r in weeks
    ensures r != w ==> w in weeks && w != weeks[0]
  {
    PreviousWeek(weeks, w).GetOr(w)
  }

  /** The week the Next button selects: one step forward when the current position is
      before the last. An unlisted week has position -1, so it moves to the first week. */
  function NextOf(weeks: seq<string>, w: string): (r: string)
    ensures r == w || r in weeks
    ensures w in weeks ==> r in weeks
    ensures |weeks| == 0 ==> r == w
  {
    var i := IndexOf(weeks, w);
    if i < |weeks| - 1 then weeks[i + 1] else w
  }

  /** In a list without repetitions the position of the k-th week is k. */
  lemma IndexOfDistinct(weeks: seq<string>, k: int)
    requires Distinct(weeks) && 0 <= k < |weeks|
    ensures IndexOf(weeks, weeks[k]) == k
  {
  }

  /** Previous moves exactly one position back, and only when there is a position back. */
  lemma PreviousStepsBack(weeks: seq<string>, w: string)
    requires Distinct(weeks)
    ensures var i := IndexOf(weeks, w);
      if i > 0 then IndexOf(weeks, PreviousOf(weeks, w)) == i - 1
      else PreviousOf(weeks, w) == w
  {
  }

  /** Next moves exactly one position forward, and only when there is a position forward. */
  lemma NextStepsForward(weeks: seq<string>, w: string)
    requires Distinct(weeks)
    ensures var i := IndexOf(weeks, w);
      if i < |weeks| - 1 then IndexOf(weeks, NextOf(weeks, w)) == i + 1
      else NextOf(weeks, w) == w
  {
  }

  /** Next undoes Previous whenever Previous moved. */
  lemma NextUndoesPrevious(weeks: seq<string>, w: string)
    requires Distinct(weeks) && w in weeks && w != weeks[0]
    ensures NextOf(weeks, PreviousOf(weeks, w)) == w
  {
  }

  /** Previous undoes Next whenever Next moved from a listed week. */
  lemma PreviousUndoesNext(weeks: seq<string>, w: string)
    requires Distinct(weeks) && w in weeks && w != weeks[|weeks| - 1]
    ensures PreviousOf(weeks, NextOf(weeks, w)) == w
  {
  }

  /** From a week that is not listed, Next selects the first listed week. */
  lemma NextFromUnlistedWeek(weeks: seq<string>, w: string)
    requires w !in weeks && |weeks| > 0
    ensures NextOf(weeks, w) == weeks[0]
  {
  }
}
