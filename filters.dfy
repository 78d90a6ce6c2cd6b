/** The filter layer: pitch third, page selections and minute bins. */
module Filters {
  import opened Wrappers
  import opened Seqs
  import opened Evaluation
  import opened Players

  /** Python's `str.lower` on ASCII letters. */
  function LowerChar(c: char): char
  {
    if 'A' <= c <= 'Z' then (c as int + 32) as char else c
  }

  function Lower(s: string): (r: string)
    ensures |r| == |s| && forall i :: 0 <= i < |s| ==> r[i] == LowerChar(s[i])
  {
    seq(|s|, i requires 0 <= i < |s| => LowerChar(s[i]))
  }

  /** The column value of a third, e.g. "Attacking" becomes "attacking_third". */
  function ThirdLabel(third: string): string
  {
    Lower(third) + "_third"
  }

  predicate InThird(e: EnrichedEvent, third: string)
  {
    e.event.thirdStart == third || e.event.thirdEnd == third
  }

  /** `third_filter`: "All" passes every row through; any other third keeps the rows that start
      or end in it, in order, and all copies of them. */
  function ThirdFilter(rows: seq<EnrichedEvent>, third: string): (r: seq<EnrichedEvent>)
    ensures third == "All" ==> r == rows
    ensures third != "All" ==> forall e :: e in r <==> e in rows && InThird(e, ThirdLabel(third))
    ensures multiset(r) <= multiset(rows)
  {
    if third == "All" then rows
    else Filter(rows, (e: EnrichedEvent) => InThird(e, ThirdLabel(third)))
  }

  /** No row of the requested third is dropped: every copy of it survives the filter. */
  lemma ThirdFilterKeepsMatches(rows: seq<EnrichedEvent>, third: string, e: EnrichedEvent)
    requires third == "All" || InThird(e, ThirdLabel(third))
    ensures multiset(ThirdFilter(rows, third))[e] == multiset(rows)[e]
  {
    if third != "All" {
      FilterKeepsCopies(rows, (x: EnrichedEvent) => InThird(x, ThirdLabel(third)), e);
    }
  }

  /** Filtering by "All" and then aggregating reproduces the unfiltered player table. */
  lemma ThirdAllRoundTrip(rows: seq<EnrichedEvent>, minutes: map<Events.PlayerId, Minutes>)
    ensures GroupByPlayers(ThirdFilter(rows, "All"), minutes) == GroupByPlayers(rows, minutes)
  {
  }

  /** A selection list imposes no constraint when it holds the sentinel or is empty. */
  predicate Selects(selected: seq<string>, sentinel: string, value: string)
  {
    sentinel in selected || |selected| == 0 || value in selected
  }

  predicate PageKeeps(row: PlayerRow, teams: seq<string>, categories: seq<string>, positions: seq<string>, minPasses: int)
  {
    && Selects(teams, "All Teams", row.agg.teamShortname)
    && Selects(categories, "All", row.agg.positionCategory)
    && Selects(positions, "All", row.agg.playerPosition)
    && row.agg.eventIdCount >= minPasses
  }

  /** One selection step of `page_filter`: keep the rows whose `field` is selected, unless the
      selection holds the sentinel or is empty. */
  function SelectStep(t: seq<PlayerRow>, selected: seq<string>, sentinel: string, field: PlayerRow -> string)
    : seq<PlayerRow>
  {
    if sentinel !in selected && |selected| > 0 then Filter(t, (row: PlayerRow) => field(row) in selected) else t
  }

  /** A selection step is a filter by `Selects`. */
  lemma SelectStepIsFilter(t: seq<PlayerRow>, selected: seq<string>, sentinel: string, field: PlayerRow -> string,
                           keep: PlayerRow -> bool)
    requires forall row :: keep(row) == Selects(selected, sentinel, field(row))
    ensures SelectStep(t, selected, sentinel, field) == Filter(t, keep)
  {
    if sentinel !in selected && |selected| > 0 {
      FilterSame(t, (row: PlayerRow) => field(row) in selected, keep);
    } else {
      FilterAll(t, keep);
    }
  }

  function Team(row: PlayerRow): string { row.agg.teamShortname }
  function Category(row: PlayerRow): string { row.agg.positionCategory }
  function Position(row: PlayerRow): string { row.agg.playerPosition }

  /** `page_filter`: team, category and position selections, then the minimum number of passes. */
  function PageFilter(t: seq<PlayerRow>, teams: seq<string>, categories: seq<string>, positions: seq<string>,
                      minPasses: int): seq<PlayerRow>
  {
    var byTeam := SelectStep(t, teams, "All Teams", Team);
    var byCategory := SelectStep(byTeam, categories, "All", Category);
    var byPosition := SelectStep(byCategory, positions, "All", Position);
    Filter(byPosition, (row: PlayerRow) => row.agg.eventIdCount >= minPasses)
  }

  /** The four steps of `page_filter` are one order-preserving filter by their conjunction. */
  lemma PageFilterIsOneFilter(t: seq<PlayerRow>, teams: seq<string>, categories: seq<string>,
                              positions: seq<string>, minPasses: int)
    ensures PageFilter(t, teams, categories, positions, minPasses) ==
      Filter(t, (row: PlayerRow) => PageKeeps(row, teams, categories, positions, minPasses))
  {
    var team := (row: PlayerRow) => Selects(teams, "All Teams", Team(row));
    var category := (row: PlayerRow) => Selects(categories, "All", Category(row));
    var position := (row: PlayerRow) => Selects(positions, "All", Position(row));
    var floor := (row: PlayerRow) => row.agg.eventIdCount >= minPasses;
    var tc := (row: PlayerRow) => team(row) && category(row);
    var tcp := (row: PlayerRow) => tc(row) && position(row);
    var all := (row: PlayerRow) => PageKeeps(row, teams, categories, positions, minPasses);
    var byTeam := SelectStep(t, teams, "All Teams", Team);
    var byCategory := SelectStep(byTeam, categories, "All", Category);
    var byPosition := SelectStep(byCategory, positions, "All", Position);
    SelectStepIsFilter(t, teams, "All Teams", Team, team);
    SelectStepIsFilter(byTeam, categories, "All", Category, category);
    SelectStepIsFilter(byCategory, positions, "All", Position, position);
    FilterFilter(t, team, category, tc);
    FilterFilter(t, tc, position, tcp);
    FilterFilter(t, tcp, floor, all);
  }

  /** `page_filter` returns a sub-multiset of its input, every row of which has at least
      `minPasses` events and meets each selection; a row of the input that meets them is kept. */
  lemma PageFilterKeeps(t: seq<PlayerRow>, teams: seq<string>, categories: seq<string>,
                        positions: seq<string>, minPasses: int)
    ensures var r := PageFilter(t, teams, categories, positions, minPasses);
      && multiset(r) <= multiset(t)
      && (forall row :: row in r ==> row.agg.eventIdCount >= minPasses)
      && (forall row :: row in r <==> row in t && PageKeeps(row, teams, categories, positions, minPasses))
  {
    PageFilterIsOneFilter(t, teams, categories, positions, minPasses);
  }

  /** With the sentinels (or empty selections) only the minimum-passes floor applies. */
  lemma PageFilterSentinels(t: seq<PlayerRow>, teams: seq<string>, categories: seq<string>,
                            positions: seq<string>, minPasses: int)
    requires "All Teams" in teams || |teams| == 0
    requires "All" in categories || |categories| == 0
    requires "All" in positions || |positions| == 0
    ensures PageFilter(t, teams, categories, positions, minPasses) ==
      Filter(t, (row: PlayerRow) => row.agg.eventIdCount >= minPasses)
  {
    PageFilterIsOneFilter(t, teams, categories, positions, minPasses);
    FilterSame(t, (row: PlayerRow) => PageKeeps(row, teams, categories, positions, minPasses),
      (row: PlayerRow) => row.agg.eventIdCount >= minPasses);
  }

  /** The bin edges and labels `time_bins` passes to `pd.cut`. */
  const TimeEdges: seq<int> := [0, 15, 30, 45, 60, 75, 120]
  const TimeLabels: seq<string> := ["0-15", "15-30", "30-45", "45-60", "60-75", "75-90+"]

  predicate Increasing(edges: seq<int>)
  {
    forall i, j :: 0 <= i < j < |edges| ==> edges[i] < edges[j]
  }

  /** Bin `k` of `pd.cut(..., include_lowest=True)`: the interval (edges[k], edges[k+1]],
      closed on the left as well for the first bin. */
  predicate InBin(edges: seq<int>, k: nat, x: int)
    requires k + 1 < |edges|
  {
    (if k == 0 then edges[0] <= x else edges[k] < x) && x <= edges[k + 1]
  }

  /** The first bin at or after `i` that holds `x`. */
  function BinFrom(edges: seq<int>, x: int, i: nat): (r: Option<nat>)
    ensures r.Some? ==> i <= r.value && r.value + 1 < |edges| && InBin(edges, r.value, x)
    ensures r.None? ==> forall k: nat :: i <= k && k + 1 < |edges| ==> !InBin(edges, k, x)
    decreases |edges| - i
  {
    if i + 1 >= |edges| then None
    else if InBin(edges, i, x) then Some(i)
    else BinFrom(edges, x, i + 1)
  }

  /** The bin `pd.cut` assigns to `x`, or None when `x` falls outside the edges. */
  function BinIndex(edges: seq<int>, x: int): Option<nat>
  {
    BinFrom(edges, x, 0)
  }

  /** With increasing edges a value lies in at most one bin. */
  lemma InBinUnique(edges: seq<int>, j: nat, k: nat, x: int)
    requires Increasing(edges) && j + 1 < |edges| && k + 1 < |edges|
    requires InBin(edges, j, x) && InBin(edges, k, x)
    ensures j == k
  {
  }

  /** `BinIndex` finds exactly the bin holding `x`, and finds none exactly when `x` lies
      below the first edge or above the last. */
  lemma BinIndexExactly(edges: seq<int>, x: int, k: nat)
    requires Increasing(edges) && k + 1 < |edges|
    ensures BinIndex(edges, x) == Some(k) <==> InBin(edges, k, x)
    ensures BinIndex(edges, x).None? <==> x < edges[0] || x > edges[|edges| - 1]
  {
    var r := BinIndex(edges, x);
    if r.Some? && InBin(edges, k, x) {
      InBinUnique(edges, r.value, k, x);
    }
    if edges[0] <= x <= edges[|edges| - 1] {
      var n := |edges| - 1;
      // the last bin whose left edge is below `x`, or the first bin
      var m: nat := 0;
      while m + 1 < n && edges[m + 1] < x
        invariant m + 1 <= n
        invariant m == 0 || edges[m] < x
      {
        m := m + 1;
      }
      assert InBin(edges, m, x);
    }
  }

  /** `time_bins` applied to one minute. */
  function TimeBin(minute: int): Option<string>
  {
    match BinIndex(TimeEdges, minute)
    case None => None
    case Some(k) => if k < |TimeLabels| then Some(TimeLabels[k]) else None
  }

  /** Minutes 0 to 15 fall in the first bin, each later bin holds the minutes after its left
      edge up to its right edge, and minutes outside 0 to 120 get no bin. */
  lemma TimeBinIntervals(minute: int)
    ensures TimeBin(minute) == Some("0-15") <==> 0 <= minute <= 15
    ensures TimeBin(minute) == Some("15-30") <==> 15 < minute <= 30
    ensures TimeBin(minute) == Some("30-45") <==> 30 < minute <= 45
    ensures TimeBin(minute) == Some("45-60") <==> 45 < minute <= 60
    ensures TimeBin(minute) == Some("60-75") <==> 60 < minute <= 75
    ensures TimeBin(minute) == Some("75-90+") <==> 75 < minute <= 120
    ensures TimeBin(minute).None? <==> minute < 0 || minute > 120
  {
    assert Increasing(TimeEdges);
    forall k: nat | k < |TimeLabels|
      ensures TimeBin(minute) == Some(TimeLabels[k]) <==> InBin(TimeEdges, k, minute)
    {
      BinIndexExactly(TimeEdges, minute, k);
      var r := BinIndex(TimeEdges, minute);
      if TimeBin(minute) == Some(TimeLabels[k]) {
        assert r.Some? && TimeLabels[r.value] == TimeLabels[k];
        assert r.value == k;
      }
    }
    BinIndexExactly(TimeEdges, minute, 0);
    assert TimeLabels[0] == "0-15" && TimeLabels[1] == "15-30" && TimeLabels[2] == "30-45";
    assert TimeLabels[3] == "45-60" && TimeLabels[4] == "60-75" && TimeLabels[5] == "75-90+";
  }

  /** A row of `time_bins`' result: the possession row and its `time_bin` column. */
  datatype BinnedEvent = BinnedEvent(row: EnrichedEvent, timeBin: Option<string>)

  /** `time_bins`: a copy of the rows, each with the bin of its `minute_start`. */
  function TimeBins(rows: seq<EnrichedEvent>): (r: seq<BinnedEvent>)
    ensures |r| == |rows|
    ensures forall i :: 0 <= i < |r| ==> r[i].row == rows[i]
    ensures forall i :: 0 <= i < |r| ==> r[i].timeBin == TimeBin(rows[i].event.minuteStart)
  {
    seq(|rows|, i requires 0 <= i < |rows| => BinnedEvent(rows[i], TimeBin(rows[i].event.minuteStart)))
  }

  /** Each row of `time_bins` carries the label of the interval holding its minute: "0-15" for
      minutes 0 to 15, each later label for (left edge, right edge], "75-90+" for (75, 120],
      and no label outside 0 to 120. */
  lemma TimeBinsLabels(rows: seq<EnrichedEvent>, i: int)
    requires 0 <= i < |rows|
    ensures var bin, minute := TimeBins(rows)[i].timeBin, rows[i].event.minuteStart;
      && (bin == Some("0-15") <==> 0 <= minute <= 15)
      && (bin == Some("15-30") <==> 15 < minute <= 30)
      && (bin == Some("30-45") <==> 30 < minute <= 45)
      && (bin == Some("45-60") <==> 45 < minute <= 60)
      && (bin == Some("60-75") <==> 60 < minute <= 75)
      && (bin == Some("75-90+") <==> 75 < minute <= 120)
      && (bin.None? <==> minute < 0 || minute > 120)
  {
    TimeBinIntervals(rows[i].event.minuteStart);
  }

  /** Every row whose minute lies in 0 to 120 gets one of the six labels. */
  lemma TimeBinsDefined(rows: seq<EnrichedEvent>, i: int)
    requires 0 <= i < |rows| && 0 <= rows[i].event.minuteStart <= 120
    ensures TimeBins(rows)[i].timeBin.Some?
    ensures TimeBins(rows)[i].timeBin.value in TimeLabels
  {
    TimeBinsLabels(rows, i);
  }
}
