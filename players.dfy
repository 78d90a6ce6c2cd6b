/** The player aggregator: `group_by_players` over the enriched possessions and the minutes table. */
module Players {
  import opened Wrappers
  import opened Seqs
  import opened Events
  import opened Comparator
  import opened Evaluation

  /** One row of the minutes table: a player's summed playing time. */
  datatype Minutes = Minutes(shortName: string, minutesPlayed: real, minutesTip: real)

  /** The per-player aggregates, before the join with the minutes table. */
  datatype PlayerAggregate = PlayerAggregate(
    playerId: PlayerId,
    safestPassPerc: real, safestPassSum: int,
    highestXthreatPassPerc: real, highestXthreatPassSum: int,
    hasGoodPassOpportunitiesPerc: real, hasGoodPassOpportunitiesSum: int,
    goodPassOpportunityPerc: real, goodPassOpportunitySum: int,
    missedGoodPassOpportunityPerc: real, missedGoodPassOpportunitySum: int,
    completedPerc: real, completedSum: int,
    completedSafestPassPerc: real, completedSafestPassSum: int,
    completedHighestXthreatPassPerc: real, completedHighestXthreatPassSum: int,
    completedGoodPassOpportunityPerc: real, completedGoodPassOpportunitySum: int,
    playerTargetedXthreatSum: real, playerTargetedXthreatMean: real,
    xthreatAvailableSum: real, xthreatAvailableMean: real,
    missedXthreatSum: real, missedXthreatMean: real,
    decisionEfficiencyMean: Option<real>,
    eventIdCount: int,
    playerPosition: string,
    positionCategory: string,
    teamShortname: string)

  /** A row of the table `group_by_players` returns: the aggregates, the joined minutes row and the
      per-90 figures, each undefined (None) where the source divides by zero. */
  datatype PlayerRow = PlayerRow(
    agg: PlayerAggregate,
    minutes: Minutes,
    playerTargetedXthreatP90: Option<real>,
    xthreatAvailableP90: Option<real>,
    missedXthreatP90: Option<real>,
    decisionEfficiencyP90: Option<real>)

  /** The `completed` column: 1 for a successful pass. */
  function Completed(e: EnrichedEvent): int
  {
    Flag(e.event.passOutcome == "successful")
  }

  /** `completed & flag` on 0/1 columns. */
  function BothSet(a: int, b: int): int
  {
    Flag(a == 1 && b == 1)
  }

  /** The entries of `col` on the rows where `cond` is 1, in row order. */
  function Where(col: seq<int>, cond: seq<int>): (r: seq<int>)
    requires |col| == |cond|
    ensures |r| <= |col|
    ensures |r| == 0 <==> forall i :: 0 <= i < |cond| ==> cond[i] != 1
    ensures forall k :: 0 <= k < |r| ==> exists i :: 0 <= i < |col| && cond[i] == 1 && r[k] == col[i]
    decreases |col|
  {
    if |col| == 0 then []
    else (if cond[0] == 1 then [col[0]] else []) + Where(col[1..], cond[1..])
  }

  /** `col` with the entries on rows whose `cond` is not 1 replaced by 0. */
  function Masked(col: seq<int>, cond: seq<int>): (r: seq<int>)
    requires |col| == |cond|
    ensures |r| == |col|
  {
    seq(|col|, i requires 0 <= i < |col| => if cond[i] == 1 then col[i] else 0)
  }

  /** Every row whose condition is 1 contributes its entry to the subset. */
  lemma {:induction false} WhereMembers(col: seq<int>, cond: seq<int>)
    requires |col| == |cond|
    ensures forall i :: 0 <= i < |col| && cond[i] == 1 ==> col[i] in Where(col, cond)
    decreases |col|
  {
    if |col| > 0 {
      WhereMembers(col[1..], cond[1..]);
      var rest := Where(col[1..], cond[1..]);
      assert Where(col, cond) == (if cond[0] == 1 then [col[0]] else []) + rest;
      forall i | 0 <= i < |col| && cond[i] == 1
        ensures col[i] in Where(col, cond)
      {
        if i > 0 {
          assert col[1..][i - 1] == col[i] && cond[1..][i - 1] == cond[i];
        }
      }
    }
  }

  /** The subset's sum is the column's sum with the rows outside the condition counted as 0. */
  lemma {:induction false} WhereSum(col: seq<int>, cond: seq<int>)
    requires |col| == |cond|
    ensures SumInt(Where(col, cond)) == SumInt(Masked(col, cond))
    decreases |col|
  {
    if |col| > 0 {
      WhereSum(col[1..], cond[1..]);
      var rest := Where(col[1..], cond[1..]);
      var m := Masked(col, cond);
      assert m[1..] == Masked(col[1..], cond[1..]);
      assert SumInt(m) == m[0] + SumInt(m[1..]);
      if cond[0] == 1 {
        assert Where(col, cond) == [col[0]] + rest;
        assert ([col[0]] + rest)[1..] == rest;
      } else {
        assert Where(col, cond) == rest;
      }
    }
  }

  /** `sum / len * 100` of a 0/1 column over all rows of a group. */
  function Rate(col: seq<int>): real
    requires |col| > 0
  {
    Percent(SumInt(col) as real, |col| as real)
  }

  /** The completion rate of `col` restricted to the rows where `cond` is 1, 0 when there are none. */
  function SubsetRate(col: seq<int>, cond: seq<int>): real
    requires |col| == |cond|
  {
    var sub := Where(col, cond);
    if |sub| > 0 then Percent(SumInt(sub) as real, |sub| as real) else 0.0
  }

  /** The aggregates of one player's (non-empty) group of rows. */
  function Aggregate(id: PlayerId, g: seq<EnrichedEvent>): PlayerAggregate
    requires |g| > 0
  {
    var safest := Column(g, (e: EnrichedEvent) => e.metrics.safestPass);
    var highest := Column(g, (e: EnrichedEvent) => e.metrics.highestXthreatPass);
    var hasGood := Column(g, (e: EnrichedEvent) => e.metrics.hasGoodPassOpportunities);
    var good := Column(g, (e: EnrichedEvent) => e.metrics.goodPassOpportunity);
    var missed := Column(g, (e: EnrichedEvent) => e.metrics.missedGoodPassOpportunity);
    var completed := Column(g, Completed);
    var cSafest := Column(g, (e: EnrichedEvent) => BothSet(Completed(e), e.metrics.safestPass));
    var cHighest := Column(g, (e: EnrichedEvent) => BothSet(Completed(e), e.metrics.highestXthreatPass));
    var cGood := Column(g, (e: EnrichedEvent) => BothSet(Completed(e), e.metrics.goodPassOpportunity));
    var targeted := Column(g, (e: EnrichedEvent) => e.targetedXthreat);
    var available := Column(g, (e: EnrichedEvent) => e.metrics.xthreatAvailable);
    var missedX := Column(g, (e: EnrichedEvent) => e.metrics.missedXthreat);
    PlayerAggregate(
      playerId := id,
      safestPassPerc := Rate(safest), safestPassSum := SumInt(safest),
      highestXthreatPassPerc := Rate(highest), highestXthreatPassSum := SumInt(highest),
      hasGoodPassOpportunitiesPerc := Rate(hasGood), hasGoodPassOpportunitiesSum := SumInt(hasGood),
      goodPassOpportunityPerc := SubsetRate(good, hasGood), goodPassOpportunitySum := SumInt(Where(good, hasGood)),
      missedGoodPassOpportunityPerc := SubsetRate(missed, hasGood),
      missedGoodPassOpportunitySum := SumInt(Where(missed, hasGood)),
      completedPerc := Rate(completed), completedSum := SumInt(completed),
      completedSafestPassPerc := SubsetRate(cSafest, safest),
      completedSafestPassSum := SumInt(Where(cSafest, safest)),
      completedHighestXthreatPassPerc := SubsetRate(cHighest, highest),
      completedHighestXthreatPassSum := SumInt(Where(cHighest, highest)),
      completedGoodPassOpportunityPerc := SubsetRate(cGood, good),
      completedGoodPassOpportunitySum := SumInt(Where(cGood, good)),
      playerTargetedXthreatSum := Sum(targeted), playerTargetedXthreatMean := Mean(targeted).value,
      xthreatAvailableSum := Sum(available), xthreatAvailableMean := Mean(available).value,
      missedXthreatSum := Sum(missedX), missedXthreatMean := Mean(missedX).value,
      decisionEfficiencyMean := Mean(Defined(Column(g, (e: EnrichedEvent) => e.decisionEfficiency))),
      eventIdCount := |g|,
      playerPosition := g[0].event.playerPosition,
      positionCategory := g[0].event.positionCategory,
      teamShortname := g[0].event.teamShortname)
  }

  /** `sum * 90 / minutes_played`, undefined for zero minutes. */
  function P90(sum: real, minutesPlayed: real): Option<real>
  {
    if minutesPlayed == 0.0 then None else Some(sum * 90.0 / minutesPlayed)
  }

  /** `created_p90 / available_p90 * 100`, undefined when either is undefined or the divisor is 0. */
  function RatioP90(created: Option<real>, available: Option<real>): Option<real>
  {
    if created.Some? && available.Some? && available.value != 0.0
    then Some(Percent(created.value, available.value))
    else None
  }

  /** One row of the joined table. */
  function JoinRow(a: PlayerAggregate, m: Minutes): PlayerRow
  {
    var created := P90(a.playerTargetedXthreatSum, m.minutesPlayed);
    var available := P90(a.xthreatAvailableSum, m.minutesPlayed);
    PlayerRow(a, m, created, available, P90(a.missedXthreatSum, m.minutesPlayed), RatioP90(created, available))
  }

  /** The rows of one player, in their original order. */
  function RowsOf(rows: seq<EnrichedEvent>, id: PlayerId): seq<EnrichedEvent>
  {
    Filter(rows, (e: EnrichedEvent) => e.event.playerId == id)
  }

  predicate StrictlyIncreasing(s: seq<PlayerId>)
  {
    forall i, j :: 0 <= i < j < |s| ==> s[i] < s[j]
  }

  /** `x` inserted into a strictly increasing sequence, unless already present. */
  function Insert(x: PlayerId, s: seq<PlayerId>): (r: seq<PlayerId>)
    requires StrictlyIncreasing(s)
    ensures StrictlyIncreasing(r)
    ensures forall y :: y in r <==> y == x || y in s
    decreases |s|
  {
    if |s| == 0 then [x]
    else if x < s[0] then [x] + s
    else if x == s[0] then s
    else
      var rest := Insert(x, s[1..]);
      assert s == [s[0]] + s[1..];
      assert forall y :: y in s <==> y == s[0] || y in s[1..];
      assert forall j :: 0 <= j < |rest| ==> s[0] < rest[j] by {
        forall j | 0 <= j < |rest|
          ensures s[0] < rest[j]
        {
          assert rest[j] in rest;
        }
      }
      [s[0]] + rest
  }

  /** The distinct player ids of the rows, ascending: the group keys of `groupby('player_id')`. */
  function PlayerIds(rows: seq<EnrichedEvent>): (r: seq<PlayerId>)
    ensures StrictlyIncreasing(r)
    ensures forall id :: id in r <==> exists i :: 0 <= i < |rows| && rows[i].event.playerId == id
    decreases |rows|
  {
    if |rows| == 0 then []
    else
      var rest := PlayerIds(rows[1..]);
      assert forall i :: 1 <= i < |rows| ==> rows[i] == rows[1..][i - 1];
      Insert(rows[0].event.playerId, rest)
  }

  predicate HasEvents(rows: seq<EnrichedEvent>, id: PlayerId)
  {
    exists k :: 0 <= k < |rows| && rows[k].event.playerId == id
  }

  /** The joined row of a player who has events, with that player's minutes row `m`. */
  function PlayerRowOf(rows: seq<EnrichedEvent>, id: PlayerId, m: Minutes): (r: PlayerRow)
    requires HasEvents(rows, id)
    ensures |RowsOf(rows, id)| > 0
    ensures r.agg.playerId == id && r.minutes == m && r.agg.eventIdCount == |RowsOf(rows, id)|
  {
    var k :| 0 <= k < |rows| && rows[k].event.playerId == id;
    assert rows[k] in RowsOf(rows, id);
    JoinRow(Aggregate(id, RowsOf(rows, id)), m)
  }

  /** The group keys that also have a minutes entry, ascending: the keys of the inner join. */
  function JoinedIds(rows: seq<EnrichedEvent>, minutes: map<PlayerId, Minutes>): (r: seq<PlayerId>)
    ensures forall id :: id in r <==> HasEvents(rows, id) && id in minutes
  {
    Filter(PlayerIds(rows), (id: PlayerId) => id in minutes)
  }

  /** `group_by_players`: one row per player id present in both the rows and the minutes table. */
  function GroupByPlayers(rows: seq<EnrichedEvent>, minutes: map<PlayerId, Minutes>): seq<PlayerRow>
  {
    var ids := JoinedIds(rows, minutes);
    seq(|ids|, j requires 0 <= j < |ids| => assert ids[j] in ids; PlayerRowOf(rows, ids[j], minutes[ids[j]]))
  }

  predicate ZeroOne(col: seq<int>)
  {
    forall i :: 0 <= i < |col| ==> col[i] == 0 || col[i] == 1
  }

  /** A plain rate of a 0/1 column is a percentage: it lies in [0, 100]. */
  lemma RateBounds(col: seq<int>)
    requires |col| > 0 && ZeroOne(col)
    ensures 0.0 <= Rate(col) <= 100.0
  {
    SumIntBounds(col, 0, 1);
    PercentBounds(SumInt(col) as real, |col| as real);
  }

  /** A subset rate is 0 when no row meets the condition, otherwise the percentage of the
      column's sum within the subset; for a 0/1 column it lies in [0, 100]. */
  lemma SubsetRateBounds(col: seq<int>, cond: seq<int>)
    requires |col| == |cond| && ZeroOne(col)
    ensures (forall i :: 0 <= i < |cond| ==> cond[i] != 1) ==> SubsetRate(col, cond) == 0.0
    ensures (exists i :: 0 <= i < |cond| && cond[i] == 1) ==>
      SubsetRate(col, cond) == Percent(SumInt(Where(col, cond)) as real, |Where(col, cond)| as real)
    ensures 0.0 <= SubsetRate(col, cond) <= 100.0
  {
    var sub := Where(col, cond);
    if |sub| > 0 {
      assert ZeroOne(sub) by {
        forall k | 0 <= k < |sub| ensures sub[k] == 0 || sub[k] == 1 {
          var i :| 0 <= i < |col| && cond[i] == 1 && sub[k] == col[i];
        }
      }
      SumIntBounds(sub, 0, 1);
      PercentBounds(SumInt(sub) as real, |sub| as real);
    }
  }

  /** On a 0/1 condition the subset has one entry per row whose condition is 1. */
  lemma {:induction false} WhereLength(col: seq<int>, cond: seq<int>)
    requires |col| == |cond| && ZeroOne(cond)
    ensures |Where(col, cond)| == SumInt(cond)
    decreases |col|
  {
    if |col| > 0 {
      WhereLength(col[1..], cond[1..]);
    }
  }

  /** Two columns that add up to 1 on every row of the subset have subset sums adding up to the
      subset's size. */
  lemma {:induction false} WhereComplement(a: seq<int>, b: seq<int>, cond: seq<int>)
    requires |a| == |b| == |cond|
    requires forall i :: 0 <= i < |cond| && cond[i] == 1 ==> a[i] + b[i] == 1
    ensures |Where(a, cond)| == |Where(b, cond)|
    ensures SumInt(Where(a, cond)) + SumInt(Where(b, cond)) == |Where(a, cond)|
    decreases |a|
  {
    if |a| > 0 {
      WhereComplement(a[1..], b[1..], cond[1..]);
      var ra, rb := Where(a[1..], cond[1..]), Where(b[1..], cond[1..]);
      if cond[0] == 1 {
        assert Where(a, cond) == [a[0]] + ra;
        assert Where(b, cond) == [b[0]] + rb;
        assert ([a[0]] + ra)[1..] == ra;
        assert ([b[0]] + rb)[1..] == rb;
      } else {
        assert Where(a, cond) == ra;
        assert Where(b, cond) == rb;
      }
    }
  }

  lemma PercentAdd(x: real, y: real, n: real)
    requires n > 0.0 && x + y == n
    ensures Percent(x, n) + Percent(y, n) == 100.0
  {
    assert x / n + y / n == (x + y) / n;
  }

  /** Every rate of an aggregate row is a percentage and the counts are bounded by the events. */
  predicate RatesInRange(a: PlayerAggregate)
  {
    && 0.0 <= a.safestPassPerc <= 100.0
    && 0.0 <= a.highestXthreatPassPerc <= 100.0
    && 0.0 <= a.hasGoodPassOpportunitiesPerc <= 100.0
    && 0.0 <= a.goodPassOpportunityPerc <= 100.0
    && 0.0 <= a.missedGoodPassOpportunityPerc <= 100.0
    && 0.0 <= a.completedPerc <= 100.0
    && 0.0 <= a.completedSafestPassPerc <= 100.0
    && 0.0 <= a.completedHighestXthreatPassPerc <= 100.0
    && 0.0 <= a.completedGoodPassOpportunityPerc <= 100.0
    && 0 <= a.safestPassSum <= a.eventIdCount
    && 0 <= a.completedSum <= a.eventIdCount
    && a.eventIdCount >= 1
  }

  /** Every count lies between 0 and the count of the rows it is taken over: the plain counts
      within the events, the subset counts within their condition's count. */
  predicate CountsInRange(a: PlayerAggregate)
  {
    && 0 <= a.safestPassSum <= a.eventIdCount
    && 0 <= a.highestXthreatPassSum <= a.eventIdCount
    && 0 <= a.hasGoodPassOpportunitiesSum <= a.eventIdCount
    && 0 <= a.completedSum <= a.eventIdCount
    && 0 <= a.goodPassOpportunitySum <= a.hasGoodPassOpportunitiesSum
    && 0 <= a.missedGoodPassOpportunitySum <= a.hasGoodPassOpportunitiesSum
    && 0 <= a.completedSafestPassSum <= a.safestPassSum
    && 0 <= a.completedHighestXthreatPassSum <= a.highestXthreatPassSum
    && 0 <= a.completedGoodPassOpportunitySum <= a.eventIdCount
  }

  /** The good and the missed-good counts split the events that had a good option. */
  predicate OpportunitySplit(a: PlayerAggregate)
  {
    && a.goodPassOpportunitySum + a.missedGoodPassOpportunitySum == a.hasGoodPassOpportunitiesSum
    && (a.hasGoodPassOpportunitiesSum > 0 ==>
          a.goodPassOpportunityPerc + a.missedGoodPassOpportunityPerc == 100.0)
    && (a.hasGoodPassOpportunitiesSum == 0 ==>
          a.goodPassOpportunityPerc == 0.0 && a.missedGoodPassOpportunityPerc == 0.0)
  }

  /** The available threat is the created threat plus the missed threat, which is non-negative. */
  predicate ThreatBalance(a: PlayerAggregate)
  {
    a.missedXthreatSum >= 0.0 && a.xthreatAvailableSum == a.playerTargetedXthreatSum + a.missedXthreatSum
  }

  /** What `group_by_players` promises of one player's row, given consistent enriched rows. */
  predicate WellFormedAggregate(a: PlayerAggregate)
  {
    RatesInRange(a) && CountsInRange(a) && OpportunitySplit(a) && ThreatBalance(a)
  }

  lemma ZeroOneColumn(g: seq<EnrichedEvent>, f: EnrichedEvent -> int)
    requires forall i :: 0 <= i < |g| ==> f(g[i]) == 0 || f(g[i]) == 1
    ensures ZeroOne(Column(g, f))
  {
  }

  /** Over consistent enriched rows every plain and subset rate is a percentage. */
  lemma AggregateRatesInRange(id: PlayerId, g: seq<EnrichedEvent>)
    requires |g| > 0
    requires forall i :: 0 <= i < |g| ==> Consistent(g[i])
    ensures RatesInRange(Aggregate(id, g))
  {
    var safest := Column(g, (e: EnrichedEvent) => e.metrics.safestPass);
    var highest := Column(g, (e: EnrichedEvent) => e.metrics.highestXthreatPass);
    var hasGood := Column(g, (e: EnrichedEvent) => e.metrics.hasGoodPassOpportunities);
    var good := Column(g, (e: EnrichedEvent) => e.metrics.goodPassOpportunity);
    var missed := Column(g, (e: EnrichedEvent) => e.metrics.missedGoodPassOpportunity);
    var completed := Column(g, Completed);
    var cSafest := Column(g, (e: EnrichedEvent) => BothSet(Completed(e), e.metrics.safestPass));
    var cHighest := Column(g, (e: EnrichedEvent) => BothSet(Completed(e), e.metrics.highestXthreatPass));
    var cGood := Column(g, (e: EnrichedEvent) => BothSet(Completed(e), e.metrics.goodPassOpportunity));
    ZeroOneColumn(g, (e: EnrichedEvent) => e.metrics.safestPass);
    ZeroOneColumn(g, (e: EnrichedEvent) => e.metrics.highestXthreatPass);
    ZeroOneColumn(g, (e: EnrichedEvent) => e.metrics.hasGoodPassOpportunities);
    ZeroOneColumn(g, (e: EnrichedEvent) => e.metrics.goodPassOpportunity);
    ZeroOneColumn(g, (e: EnrichedEvent) => e.metrics.missedGoodPassOpportunity);
    ZeroOneColumn(g, Completed);
    ZeroOneColumn(g, (e: EnrichedEvent) => BothSet(Completed(e), e.metrics.safestPass));
    ZeroOneColumn(g, (e: EnrichedEvent) => BothSet(Completed(e), e.metrics.highestXthreatPass));
    ZeroOneColumn(g, (e: EnrichedEvent) => BothSet(Completed(e), e.metrics.goodPassOpportunity));
    RateBounds(safest);
    RateBounds(highest);
    RateBounds(hasGood);
    RateBounds(completed);
    SumIntBounds(safest, 0, 1);
    SumIntBounds(completed, 0, 1);
    SubsetRateBounds(good, hasGood);
    SubsetRateBounds(missed, hasGood);
    SubsetRateBounds(cSafest, safest);
    SubsetRateBounds(cHighest, highest);
    SubsetRateBounds(cGood, good);
  }

  /** A subset sum of a 0/1 column lies between 0 and the number of rows whose 0/1 condition
      is 1. */
  lemma WhereSumBounds(col: seq<int>, cond: seq<int>)
    requires |col| == |cond| && ZeroOne(col) && ZeroOne(cond)
    ensures 0 <= SumInt(Where(col, cond)) <= SumInt(cond) <= |col|
  {
    var sub := Where(col, cond);
    WhereLength(col, cond);
    assert ZeroOne(sub) by {
      forall k | 0 <= k < |sub| ensures sub[k] == 0 || sub[k] == 1 {
        var i :| 0 <= i < |col| && cond[i] == 1 && sub[k] == col[i];
      }
    }
    SumIntBounds(sub, 0, 1);
    SumIntBounds(cond, 0, 1);
  }

  /** Over consistent enriched rows every count of an aggregate is bounded as `CountsInRange`
      says. */
  lemma AggregateCountsInRange(id: PlayerId, g: seq<EnrichedEvent>)
    requires |g| > 0
    requires forall i :: 0 <= i < |g| ==> Consistent(g[i])
    ensures CountsInRange(Aggregate(id, g))
  {
    var safest := Column(g, (e: EnrichedEvent) => e.metrics.safestPass);
    var highest := Column(g, (e: EnrichedEvent) => e.metrics.highestXthreatPass);
    var hasGood := Column(g, (e: EnrichedEvent) => e.metrics.hasGoodPassOpportunities);
    var good := Column(g, (e: EnrichedEvent) => e.metrics.goodPassOpportunity);
    var missed := Column(g, (e: EnrichedEvent) => e.metrics.missedGoodPassOpportunity);
    var completed := Column(g, Completed);
    var cSafest := Column(g, (e: EnrichedEvent) => BothSet(Completed(e), e.metrics.safestPass));
    var cHighest := Column(g, (e: EnrichedEvent) => BothSet(Completed(e), e.metrics.highestXthreatPass));
    var cGood := Column(g, (e: EnrichedEvent) => BothSet(Completed(e), e.metrics.goodPassOpportunity));
    ZeroOneColumn(g, (e: EnrichedEvent) => e.metrics.safestPass);
    ZeroOneColumn(g, (e: EnrichedEvent) => e.metrics.highestXthreatPass);
    ZeroOneColumn(g, (e: EnrichedEvent) => e.metrics.hasGoodPassOpportunities);
    ZeroOneColumn(g, (e: EnrichedEvent) => e.metrics.goodPassOpportunity);
    ZeroOneColumn(g, (e: EnrichedEvent) => e.metrics.missedGoodPassOpportunity);
    ZeroOneColumn(g, Completed);
    ZeroOneColumn(g, (e: EnrichedEvent) => BothSet(Completed(e), e.metrics.safestPass));
    ZeroOneColumn(g, (e: EnrichedEvent) => BothSet(Completed(e), e.metrics.highestXthreatPass));
    ZeroOneColumn(g, (e: EnrichedEvent) => BothSet(Completed(e), e.metrics.goodPassOpportunity));
    SumIntBounds(safest, 0, 1);
    SumIntBounds(highest, 0, 1);
    SumIntBounds(hasGood, 0, 1);
    SumIntBounds(completed, 0, 1);
    WhereSumBounds(good, hasGood);
    WhereSumBounds(missed, hasGood);
    WhereSumBounds(cSafest, safest);
    WhereSumBounds(cHighest, highest);
    WhereSumBounds(cGood, good);
  }

  /** Over consistent enriched rows a possession with a good option is either a good
      opportunity taken or one missed, so the two counts (and rates) add up. */
  lemma AggregateOpportunitySplit(id: PlayerId, g: seq<EnrichedEvent>)
    requires |g| > 0
    requires forall i :: 0 <= i < |g| ==> Consistent(g[i])
    ensures OpportunitySplit(Aggregate(id, g))
  {
    var hasGood := Column(g, (e: EnrichedEvent) => e.metrics.hasGoodPassOpportunities);
    var good := Column(g, (e: EnrichedEvent) => e.metrics.goodPassOpportunity);
    var missed := Column(g, (e: EnrichedEvent) => e.metrics.missedGoodPassOpportunity);
    ZeroOneColumn(g, (e: EnrichedEvent) => e.metrics.hasGoodPassOpportunities);
    WhereLength(good, hasGood);
    WhereComplement(good, missed, hasGood);
    var n := |Where(good, hasGood)|;
    if n > 0 {
      PercentAdd(SumInt(Where(good, hasGood)) as real, SumInt(Where(missed, hasGood)) as real, n as real);
    }
  }

  /** Over consistent enriched rows the summed available threat is the summed created threat plus
      the summed missed threat. */
  lemma AggregateThreatBalance(id: PlayerId, g: seq<EnrichedEvent>)
    requires |g| > 0
    requires forall i :: 0 <= i < |g| ==> Consistent(g[i])
    ensures ThreatBalance(Aggregate(id, g))
  {
    var targeted := Column(g, (e: EnrichedEvent) => e.targetedXthreat);
    var available := Column(g, (e: EnrichedEvent) => e.metrics.xthreatAvailable);
    var missedX := Column(g, (e: EnrichedEvent) => e.metrics.missedXthreat);
    SumAdd(available, targeted, missedX);
    SumNonNegative(missedX);
  }

  lemma AggregateWellFormed(id: PlayerId, g: seq<EnrichedEvent>)
    requires |g| > 0
    requires forall i :: 0 <= i < |g| ==> Consistent(g[i])
    ensures WellFormedAggregate(Aggregate(id, g))
  {
    AggregateRatesInRange(id, g);
    AggregateCountsInRange(id, g);
    AggregateOpportunitySplit(id, g);
    AggregateThreatBalance(id, g);
  }
  /** A filter keeps a strictly increasing sequence strictly increasing. */
  lemma {:induction false} FilterIncreasing(s: seq<PlayerId>, p: PlayerId -> bool)
    requires StrictlyIncreasing(s)
    ensures StrictlyIncreasing(Filter(s, p))
    decreases |s|
  {
    if |s| > 0 {
      FilterIncreasing(s[1..], p);
      var rest := Filter(s[1..], p);
      if p(s[0]) {
        var r := [s[0]] + rest;
        assert Filter(s, p) == r;
        forall i, j | 0 <= i < j < |r| ensures r[i] < r[j] {
          if i == 0 {
            assert r[j] == rest[j - 1] && rest[j - 1] in rest;
            assert r[j] in s[1..];
            var k :| 0 <= k < |s[1..]| && s[1..][k] == r[j];
            assert s[k + 1] == r[j];
          } else {
            assert r[i] == rest[i - 1] && r[j] == rest[j - 1];
          }
        }
      } else {
        assert Filter(s, p) == rest;
      }
    }
  }

  /** Each row of `group_by_players` aggregates all and only one player's events (at least one),
      counts them, and carries that player's minutes entry. */
  lemma GroupByPlayersRows(rows: seq<EnrichedEvent>, minutes: map<PlayerId, Minutes>)
    ensures var r := GroupByPlayers(rows, minutes);
      forall j :: 0 <= j < |r| ==>
        && r[j].agg.playerId in minutes && HasEvents(rows, r[j].agg.playerId)
        && r[j] == PlayerRowOf(rows, r[j].agg.playerId, minutes[r[j].agg.playerId])
        && r[j].minutes == minutes[r[j].agg.playerId]
        && r[j].agg.eventIdCount == |RowsOf(rows, r[j].agg.playerId)| >= 1
  {
    var ids := JoinedIds(rows, minutes);
    assert forall j :: 0 <= j < |ids| ==> ids[j] in ids;
  }

  /** `group_by_players` is an inner join: a player has a row exactly when the player has events
      and a minutes entry. */
  lemma GroupByPlayersKeys(rows: seq<EnrichedEvent>, minutes: map<PlayerId, Minutes>)
    ensures var r := GroupByPlayers(rows, minutes);
      forall id :: id in minutes && HasEvents(rows, id) <==> exists j :: 0 <= j < |r| && r[j].agg.playerId == id
  {
    var ids := JoinedIds(rows, minutes);
    var r := GroupByPlayers(rows, minutes);
    assert forall j :: 0 <= j < |ids| ==> ids[j] in ids && r[j].agg.playerId == ids[j];
    forall id | id in minutes && HasEvents(rows, id)
      ensures exists j :: 0 <= j < |r| && r[j].agg.playerId == id
    {
      var j :| 0 <= j < |ids| && ids[j] == id;
    }
  }

  /** The rows of `group_by_players` come in strictly ascending player id order, so no player
      has two rows. */
  lemma GroupByPlayersSorted(rows: seq<EnrichedEvent>, minutes: map<PlayerId, Minutes>)
    ensures var r := GroupByPlayers(rows, minutes);
      forall j, k :: 0 <= j < k < |r| ==> r[j].agg.playerId < r[k].agg.playerId
  {
    var ids := JoinedIds(rows, minutes);
    var r := GroupByPlayers(rows, minutes);
    FilterIncreasing(PlayerIds(rows), (id: PlayerId) => id in minutes);
    assert forall j :: 0 <= j < |ids| ==> ids[j] in ids && r[j].agg.playerId == ids[j];
  }

  /** Over consistent enriched rows every row of `group_by_players` is well formed. */
  lemma GroupByPlayersWellFormed(rows: seq<EnrichedEvent>, minutes: map<PlayerId, Minutes>)
    requires forall i :: 0 <= i < |rows| ==> Consistent(rows[i])
    ensures forall row :: row in GroupByPlayers(rows, minutes) ==> WellFormedAggregate(row.agg)
  {
    var r := GroupByPlayers(rows, minutes);
    GroupByPlayersRows(rows, minutes);
    assert forall row :: row in r ==> exists j :: 0 <= j < |r| && r[j] == row;
    forall j | 0 <= j < |r|
      ensures WellFormedAggregate(r[j].agg)
    {
      var id := r[j].agg.playerId;
      var g := RowsOf(rows, id);
      forall k | 0 <= k < |g| ensures Consistent(g[k]) {
        assert g[k] in rows;
      }
      AggregateWellFormed(id, g);
    }
  }

  /** Per-90 figures are defined exactly for non-zero minutes and are linear in the minutes'
      inverse: doubling the minutes played halves them. */
  lemma P90Linear(sum: real, minutesPlayed: real)
    ensures P90(sum, minutesPlayed).None? <==> minutesPlayed == 0.0
    ensures minutesPlayed != 0.0 ==>
      P90(sum, 2.0 * minutesPlayed).value == P90(sum, minutesPlayed).value / 2.0
    ensures minutesPlayed != 0.0 ==> P90(sum, minutesPlayed).value * minutesPlayed == sum * 90.0
  {
    if minutesPlayed != 0.0 {
      assert sum * 90.0 / (2.0 * minutesPlayed) == (sum * 90.0 / minutesPlayed) / 2.0;
    }
  }

  /** The minutes cancel in `decision_efficiency_p90`: for non-zero minutes it is the created threat
      as a percentage of the available threat, and it lies in [0, 100] for a well-formed row with
      non-negative created threat. */
  lemma DecisionEfficiencyP90(a: PlayerAggregate, m: Minutes)
    requires m.minutesPlayed != 0.0
    ensures JoinRow(a, m).decisionEfficiencyP90.Some? <==> a.xthreatAvailableSum != 0.0
    ensures a.xthreatAvailableSum != 0.0 ==>
      JoinRow(a, m).decisionEfficiencyP90 == Some(Percent(a.playerTargetedXthreatSum, a.xthreatAvailableSum))
    ensures ThreatBalance(a) && a.playerTargetedXthreatSum >= 0.0 && a.xthreatAvailableSum != 0.0 ==>
      0.0 <= JoinRow(a, m).decisionEfficiencyP90.value <= 100.0
  {
    var mp := m.minutesPlayed;
    var pt, xa := a.playerTargetedXthreatSum, a.xthreatAvailableSum;
    if xa != 0.0 {
      assert (pt * 90.0 / mp) / (xa * 90.0 / mp) == pt / xa;
      if ThreatBalance(a) && pt >= 0.0 {
        PercentBounds(pt, xa);
      }
    } else {
      assert xa * 90.0 / mp == 0.0;
    }
  }
}

