/** The league aggregator: `get_metrics` over the player table. */
module League {
  import opened Wrappers
  import opened Seqs
  import opened Players

  /** League-wide figures: unweighted means over players (undefined for an empty column, as
      pandas' NaN-skipping mean is) and the total missed threat. */
  datatype LeagueSummary = LeagueSummary(
    xthreatAvailableP90Mean: Option<real>,
    playerTargetedXthreatP90Mean: Option<real>,
    efficiencyP90: Option<real>,
    hasGoodPassOpportunitiesMean: Option<real>,
    goodPassOpportunityMean: Option<real>,
    missedGoodPassOpportunityMean: Option<real>,
    missedXthreatSum: real,
    safestPassPercMean: Option<real>,
    highestXthreatPassPercMean: Option<real>,
    completedPercMean: Option<real>)

  /** The mean of a column, skipping undefined entries. */
  function ColumnMean(col: seq<Option<real>>): Option<real>
  {
    Mean(Defined(col))
  }

  function PercColumn(t: seq<PlayerRow>, f: PlayerAggregate -> real): (r: seq<real>)
    ensures |r| == |t| && forall i :: 0 <= i < |t| ==> r[i] == f(t[i].agg)
  {
    Column(t, (row: PlayerRow) => f(row.agg))
  }

  /** `get_metrics`. */
  function GetMetrics(t: seq<PlayerRow>): LeagueSummary
  {
    LeagueSummary(
      xthreatAvailableP90Mean := ColumnMean(Column(t, (row: PlayerRow) => row.xthreatAvailableP90)),
      playerTargetedXthreatP90Mean := ColumnMean(Column(t, (row: PlayerRow) => row.playerTargetedXthreatP90)),
      efficiencyP90 := ColumnMean(Column(t, (row: PlayerRow) => row.decisionEfficiencyP90)),
      hasGoodPassOpportunitiesMean := Mean(PercColumn(t, (a: PlayerAggregate) => a.hasGoodPassOpportunitiesPerc)),
      goodPassOpportunityMean := Mean(PercColumn(t, (a: PlayerAggregate) => a.goodPassOpportunityPerc)),
      missedGoodPassOpportunityMean := Mean(PercColumn(t, (a: PlayerAggregate) => a.missedGoodPassOpportunityPerc)),
      missedXthreatSum := Sum(PercColumn(t, (a: PlayerAggregate) => a.missedXthreatSum)),
      safestPassPercMean := Mean(PercColumn(t, (a: PlayerAggregate) => a.safestPassPerc)),
      highestXthreatPassPercMean := Mean(PercColumn(t, (a: PlayerAggregate) => a.highestXthreatPassPerc)),
      completedPercMean := Mean(PercColumn(t, (a: PlayerAggregate) => a.completedPerc)))
  }

  /** A mean of percentages over a non-empty table is itself a percentage. */
  lemma PercMeanBounds(t: seq<PlayerRow>, f: PlayerAggregate -> real)
    requires |t| > 0
    requires forall i :: 0 <= i < |t| ==> 0.0 <= f(t[i].agg) <= 100.0
    ensures Mean(PercColumn(t, f)).Some?
    ensures 0.0 <= Mean(PercColumn(t, f)).value <= 100.0
  {
    MeanBounds(PercColumn(t, f), 0.0, 100.0);
  }

  /** Over player rows whose rates are percentages and whose missed threat is non-negative (as
      every well-formed row's are): every rate mean is defined exactly when there are players and
      then lies in [0, 100]; the league's missed threat is non-negative. */
  lemma GetMetricsBounds(t: seq<PlayerRow>)
    requires forall i :: 0 <= i < |t| ==> RatesInRange(t[i].agg) && ThreatBalance(t[i].agg)
    ensures var m := GetMetrics(t);
      && (m.safestPassPercMean.Some? <==> |t| > 0)
      && (|t| > 0 ==>
            && 0.0 <= m.hasGoodPassOpportunitiesMean.value <= 100.0
            && 0.0 <= m.goodPassOpportunityMean.value <= 100.0
            && 0.0 <= m.missedGoodPassOpportunityMean.value <= 100.0
            && 0.0 <= m.safestPassPercMean.value <= 100.0
            && 0.0 <= m.highestXthreatPassPercMean.value <= 100.0
            && 0.0 <= m.completedPercMean.value <= 100.0)
      && m.missedXthreatSum >= 0.0
  {
    if |t| > 0 {
      PercMeanBounds(t, (a: PlayerAggregate) => a.hasGoodPassOpportunitiesPerc);
      PercMeanBounds(t, (a: PlayerAggregate) => a.goodPassOpportunityPerc);
      PercMeanBounds(t, (a: PlayerAggregate) => a.missedGoodPassOpportunityPerc);
      PercMeanBounds(t, (a: PlayerAggregate) => a.safestPassPerc);
      PercMeanBounds(t, (a: PlayerAggregate) => a.highestXthreatPassPerc);
      PercMeanBounds(t, (a: PlayerAggregate) => a.completedPerc);
    }
    SumNonNegative(PercColumn(t, (a: PlayerAggregate) => a.missedXthreatSum));
  }

  /** Each player counts once, whatever the player's number of passes or minutes: when every
      player has the same completion rate, that rate is the league's mean. */
  lemma GetMetricsUnweighted(t: seq<PlayerRow>, rate: real)
    requires |t| > 0
    requires forall i :: 0 <= i < |t| ==> t[i].agg.completedPerc == rate
    ensures GetMetrics(t).completedPercMean == Some(rate)
  {
    MeanBounds(PercColumn(t, (a: PlayerAggregate) => a.completedPerc), rate, rate);
  }
}
