/** The event pipeline: the evaluation object, its good-threat threshold and `compute_metrics`. */
module Evaluation {
  import opened Wrappers
  import opened Seqs
  import opened Events
  import opened Comparator

  /** A possession with the columns `compute_metrics` adds. */
  datatype EnrichedEvent = EnrichedEvent(
    event: PossessionEvent,
    targetedXthreat: real,
    targetedXXthreat: real,
    metrics: OptionMetrics,
    decisionEfficiency: Option<real>)

  /** Eligible rows have more than one recorded option and a targeted threat. */
  predicate IsEligible(e: PossessionEvent)
  {
    e.nPassingOptions > 1 && e.targetedXthreat.Some?
  }

  function EligibleRows(data: seq<PossessionEvent>): (r: seq<PossessionEvent>)
    ensures forall i :: 0 <= i < |r| ==> IsEligible(r[i])
  {
    Filter(data, IsEligible)
  }

  /** `T_t / xthreat_available * 100`; undefined (NaN or infinite in the source) when the
      available threat is 0. */
  function DecisionEfficiency(targetedXthreat: real, available: real): Option<real>
  {
    if available == 0.0 then None else Some(Percent(targetedXthreat, available))
  }

  /** The row `compute_metrics` writes for a possession whose comparator result is `m`. */
  function WithMetrics(e: PossessionEvent, tx: real, m: OptionMetrics): EnrichedEvent
  {
    EnrichedEvent(e, tx, tx * e.targetedXpassCompletion, m, DecisionEfficiency(tx, m.xthreatAvailable))
  }

  /** The enriched row for one eligible possession that has at least one option. */
  function Enrich(t: Thresholds, e: PossessionEvent): EnrichedEvent
    requires e.targetedXthreat.Some? && |e.passingOptions| > 0
  {
    var tx := e.targetedXthreat.value;
    WithMetrics(e, tx, Evaluate(t, tx, e.targetedXpassCompletion, e.passingOptions).value)
  }

  /** Enriching every row; one row without options makes the whole computation fail (the source
      raises when it reads the result of `process_passing_options` for such a row). */
  function EnrichAll(t: Thresholds, rows: seq<PossessionEvent>): (r: Option<seq<EnrichedEvent>>)
    requires forall i :: 0 <= i < |rows| ==> rows[i].targetedXthreat.Some?
    ensures r.Some? <==> forall i :: 0 <= i < |rows| ==> |rows[i].passingOptions| > 0
    ensures r.Some? ==> |r.value| == |rows| && forall i :: 0 <= i < |rows| ==> r.value[i] == Enrich(t, rows[i])
    decreases |rows|
  {
    if |rows| == 0 then Some([])
    else if |rows[0].passingOptions| == 0 then None
    else
      assert forall i :: 1 <= i < |rows| ==> rows[i] == rows[1..][i - 1];
      match EnrichAll(t, rows[1..])
      case None => None
      case Some(rest) =>
        var r := [Enrich(t, rows[0])] + rest;
        assert r[1..] == rest;
        Some(r)
  }

  /** The facts about one enriched row that the aggregations rely on. */
  predicate Consistent(e: EnrichedEvent)
  {
    var m := e.metrics;
    && m.safestPass in {0, 1} && m.highestXthreatPass in {0, 1}
    && m.hasGoodPassOpportunities in {0, 1} && m.goodPassOpportunity in {0, 1}
    && m.missedGoodPassOpportunity == (if m.hasGoodPassOpportunities == 1 && m.goodPassOpportunity == 0 then 1 else 0)
    && m.missedXthreat >= 0.0
    && m.xthreatAvailable == e.targetedXthreat + m.missedXthreat
  }

  /** `compute_metrics` keeps exactly the eligible rows, as a sub-multiset of its input. */
  lemma EligibleRowsExactly(data: seq<PossessionEvent>)
    ensures forall e :: e in EligibleRows(data) <==> e in data && e.nPassingOptions > 1 && e.targetedXthreat.Some?
    ensures multiset(EligibleRows(data)) <= multiset(data)
  {
  }

  /** Every enriched row satisfies the flag and threat relations the comparator guarantees. */
  lemma EnrichConsistent(t: Thresholds, e: PossessionEvent)
    requires e.targetedXthreat.Some? && |e.passingOptions| > 0
    ensures Consistent(Enrich(t, e))
    ensures Enrich(t, e).event == e && Enrich(t, e).targetedXthreat == e.targetedXthreat.value
  {
    var tx := e.targetedXthreat.value;
    GoodOpportunityFlags(t, tx, e.targetedXpassCompletion, e.passingOptions);
    AvailableAndMissedXthreat(t, tx, e.targetedXpassCompletion, e.passingOptions);
  }

  /** Decision efficiency is undefined only when no threat was available; for a non-negative
      target it lies in [0, 100] and it is 100 exactly when no threat was missed. */
  lemma DecisionEfficiencyBounds(t: Thresholds, e: PossessionEvent)
    requires e.targetedXthreat.Some? && |e.passingOptions| > 0
    requires e.targetedXthreat.value >= 0.0
    ensures var r := Enrich(t, e);
      && (r.decisionEfficiency.None? <==> r.metrics.xthreatAvailable == 0.0)
      && (r.decisionEfficiency.Some? ==>
            && 0.0 <= r.decisionEfficiency.value <= 100.0
            && (r.decisionEfficiency.value == 100.0 <==> r.metrics.missedXthreat == 0.0))
  {
    var tx := e.targetedXthreat.value;
    AvailableAndMissedXthreat(t, tx, e.targetedXpassCompletion, e.passingOptions);
    var r := Enrich(t, e);
    var a := r.metrics.xthreatAvailable;
    assert r.decisionEfficiency == DecisionEfficiency(tx, a);
    if a != 0.0 {
      RatioBounds(tx, a);
    }
  }

  lemma RatioBounds(x: real, a: real)
    requires 0.0 <= x <= a && a != 0.0
    ensures 0.0 <= Percent(x, a) <= 100.0
    ensures Percent(x, a) == 100.0 <==> x == a
  {
    PercentBounds(x, a);
    assert x / a * a == x;
  }

  /** Every enriched row of a successful `EnrichAll` is consistent. */
  lemma EnrichAllConsistent(t: Thresholds, rows: seq<PossessionEvent>)
    requires forall i :: 0 <= i < |rows| ==> rows[i].targetedXthreat.Some?
    requires EnrichAll(t, rows).Some?
    ensures forall i :: 0 <= i < |rows| ==> Consistent(EnrichAll(t, rows).value[i])
  {
    forall i | 0 <= i < |rows|
      ensures Consistent(EnrichAll(t, rows).value[i])
    {
      EnrichConsistent(t, rows[i]);
    }
  }

  /** The evaluation object. Only the good-threat threshold changes after construction. */
  class PassingEvaluation {
    const goodXpassThreshold: real
    var goodXthreatThreshold: Option<real>
    const realisticXthreatThreshold: real

    /** An unset completion threshold defaults to 0.8; an unset threat threshold stays unset
        until `InitXthreatThreshold`. */
    constructor (xpassThreshold: Option<real>, xthreatThreshold: Option<real>)
      ensures goodXpassThreshold == xpassThreshold.GetOr(0.8)
      ensures goodXthreatThreshold == xthreatThreshold
      ensures realisticXthreatThreshold == 0.4
    {
      goodXpassThreshold := xpassThreshold.GetOr(0.8);
      goodXthreatThreshold := xthreatThreshold;
      realisticXthreatThreshold := 0.4;
    }

    function Config(): Thresholds
      reads this
      requires goodXthreatThreshold.Some?
    {
      Thresholds(goodXpassThreshold, goodXthreatThreshold.value, realisticXthreatThreshold)
    }

    /** Set the threat threshold to the upper quartile of the targeted threats, but only while it
        is unset: an explicit or already computed threshold is kept. */
    method InitXthreatThreshold(upperQuartile: real)
      modifies this
      ensures old(goodXthreatThreshold).Some? ==> goodXthreatThreshold == old(goodXthreatThreshold)
      ensures old(goodXthreatThreshold).None? ==> goodXthreatThreshold == Some(upperQuartile)
    {
      if goodXthreatThreshold.None? {
        goodXthreatThreshold := Some(upperQuartile);
      }
    }

    /** The loop of `process_passing_options`: does some option complete more likely than the
        target, does some option carry more threat, is some option a good opportunity. */
    method ScanOptions(t: Thresholds, tx: real, tc: real, options: seq<PassingOption>)
      returns (higherXpassCompletion: bool, higherXthreat: bool, hasGoodPassOpportunities: bool)
      ensures higherXpassCompletion == AnyHigherXpass(options, tc)
      ensures higherXthreat == AnyHigherXthreat(options, tx)
      ensures hasGoodPassOpportunities == AnyGoodOpportunity(t, options)
    {
      higherXpassCompletion, higherXthreat, hasGoodPassOpportunities := false, false, false;
      for i := 0 to |options|
        invariant higherXpassCompletion <==> exists j :: 0 <= j < i && options[j].xpassCompletion > tc
        invariant higherXthreat <==> exists j :: 0 <= j < i && options[j].xthreat > tx
        invariant hasGoodPassOpportunities <==>
          exists j :: 0 <= j < i && IsGoodPassOpportunity(t, options[j].xpassCompletion, options[j].xthreat)
      {
        var o := options[i];
        if o.xpassCompletion > tc {
          higherXpassCompletion := true;
        }
        if o.xthreat > tx {
          higherXthreat := true;
        }
        if IsGoodPassOpportunity(t, o.xpassCompletion, o.xthreat) {
          hasGoodPassOpportunities := true;
        }
      }
    }

    /** `process_passing_options`: one pass over the options sets the three comparison flags;
        the scores come from the option lists. The result is the comparator's specification. */
    method ProcessPassingOptions(row: PossessionEvent) returns (r: Option<OptionMetrics>)
      requires goodXthreatThreshold.Some? && row.targetedXthreat.Some?
      ensures r == Evaluate(Config(), row.targetedXthreat.value, row.targetedXpassCompletion, row.passingOptions)
    {
      var options := row.passingOptions;
      if |options| == 0 {
        return None;
      }
      var t := Config();
      var tx := row.targetedXthreat.value;
      var tc := row.targetedXpassCompletion;
      var higherXpassCompletion, higherXthreat, hasGoodPassOpportunities := ScanOptions(t, tx, tc, options);
      r := Some(Assemble(t, tx, tc, options, higherXpassCompletion, higherXthreat, hasGoodPassOpportunities));
    }

    /** The row-wise application of `process_passing_options` in `compute_metrics`, with the
        derived columns (`player_targeted_x_xthreat`, `decision_efficiency`) added per row. */
    method EnrichRows(rows: seq<PossessionEvent>) returns (r: Option<seq<EnrichedEvent>>)
      requires goodXthreatThreshold.Some?
      requires forall i :: 0 <= i < |rows| ==> rows[i].targetedXthreat.Some?
      ensures r == EnrichAll(Config(), rows)
    {
      var t := Config();
      var out: seq<EnrichedEvent> := [];
      for i := 0 to |rows|
        invariant |out| == i
        invariant forall k :: 0 <= k < i ==> |rows[k].passingOptions| > 0 && out[k] == Enrich(t, rows[k])
      {
        var m := ProcessPassingOptions(rows[i]);
        if m.None? {
          assert |rows[i].passingOptions| == 0;
          return None;
        }
        out := out + [WithMetrics(rows[i], rows[i].targetedXthreat.value, m.value)];
      }
      var all := EnrichAll(t, rows);
      assert all.Some?;
      assert all.value == out;
      r := Some(out);
    }

    /** `compute_metrics`: keep the eligible rows, fix the threshold and enrich each row. */
    method ComputeMetrics(data: seq<PossessionEvent>, upperQuartile: real) returns (r: Option<seq<EnrichedEvent>>)
      modifies this
      ensures old(goodXthreatThreshold).Some? ==> goodXthreatThreshold == old(goodXthreatThreshold)
      ensures old(goodXthreatThreshold).None? ==> goodXthreatThreshold == Some(upperQuartile)
      ensures r == EnrichAll(Config(), EligibleRows(data))
    {
      var rows := EligibleRows(data);
      InitXthreatThreshold(upperQuartile);
      r := EnrichRows(rows);
    }
  }
}
