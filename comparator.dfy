/** The option comparator: one possession's targeted option against all its passing options. */
module Comparator {
  import opened Wrappers
  import opened Seqs
  import opened Events

  /** The three thresholds the comparator reads from the evaluation object. */
  datatype Thresholds = Thresholds(goodXpass: real, goodXthreat: real, realistic: real)

  /** The per-possession result of `process_passing_options`; flags are 0 or 1. */
  datatype OptionMetrics = OptionMetrics(
    safestPass: int,
    highestXthreatPass: int,
    hasGoodPassOpportunities: int,
    goodPassOpportunity: int,
    missedGoodPassOpportunity: int,
    xthreatAvailable: real,
    missedXthreat: real,
    xXthreatBest: real,
    xXthreatAvg: real,
    optionsCount: int,
    betterXXthreatsCount: int)

  function Flag(b: bool): int
  {
    if b then 1 else 0
  }

  /** A pass is a good opportunity when both its completion and its threat clear their thresholds. */
  predicate IsGoodPassOpportunity(t: Thresholds, xpass: real, xthreat: real)
  {
    xpass >= t.goodXpass && xthreat >= t.goodXthreat
  }

  predicate IsRealistic(o: PassingOption, realistic: real)
  {
    o.xpassCompletion >= realistic
  }

  /** The threat values of the realistic options, in option order. */
  function RealisticXthreats(options: seq<PassingOption>, realistic: real): (r: seq<real>)
    ensures |r| <= |options|
    ensures forall x :: x in r <==>
      exists i :: 0 <= i < |options| && IsRealistic(options[i], realistic) && options[i].xthreat == x
    decreases |options|
  {
    if |options| == 0 then []
    else
      var rest := RealisticXthreats(options[1..], realistic);
      assert forall i :: 1 <= i < |options| ==> options[i] == options[1..][i - 1];
      (if IsRealistic(options[0], realistic) then [options[0].xthreat] else []) + rest
  }

  /** The largest threat among realistic options, 0.0 when no option is realistic. */
  function XthreatAvailable(options: seq<PassingOption>, realistic: real): (r: real)
    ensures forall i :: 0 <= i < |options| && IsRealistic(options[i], realistic) ==> options[i].xthreat <= r
    ensures (exists i :: 0 <= i < |options| && IsRealistic(options[i], realistic)) ==>
      exists i :: 0 <= i < |options| && IsRealistic(options[i], realistic) && options[i].xthreat == r
    ensures (forall i :: 0 <= i < |options| ==> !IsRealistic(options[i], realistic)) ==> r == 0.0
  {
    var rs := RealisticXthreats(options, realistic);
    if |rs| == 0 then
      assert forall i :: 0 <= i < |options| ==> !IsRealistic(options[i], realistic) by {
        forall i | 0 <= i < |options| && IsRealistic(options[i], realistic)
          ensures options[i].xthreat in rs
        {
        }
      }
      0.0
    else
      var m := Max(rs);
      assert m in rs;
      forall i | 0 <= i < |options| && IsRealistic(options[i], realistic)
        ensures options[i].xthreat <= m
      {
        assert options[i].xthreat in rs;
      }
      m
  }

  /** `xthreat * xpass_completion` of every option, in option order. */
  function ExpectedThreats(options: seq<PassingOption>): (r: seq<real>)
    ensures |r| == |options|
    ensures forall i :: 0 <= i < |options| ==> r[i] == options[i].xthreat * options[i].xpassCompletion
  {
    seq(|options|, i requires 0 <= i < |options| => options[i].xthreat * options[i].xpassCompletion)
  }

  /** How many entries strictly exceed `bound`. */
  function CountAbove(s: seq<real>, bound: real): (n: nat)
    ensures n <= |s|
    ensures n == 0 <==> forall i :: 0 <= i < |s| ==> s[i] <= bound
    ensures n == |s| <==> forall i :: 0 <= i < |s| ==> s[i] > bound
  {
    if |s| == 0 then 0
    else
      assert forall i :: 1 <= i < |s| ==> s[i] == s[1..][i - 1];
      (if s[0] > bound then 1 else 0) + CountAbove(s[1..], bound)
  }

  /** The count is the number of entries strictly above the bound. */
  lemma {:induction false} CountAboveExact(s: seq<real>, bound: real)
    ensures CountAbove(s, bound) == |Filter(s, (x: real) => x > bound)|
    decreases |s|
  {
    if |s| > 0 {
      CountAboveExact(s[1..], bound);
    }
  }

  predicate AnyHigherXpass(options: seq<PassingOption>, xpass: real)
  {
    exists i :: 0 <= i < |options| && options[i].xpassCompletion > xpass
  }

  predicate AnyHigherXthreat(options: seq<PassingOption>, xthreat: real)
  {
    exists i :: 0 <= i < |options| && options[i].xthreat > xthreat
  }

  predicate AnyGoodOpportunity(t: Thresholds, options: seq<PassingOption>)
  {
    exists i :: 0 <= i < |options| && IsGoodPassOpportunity(t, options[i].xpassCompletion, options[i].xthreat)
  }

  /** The result record of one possession, given the three facts the option loop establishes:
      some option completes more likely than the target, some option carries more threat,
      some option is a good opportunity. */
  function Assemble(t: Thresholds, targetedXthreat: real, targetedXpass: real, options: seq<PassingOption>,
                    higherXpass: bool, higherXthreat: bool, hasGood: bool): OptionMetrics
    requires |options| > 0
  {
    var available := XthreatAvailable(options, t.realistic);
    var targetedGood := IsGoodPassOpportunity(t, targetedXpass, targetedXthreat);
    var xx := ExpectedThreats(options);
    OptionMetrics(
      safestPass := Flag(!higherXpass),
      highestXthreatPass := Flag(!higherXthreat),
      hasGoodPassOpportunities := Flag(hasGood),
      goodPassOpportunity := Flag(targetedGood),
      missedGoodPassOpportunity := Flag(!targetedGood && hasGood),
      xthreatAvailable := if targetedXthreat < available then available else targetedXthreat,
      missedXthreat := if targetedXthreat < available then available - targetedXthreat else 0.0,
      xXthreatBest := Max(xx),
      xXthreatAvg := Mean(xx).value,
      optionsCount := |options|,
      betterXXthreatsCount := CountAbove(xx, targetedXthreat * targetedXpass))
  }

  /** The comparator as a declarative specification: None for an empty option list,
      otherwise every flag and score of one possession. */
  function Evaluate(t: Thresholds, targetedXthreat: real, targetedXpass: real, options: seq<PassingOption>)
    : (r: Option<OptionMetrics>)
    ensures r.Some? <==> |options| > 0
  {
    if |options| == 0 then None
    else
      Some(Assemble(t, targetedXthreat, targetedXpass, options,
        AnyHigherXpass(options, targetedXpass), AnyHigherXthreat(options, targetedXthreat),
        AnyGoodOpportunity(t, options)))
  }

  /** The target is the safest pass exactly when no option is strictly more likely to complete
      (ties count as safest); the highest-threat flag follows the same rule on threat. */
  lemma SafestAndHighestFlags(t: Thresholds, tx: real, tc: real, options: seq<PassingOption>)
    requires |options| > 0
    ensures var m := Evaluate(t, tx, tc, options).value;
      && (m.safestPass == 1 <==> forall i :: 0 <= i < |options| ==> options[i].xpassCompletion <= tc)
      && (m.safestPass == 0 <==> exists i :: 0 <= i < |options| && options[i].xpassCompletion > tc)
      && (m.highestXthreatPass == 1 <==> forall i :: 0 <= i < |options| ==> options[i].xthreat <= tx)
      && (m.highestXthreatPass == 0 <==> exists i :: 0 <= i < |options| && options[i].xthreat > tx)
  {
  }

  /** Good, has-good and missed-good: a missed good opportunity is exactly a possession with a good
      option whose target is not good, so a target is never both good and missed. */
  lemma GoodOpportunityFlags(t: Thresholds, tx: real, tc: real, options: seq<PassingOption>)
    requires |options| > 0
    ensures var m := Evaluate(t, tx, tc, options).value;
      && (m.goodPassOpportunity == 1 <==> tc >= t.goodXpass && tx >= t.goodXthreat)
      && (m.hasGoodPassOpportunities == 1 <==>
           exists i :: 0 <= i < |options| && options[i].xpassCompletion >= t.goodXpass && options[i].xthreat >= t.goodXthreat)
      && (m.missedGoodPassOpportunity == 1 <==> m.hasGoodPassOpportunities == 1 && m.goodPassOpportunity == 0)
      && !(m.goodPassOpportunity == 1 && m.missedGoodPassOpportunity == 1)
      && m.goodPassOpportunity in {0, 1} && m.hasGoodPassOpportunities in {0, 1}
      && m.missedGoodPassOpportunity in {0, 1}
  {
  }

  /** The available threat is the larger of the realistic maximum and the targeted threat, so it is
      never below the target; the missed threat is the non-negative gap between the two. */
  lemma AvailableAndMissedXthreat(t: Thresholds, tx: real, tc: real, options: seq<PassingOption>)
    requires |options| > 0
    ensures var m := Evaluate(t, tx, tc, options).value;
      var realisticMax := XthreatAvailable(options, t.realistic);
      && m.xthreatAvailable == (if realisticMax > tx then realisticMax else tx)
      && m.xthreatAvailable >= tx
      && m.missedXthreat >= 0.0
      && tx + m.missedXthreat == m.xthreatAvailable
      && (forall i :: 0 <= i < |options| && options[i].xpassCompletion >= t.realistic ==>
            options[i].xthreat <= m.xthreatAvailable)
  {
  }

  /** The best expected threat bounds every option's expected threat and the average; the count of
      better options lies between 0 and the option count, which is the number of options. */
  lemma ExpectedThreatBounds(t: Thresholds, tx: real, tc: real, options: seq<PassingOption>)
    requires |options| > 0
    ensures var m := Evaluate(t, tx, tc, options).value;
      && (forall i :: 0 <= i < |options| ==> options[i].xthreat * options[i].xpassCompletion <= m.xXthreatBest)
      && m.xXthreatAvg <= m.xXthreatBest
      && 0 <= m.betterXXthreatsCount <= m.optionsCount == |options|
      && m.betterXXthreatsCount == |Filter(ExpectedThreats(options), (x: real) => x > tx * tc)|
      && (m.betterXXthreatsCount == 0 <==> m.xXthreatBest <= tx * tc)
  {
    CountAboveExact(ExpectedThreats(options), tx * tc);
    var xx := ExpectedThreats(options);
    MeanAtMostMax(xx);
    var best := Max(xx);
    var j :| 0 <= j < |xx| && xx[j] == best;
    assert CountAbove(xx, tx * tc) == 0 <==> best <= tx * tc;
  }

  /** A single option as likely to complete as the target leaves the target the safest pass;
      any option more likely to complete takes that away. */
  lemma SafestPassTie(t: Thresholds, tc: real, threat: real, xthreat: real, better: real)
    requires better > tc
    ensures Evaluate(t, xthreat, tc, [PassingOption(threat, tc, 0.0, "", "")]).value.safestPass == 1
    ensures Evaluate(t, xthreat, tc, [PassingOption(threat, tc, 0.0, "", ""), PassingOption(threat, better, 0.0, "", "")])
              .value.safestPass == 0
  {
    var two := [PassingOption(threat, tc, 0.0, "", ""), PassingOption(threat, better, 0.0, "", "")];
    assert two[1].xpassCompletion > tc;
  }

  /** Two options, the realistic one worth 0.5, a target worth 0.2: 0.5 is available and 0.3 missed. */
  lemma MissedXthreatExample(t: Thresholds)
    requires t.realistic == 0.4
    ensures var options := [PassingOption(0.5, 0.9, 0.0, "", ""), PassingOption(0.2, 0.3, 0.0, "", "")];
      var m := Evaluate(t, 0.2, 0.3, options).value;
      m.xthreatAvailable == 0.5 && m.missedXthreat == 0.3
  {
    var options := [PassingOption(0.5, 0.9, 0.0, "", ""), PassingOption(0.2, 0.3, 0.0, "", "")];
    assert IsRealistic(options[0], 0.4) && !IsRealistic(options[1], 0.4);
    assert XthreatAvailable(options, 0.4) == 0.5;
  }
}
