/**
 * Per-template divergence scores of two windows (internal/analyzer/kl_divergence.go):
 * window totals, the union of template IDs, additively smoothed probabilities,
 * the pointwise KL term and the relative change of raw frequencies.
 *
 * Floating point is modelled by exact reals, and `math.Log` by the parameter
 * `ln`, about which nothing is assumed unless a lemma says so.
 */
module Scoring {

  /** Per-template occurrence counts of one window. */
  type CountMap = map<string, nat>

  /** The smoothing constant ε = 1e-10. */
  const Smoothing: real := 0.0000000001

  /** A Go map read: an absent template counts 0. */
  function Count(m: CountMap, t: string): nat {
    if t in m then m[t] else 0
  }

  /** The sum of the counts of the given templates. */
  ghost function SumCounts(keys: set<string>, m: CountMap): nat
    decreases keys
  {
    if keys == {} then 0
    else
      var k :| k in keys;
      Count(m, k) + SumCounts(keys - {k}, m)
  }

  /** The total number of occurrences in a window. */
  ghost function CountTotal(m: CountMap): nat {
    SumCounts(m.Keys, m)
  }

  /** Any template may be taken out of a sum first. */
  lemma SumCountsRemove(keys: set<string>, m: CountMap, k: string)
    requires k in keys
    ensures SumCounts(keys, m) == Count(m, k) + SumCounts(keys - {k}, m)
    decreases keys
  {
    var x :| x in keys && SumCounts(keys, m) == Count(m, x) + SumCounts(keys - {x}, m);
    if x != k {
      SumCountsRemove(keys - {x}, m, k);
      SumCountsRemove(keys - {k}, m, x);
      assert keys - {x} - {k} == keys - {k} - {x};
    }
  }

  /** Templates that count 0 add nothing to a sum. */
  lemma {:induction false} SumCountsZeroOutside(keys: set<string>, inner: set<string>, m: CountMap)
    requires inner <= keys
    requires forall k | k in keys - inner :: Count(m, k) == 0
    ensures SumCounts(keys, m) == SumCounts(inner, m)
    decreases keys
  {
    var outside := keys - inner;
    if outside == {} {
      forall x | x in keys
        ensures x in inner
      {
        assert x !in outside;
      }
      assert keys == inner;
    } else {
      var k :| k in outside;
      SumCountsRemove(keys, m, k);
      SumCountsZeroOutside(keys - {k}, inner, m);
    }
  }

  /** A sum only depends on the counts of the templates it sums. */
  lemma {:induction false} SumCountsAgree(keys: set<string>, m1: CountMap, m2: CountMap)
    requires forall k | k in keys :: Count(m1, k) == Count(m2, k)
    ensures SumCounts(keys, m1) == SumCounts(keys, m2)
    decreases keys
  {
    if keys != {} {
      var k :| k in keys;
      SumCountsRemove(keys, m1, k);
      SumCountsRemove(keys, m2, k);
      SumCountsAgree(keys - {k}, m1, m2);
    }
  }

  /** The smoothed probabilities of the given templates, summed. */
  ghost function ProbabilityMass(keys: set<string>, m: CountMap, total: nat, universe: nat): real
    requires total > 0
    decreases keys
  {
    if keys == {} then 0.0
    else
      var k :| k in keys;
      Probability(Count(m, k), total, universe) + ProbabilityMass(keys - {k}, m, total, universe)
  }

  /** Any template may be taken out of a probability sum first. */
  lemma ProbabilityMassRemove(keys: set<string>, m: CountMap, total: nat, universe: nat, k: string)
    requires total > 0 && k in keys
    ensures ProbabilityMass(keys, m, total, universe)
         == Probability(Count(m, k), total, universe) + ProbabilityMass(keys - {k}, m, total, universe)
    decreases keys
  {
    var x :| x in keys && ProbabilityMass(keys, m, total, universe)
                       == Probability(Count(m, x), total, universe) + ProbabilityMass(keys - {x}, m, total, universe);
    if x != k {
      ProbabilityMassRemove(keys - {x}, m, total, universe, k);
      ProbabilityMassRemove(keys - {k}, m, total, universe, x);
      assert keys - {x} - {k} == keys - {k} - {x};
    }
  }

  /** `totalCount` loop: add up the counts of one window, key by key. */
  method TotalCount(m: CountMap) returns (total: nat)
    ensures total == CountTotal(m)
    ensures total == 0 <==> forall t | t in m :: m[t] == 0
  {
    total := 0;
    var remaining := m.Keys;
    while remaining != {}
      invariant remaining <= m.Keys
      invariant total + SumCounts(remaining, m) == CountTotal(m)
      invariant total == 0 ==> forall t | t in m.Keys - remaining :: m[t] == 0
      invariant total > 0 ==> exists t | t in m :: m[t] > 0
      decreases remaining
    {
      var t :| t in remaining;
      SumCountsRemove(remaining, m, t);
      total := total + m[t];
      remaining := remaining - {t};
    }
  }

  /** `allTemplates`: the union of the two windows' template IDs. */
  method TemplateUniverse(current: CountMap, baseline: CountMap) returns (all: set<string>)
    ensures all == current.Keys + baseline.Keys
  {
    all := {};
    var remaining := current.Keys;
    while remaining != {}
      invariant remaining <= current.Keys
      invariant all == current.Keys - remaining
      decreases remaining
    {
      var t :| t in remaining;
      all := all + {t};
      remaining := remaining - {t};
    }
    remaining := baseline.Keys;
    while remaining != {}
      invariant remaining <= baseline.Keys
      invariant all == current.Keys + (baseline.Keys - remaining)
      decreases remaining
    {
      var t :| t in remaining;
      all := all + {t};
      remaining := remaining - {t};
    }
  }

  /**
   * The smoothed probability (count + ε) / (total + ε·|U|) of one template,
   * where |U| is the size of the union of both windows' templates.
   */
  function Probability(count: nat, total: nat, universe: nat): (p: real)
    requires total > 0
    ensures p > 0.0
  {
    (count as real + Smoothing) / Denominator(total, universe)
  }

  /**
   * Over any set of templates that holds every key of the window, the
   * smoothed probabilities sum to exactly 1.
   */
  lemma ProbabilitiesSumToOne(m: CountMap, universe: set<string>)
    requires m.Keys <= universe
    requires CountTotal(m) > 0
    ensures ProbabilityMass(universe, m, CountTotal(m), |universe|) == 1.0
  {
    var total := CountTotal(m);
    MassIsQuotient(universe, m, total, |universe|);
    SumCountsZeroOutside(universe, m.Keys, m);
    DivideSelf(Denominator(total, |universe|));
  }

  /** The smoothed denominator total + ε·|U|. */
  function Denominator(total: nat, universe: nat): (d: real)
    requires total > 0
    ensures d > 0.0
  {
    total as real + Smoothing * universe as real
  }

  /** Two quotients over one denominator add up over it. */
  lemma AddQuotients(a: real, b: real, d: real)
    requires d != 0.0
    ensures a / d + b / d == (a + b) / d
  {
  }

  /**
   * The probability sum over some templates is their count sum plus ε per
   * template, over the denominator.
   */
  lemma {:induction false} MassIsQuotient(keys: set<string>, m: CountMap, total: nat, universe: nat)
    requires total > 0
    ensures ProbabilityMass(keys, m, total, universe)
         == (SumCounts(keys, m) as real + Smoothing * |keys| as real) / Denominator(total, universe)
    decreases keys
  {
    if keys != {} {
      var k :| k in keys;
      var rest := keys - {k};
      ProbabilityMassRemove(keys, m, total, universe, k);
      SumCountsRemove(keys, m, k);
      MassIsQuotient(rest, m, total, universe);
      AddQuotients(Count(m, k) as real + Smoothing,
                   SumCounts(rest, m) as real + Smoothing * |rest| as real,
                   Denominator(total, universe));
    }
  }

  /** The pointwise KL term p_cur · ln(p_cur / p_base). */
  function KLTerm(pCurrent: real, pBaseline: real, ln: real -> real): real
    requires pBaseline > 0.0
  {
    pCurrent * ln(pCurrent / pBaseline)
  }

  /** The raw frequency count / total of a template in one window. */
  function Frequency(count: nat, total: nat): (f: real)
    requires total > 0
    ensures f >= 0.0
    ensures count <= total ==> f <= 1.0
  {
    count as real / total as real
  }

  /** The relative change (f_cur − f_base) / (f_base + ε). */
  function RelativeChange(freqCurrent: real, freqBaseline: real): real
    requires freqBaseline >= 0.0
  {
    (freqCurrent - freqBaseline) / (freqBaseline + Smoothing)
  }

  /** What CalculateKLDivergence returns. */
  ghost function KLDivergence(current: CountMap, baseline: CountMap, ln: real -> real): map<string, real> {
    var tc, tb := CountTotal(current), CountTotal(baseline);
    if tc == 0 || tb == 0 then map[]
    else
      var all := current.Keys + baseline.Keys;
      map t | t in all ::
        KLTerm(Probability(Count(current, t), tc, |all|), Probability(Count(baseline, t), tb, |all|), ln)
  }

  /** What CalculateRelativeChanges returns. */
  ghost function RelativeChanges(current: CountMap, baseline: CountMap): map<string, real> {
    var tc, tb := CountTotal(current), CountTotal(baseline);
    if tc == 0 || tb == 0 then map[]
    else
      map t | t in current.Keys + baseline.Keys ::
        RelativeChange(Frequency(Count(current, t), tc), Frequency(Count(baseline, t), tb))
  }

  /** `CalculateKLDivergence`: one KL term per template of the union, or none if a window is empty. */
  method CalculateKLDivergence(current: CountMap, baseline: CountMap, ln: real -> real)
    returns (kl: map<string, real>)
    ensures kl == KLDivergence(current, baseline, ln)
    ensures CountTotal(current) == 0 || CountTotal(baseline) == 0 ==> kl == map[]
    ensures CountTotal(current) > 0 && CountTotal(baseline) > 0 ==> kl.Keys == current.Keys + baseline.Keys
  {
    var currentTotal := TotalCount(current);
    var baselineTotal := TotalCount(baseline);
    if currentTotal == 0 || baselineTotal == 0 {
      return map[];
    }
    var all := TemplateUniverse(current, baseline);
    kl := map[];
    var remaining := all;
    while remaining != {}
      invariant remaining <= all
      invariant kl.Keys == all - remaining
      invariant forall t | t in kl ::
        kl[t] == KLTerm(Probability(Count(current, t), currentTotal, |all|),
                        Probability(Count(baseline, t), baselineTotal, |all|), ln)
      decreases remaining
    {
      var t :| t in remaining;
      var pCurrent := Probability(Count(current, t), currentTotal, |all|);
      var pBaseline := Probability(Count(baseline, t), baselineTotal, |all|);
      kl := kl[t := KLTerm(pCurrent, pBaseline, ln)];
      remaining := remaining - {t};
    }
  }

  /** `CalculateRelativeChanges`: one relative change per template of the union, or none. */
  method CalculateRelativeChanges(current: CountMap, baseline: CountMap)
    returns (changes: map<string, real>)
    ensures changes == RelativeChanges(current, baseline)
    ensures CountTotal(current) == 0 || CountTotal(baseline) == 0 ==> changes == map[]
    ensures CountTotal(current) > 0 && CountTotal(baseline) > 0 ==> changes.Keys == current.Keys + baseline.Keys
  {
    var currentTotal := TotalCount(current);
    var baselineTotal := TotalCount(baseline);
    if currentTotal == 0 || baselineTotal == 0 {
      return map[];
    }
    var all := TemplateUniverse(current, baseline);
    changes := map[];
    var remaining := all;
    while remaining != {}
      invariant remaining <= all
      invariant changes.Keys == all - remaining
      invariant forall t | t in changes ::
        changes[t] == RelativeChange(Frequency(Count(current, t), currentTotal),
                                     Frequency(Count(baseline, t), baselineTotal))
      decreases remaining
    {
      var t :| t in remaining;
      var freqCurrent := Frequency(Count(current, t), currentTotal);
      var freqBaseline := Frequency(Count(baseline, t), baselineTotal);
      changes := changes[t := RelativeChange(freqCurrent, freqBaseline)];
      remaining := remaining - {t};
    }
  }

  /**
   * The sign of a relative change is the sign of f_cur − f_base, and a
   * template can never lose 100% or more of its share.
   */
  lemma RelativeChangeSign(freqCurrent: real, freqBaseline: real)
    requires freqCurrent >= 0.0 && freqBaseline >= 0.0
    ensures RelativeChange(freqCurrent, freqBaseline) > 0.0 <==> freqCurrent > freqBaseline
    ensures RelativeChange(freqCurrent, freqBaseline) < 0.0 <==> freqCurrent < freqBaseline
    ensures RelativeChange(freqCurrent, freqBaseline) == 0.0 <==> freqCurrent == freqBaseline
    ensures RelativeChange(freqCurrent, freqBaseline) > -1.0
  {
    var d := freqBaseline + Smoothing;
    var r := RelativeChange(freqCurrent, freqBaseline);
    assert r * d == freqCurrent - freqBaseline;
  }

  /**
   * In the map: a template's relative change is positive, negative or zero
   * exactly as its frequency rose, fell or stayed.
   */
  lemma RelativeChangesTrackFrequency(current: CountMap, baseline: CountMap, t: string)
    requires CountTotal(current) > 0 && CountTotal(baseline) > 0
    requires t in current || t in baseline
    ensures t in RelativeChanges(current, baseline)
    ensures var r := RelativeChanges(current, baseline)[t];
            var fc := Frequency(Count(current, t), CountTotal(current));
            var fb := Frequency(Count(baseline, t), CountTotal(baseline));
            && (r > 0.0 <==> fc > fb) && (r < 0.0 <==> fc < fb) && (r == 0.0 <==> fc == fb)
  {
    RelativeChangeSign(Frequency(Count(current, t), CountTotal(current)),
                       Frequency(Count(baseline, t), CountTotal(baseline)));
  }

  /** A template seen only in the current window has a positive relative change. */
  lemma NewTemplateRises(current: CountMap, baseline: CountMap, t: string)
    requires CountTotal(baseline) > 0
    requires t in current && current[t] > 0 && t !in baseline
    ensures CountTotal(current) > 0
    ensures t in RelativeChanges(current, baseline) && RelativeChanges(current, baseline)[t] > 0.0
  {
    SumCountsRemove(current.Keys, current, t);
    RelativeChangesTrackFrequency(current, baseline, t);
  }

  /**
   * Identical windows score nothing: every relative change is 0, and, when
   * ln(1) = 0, every KL term p·ln(1) is 0.
   */
  lemma IdenticalWindowsScoreZero(m: CountMap, ln: real -> real)
    requires ln(1.0) == 0.0
    ensures forall t | t in KLDivergence(m, m, ln) :: KLDivergence(m, m, ln)[t] == 0.0
    ensures forall t | t in RelativeChanges(m, m) :: RelativeChanges(m, m)[t] == 0.0
  {
    var total := CountTotal(m);
    if total > 0 {
      var all := m.Keys + m.Keys;
      var kl := KLDivergence(m, m, ln);
      forall t | t in kl
        ensures kl[t] == 0.0
      {
        var p := Probability(Count(m, t), total, |all|);
        assert kl[t] == KLTerm(p, p, ln);
        DivideSelf(p);
      }
    }
  }

  /** A non-zero number divided by itself is 1. */
  lemma DivideSelf(x: real)
    requires x != 0.0
    ensures x / x == 1.0
  {
  }

  /** Adding a template with count 0 changes neither the total nor any count. */
  lemma PadWithZero(m: CountMap, t: string)
    requires t !in m
    ensures CountTotal(m[t := 0]) == CountTotal(m)
    ensures forall k :: Count(m[t := 0], k) == Count(m, k)
  {
    var padded := m[t := 0];
    assert padded.Keys == m.Keys + {t};
    SumCountsRemove(padded.Keys, padded, t);
    assert padded.Keys - {t} == m.Keys;
    SumCountsAgree(m.Keys, padded, m);
  }

  /**
   * A template of either window that is absent from the other is scored as
   * if it were present there with count 0: adding it with count 0 changes
   * neither score map. This holds for a template new in the current window
   * and for one that vanished from it.
   */
  lemma AbsentCountsAsZero(current: CountMap, baseline: CountMap, t: string, ln: real -> real)
    requires t in current.Keys + baseline.Keys
    ensures t !in baseline ==>
      && KLDivergence(current, baseline[t := 0], ln) == KLDivergence(current, baseline, ln)
      && RelativeChanges(current, baseline[t := 0]) == RelativeChanges(current, baseline)
    ensures t !in current ==>
      && KLDivergence(current[t := 0], baseline, ln) == KLDivergence(current, baseline, ln)
      && RelativeChanges(current[t := 0], baseline) == RelativeChanges(current, baseline)
  {
    if t !in baseline {
      PaddedBaselineScoresSame(current, baseline, t, ln);
    }
    if t !in current {
      PaddedCurrentScoresSame(current, baseline, t, ln);
    }
  }

  /** The baseline half of `AbsentCountsAsZero`. */
  lemma PaddedBaselineScoresSame(current: CountMap, baseline: CountMap, t: string, ln: real -> real)
    requires t in current && t !in baseline
    ensures KLDivergence(current, baseline[t := 0], ln) == KLDivergence(current, baseline, ln)
    ensures RelativeChanges(current, baseline[t := 0]) == RelativeChanges(current, baseline)
  {
    PadWithZero(baseline, t);
    assert current.Keys + baseline[t := 0].Keys == current.Keys + baseline.Keys;
    assert forall k :: Count(baseline[t := 0], k) == Count(baseline, k);
  }

  /** The current-window half of `AbsentCountsAsZero`. */
  lemma PaddedCurrentScoresSame(current: CountMap, baseline: CountMap, t: string, ln: real -> real)
    requires t !in current && t in baseline
    ensures KLDivergence(current[t := 0], baseline, ln) == KLDivergence(current, baseline, ln)
    ensures RelativeChanges(current[t := 0], baseline) == RelativeChanges(current, baseline)
  {
    PadWithZero(current, t);
    assert current[t := 0].Keys + baseline.Keys == current.Keys + baseline.Keys;
    assert forall k :: Count(current[t := 0], k) == Count(current, k);
  }
}
