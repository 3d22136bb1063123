/** The risk score of the dashboard's vulnerabilities tab
    (src/components/agents/tabs/VulnerabilitiesTab.tsx): a weighted share of the declared total,
    critical findings weighing 10, high 7, medium 4 and low 1. */
module VulnerabilitiesTab {
  import opened MathRound

  datatype VulnerabilityCounts = VulnerabilityCounts(total: nat, critical: nat, high: nat, medium: nat, low: nat)

  /** The weighted sum of the findings. */
  function Weight(v: VulnerabilityCounts): nat
  {
    10 * v.critical + 7 * v.high + 4 * v.medium + v.low
  }

  /** `calculateRiskScore`: 0 for a total of 0, otherwise the weighted sum as a percentage of ten
      points per declared finding, rounded half up. */
  function RiskScore(v: VulnerabilityCounts): (r: int)
    ensures v.total == 0 ==> r == 0
    ensures v.total > 0 ==> 2 * v.total * r - v.total <= 20 * Weight(v) < 2 * v.total * r + v.total
  {
    if v.total == 0 then 0 else Round(100 * Weight(v), 10 * v.total)
  }

  /** When the four counts add up to the total, the score is a percentage. */
  lemma RiskScoreBounds(v: VulnerabilityCounts)
    requires v.critical + v.high + v.medium + v.low == v.total
    ensures 0 <= RiskScore(v) <= 100
  {
    if v.total > 0 {
      RoundMonotone(0, 100 * Weight(v), 10 * v.total);
      RoundMonotone(100 * Weight(v), 100 * (10 * v.total), 10 * v.total);
      RoundExact(0, 10 * v.total);
      RoundExact(100, 10 * v.total);
    }
  }

  /** Only critical findings give 100, only low ones 10. */
  lemma RiskScoreExtremes(n: nat)
    requires n > 0
    ensures RiskScore(VulnerabilityCounts(n, n, 0, 0, 0)) == 100
    ensures RiskScore(VulnerabilityCounts(n, 0, 0, 0, n)) == 10
  {
    RoundExact(100, 10 * n);
    RoundExact(10, 10 * n);
  }

  /** The score divides by the declared total, not by the sum of the counts: counts above the total
      push it past 100. */
  lemma RiskScoreCanExceedHundred()
    ensures RiskScore(VulnerabilityCounts(1, 2, 0, 0, 0)) == 200
  {
    RoundExact(200, 10);
  }

  /** For a fixed total, one more finding of any severity never lowers the score. */
  lemma RiskScoreMonotone(v: VulnerabilityCounts, w: VulnerabilityCounts)
    requires v.total == w.total
    requires v.critical <= w.critical && v.high <= w.high && v.medium <= w.medium && v.low <= w.low
    ensures RiskScore(v) <= RiskScore(w)
  {
    if v.total > 0 {
      RoundMonotone(100 * Weight(v), 100 * Weight(w), 10 * v.total);
    }
  }
}
