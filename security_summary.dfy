/** The security summary card of the dashboard (src/components/security/SecuritySummary.tsx): the
    three vulnerability counters, the compliance score over the per-framework statistics, its status
    text and the count of non-compliant policies. */
module SecuritySummary {
  import opened Wrappers
  import opened MathRound

  datatype Severity = Critical | High | Medium

  /** The `bySeverity` part of the vulnerability statistics; any of the three figures may be missing. */
  datatype SeverityCounts = SeverityCounts(critical: Option<nat>, high: Option<nat>, medium: Option<nat>)

  /** One row of the vulnerability summary. */
  datatype SecurityMetric = SecurityMetric(category: string, count: nat, severity: Severity)

  /** `vulnerabilityData`: critical, high and medium counts in that order; a count is 0 while there
      are no statistics or while the statistics lack that figure. */
  function VulnerabilityData(bySeverity: Option<SeverityCounts>): (rows: seq<SecurityMetric>)
    ensures |rows| == 3
    ensures rows[0].severity == Critical && rows[1].severity == High && rows[2].severity == Medium
    ensures bySeverity.None? ==> forall i :: 0 <= i < 3 ==> rows[i].count == 0
    ensures bySeverity.Some? ==> rows[0].count == OrZero(bySeverity.value.critical)
                                 && rows[1].count == OrZero(bySeverity.value.high)
                                 && rows[2].count == OrZero(bySeverity.value.medium)
  {
    var s := bySeverity.GetOr(SeverityCounts(None, None, None));
    [SecurityMetric("Critical Vulnerabilities", OrZero(s.critical), Critical),
     SecurityMetric("High Risk Issues", OrZero(s.high), High),
     SecurityMetric("Medium Risk Issues", OrZero(s.medium), Medium)]
  }

  /** One entry of `byFramework`; `compliant` and `nonCompliant` may be missing. */
  datatype FrameworkStats = FrameworkStats(total: nat, compliant: Option<nat>, nonCompliant: Option<nat>)

  /** `x || 0`. */
  function OrZero(x: Option<nat>): nat
  {
    x.GetOr(0)
  }

  /** The `reduce` sums, left to right. */
  function TotalControls(fs: seq<FrameworkStats>): nat
  {
    if fs == [] then 0 else TotalControls(fs[..|fs| - 1]) + fs[|fs| - 1].total
  }

  function CompliantControls(fs: seq<FrameworkStats>): nat
  {
    if fs == [] then 0 else CompliantControls(fs[..|fs| - 1]) + OrZero(fs[|fs| - 1].compliant)
  }

  function NonCompliantControls(fs: seq<FrameworkStats>): nat
  {
    if fs == [] then 0 else NonCompliantControls(fs[..|fs| - 1]) + OrZero(fs[|fs| - 1].nonCompliant)
  }

  /** `calculateComplianceScore`: 0 without frameworks or controls, otherwise the compliant share of
      all controls as a percentage rounded half up. */
  function ComplianceScore(byFramework: Option<seq<FrameworkStats>>): (r: int)
    ensures byFramework.None? || byFramework == Some([]) ==> r == 0
    ensures byFramework.Some? && TotalControls(byFramework.value) == 0 ==> r == 0
    ensures byFramework.Some? && TotalControls(byFramework.value) > 0 ==>
      var t, c := TotalControls(byFramework.value), CompliantControls(byFramework.value);
      2 * t * r - t <= 200 * c < 2 * t * r + t
  {
    if byFramework.None? || byFramework.value == [] then 0
    else
      var t := TotalControls(byFramework.value);
      if t > 0 then Round(100 * CompliantControls(byFramework.value), t) else 0
  }

  /** `calculateNonCompliantPolicies`. */
  function NonCompliantPolicies(byFramework: Option<seq<FrameworkStats>>): (r: nat)
    ensures byFramework.None? ==> r == 0
    ensures byFramework.Some? ==> r == NonCompliantControls(byFramework.value)
  {
    if byFramework.None? || byFramework.value == [] then 0 else NonCompliantControls(byFramework.value)
  }

  predicate WithinTotal(f: FrameworkStats)
  {
    OrZero(f.compliant) <= f.total
  }

  /** No more compliant controls than controls, summed. */
  lemma {:induction false} CompliantWithinTotal(fs: seq<FrameworkStats>)
    requires forall f :: f in fs ==> WithinTotal(f)
    ensures CompliantControls(fs) <= TotalControls(fs)
  {
    if fs != [] {
      assert fs[|fs| - 1] in fs;
      forall f | f in fs[..|fs| - 1] ensures WithinTotal(f) {
        assert f in fs;
      }
      CompliantWithinTotal(fs[..|fs| - 1]);
    }
  }

  /** When no framework claims more compliant controls than it has, the score is a percentage. */
  lemma ComplianceScoreBounds(fs: seq<FrameworkStats>)
    requires forall f :: f in fs ==> WithinTotal(f)
    ensures 0 <= ComplianceScore(Some(fs)) <= 100
  {
    var t := TotalControls(fs);
    if fs != [] && t > 0 {
      CompliantWithinTotal(fs);
      RoundMonotone(0, 100 * CompliantControls(fs), t);
      RoundMonotone(100 * CompliantControls(fs), 100 * t, t);
      RoundExact(0, t);
      RoundExact(100, t);
    }
  }

  predicate FullyCompliant(f: FrameworkStats)
  {
    f.compliant == Some(f.total)
  }

  lemma {:induction false} AllCompliantSums(fs: seq<FrameworkStats>)
    requires forall f :: f in fs ==> FullyCompliant(f)
    ensures CompliantControls(fs) == TotalControls(fs)
  {
    if fs != [] {
      assert fs[|fs| - 1] in fs;
      forall f | f in fs[..|fs| - 1] ensures FullyCompliant(f) {
        assert f in fs;
      }
      AllCompliantSums(fs[..|fs| - 1]);
    }
  }

  /** Frameworks whose every control is compliant score 100, as long as there are controls. */
  lemma AllCompliantScoresHundred(fs: seq<FrameworkStats>)
    requires forall f :: f in fs ==> FullyCompliant(f)
    requires TotalControls(fs) > 0
    ensures ComplianceScore(Some(fs)) == 100
  {
    AllCompliantSums(fs);
    RoundExact(100, TotalControls(fs));
  }

  /** A framework without a `compliant` or `nonCompliant` figure counts as one with 0. */
  lemma {:induction false} MissingCountsAsZero(fs: seq<FrameworkStats>, i: nat)
    requires i < |fs|
    ensures var g := fs[i := fs[i].(compliant := None, nonCompliant := None)];
      var h := fs[i := fs[i].(compliant := Some(0), nonCompliant := Some(0))];
      ComplianceScore(Some(g)) == ComplianceScore(Some(h)) && NonCompliantPolicies(Some(g)) == NonCompliantPolicies(Some(h))
  {
    var g := fs[i := fs[i].(compliant := None, nonCompliant := None)];
    var h := fs[i := fs[i].(compliant := Some(0), nonCompliant := Some(0))];
    SameSums(g, h);
  }

  lemma {:induction false} SameSums(g: seq<FrameworkStats>, h: seq<FrameworkStats>)
    requires |g| == |h|
    requires forall j :: 0 <= j < |g| ==> g[j].total == h[j].total && OrZero(g[j].compliant) == OrZero(h[j].compliant)
                                          && OrZero(g[j].nonCompliant) == OrZero(h[j].nonCompliant)
    ensures TotalControls(g) == TotalControls(h) && CompliantControls(g) == CompliantControls(h)
    ensures NonCompliantControls(g) == NonCompliantControls(h)
  {
    if g != [] {
      SameSums(g[..|g| - 1], h[..|h| - 1]);
    }
  }

  /** One more framework adds its own non-compliant figure. */
  lemma NonCompliantAppend(fs: seq<FrameworkStats>, f: FrameworkStats)
    ensures NonCompliantPolicies(Some(fs + [f])) == NonCompliantPolicies(Some(fs)) + OrZero(f.nonCompliant)
  {
    assert (fs + [f])[..|fs|] == fs;
  }

  /** `getComplianceStatusText`. */
  function ComplianceStatusText(score: int): (r: string)
    ensures r == "Excellent compliance status" <==> score >= 90
    ensures r == "Good compliance status" <==> 75 <= score < 90
    ensures r == "Needs improvement" <==> 60 <= score < 75
    ensures r == "Critical attention required" <==> score < 60
  {
    if score >= 90 then "Excellent compliance status"
    else if score >= 75 then "Good compliance status"
    else if score >= 60 then "Needs improvement"
    else "Critical attention required"
  }

  /** The wording after the non-compliant count. */
  function PoliciesWording(count: nat): (r: string)
    ensures r == "policy requires" <==> count == 1
    ensures r == "policies require" <==> count != 1
  {
    if count == 1 then "policy requires" else "policies require"
  }
}
