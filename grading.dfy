/** Letter grades and the weighted security score of an assessment snapshot. */
module Grading {
  import opened Wrappers
  import opened Text
  import opened Numeric
  import opened Seqs
  import opened Snapshot

  const GradeLetters: seq<string> := ["A", "B", "C", "D", "F"]

  /** `calculate_grade`: the letter for a 0-100 score. */
  function CalculateGrade(score: real): (g: string)
    ensures g in GradeLetters
    ensures g == "A" <==> 90.0 <= score
    ensures g == "B" <==> 75.0 <= score < 90.0
    ensures g == "C" <==> 60.0 <= score < 75.0
    ensures g == "D" <==> 40.0 <= score < 60.0
    ensures g == "F" <==> score < 40.0
  {
    if score >= 90.0 then "A"
    else if score >= 75.0 then "B"
    else if score >= 60.0 then "C"
    else if score >= 40.0 then "D"
    else "F"
  }

  /** Position of a letter from best (A, 0) to worst (F, 4). */
  function GradeRank(g: string): nat {
    if g == "A" then 0 else if g == "B" then 1 else if g == "C" then 2 else if g == "D" then 3 else 4
  }

  /** A higher score never earns a worse letter. */
  lemma GradeMonotone(s: real, t: real)
    requires s <= t
    ensures GradeRank(CalculateGrade(t)) <= GradeRank(CalculateGrade(s))
  {
  }

  /** `get_grade_description`. */
  function GradeDescription(g: string): (d: string)
    ensures d == "Unknown" <==> g !in GradeLetters
  {
    if g == "A" then "Excellent - Industry leading security posture"
    else if g == "B" then "Good - Above average with minor improvements needed"
    else if g == "C" then "Fair - Meets minimum standards but has gaps"
    else if g == "D" then "Poor - Significant security gaps requiring attention"
    else if g == "F" then "Critical - Immediate action required to address vulnerabilities"
    else "Unknown"
  }

  // ---------------------------------------------------------------- overall score

  const SecureScoreWeight: real := 0.30

  /** The category weights, in the order `calculate_overall_score` adds them. */
  function CategoryWeights(): seq<(string, real)> {
    [("identity", 0.25), ("data_protection", 0.15), ("backup", 0.15), ("devices", 0.10), ("network", 0.05)]
  }

  /** `category_scores.get(category, 50)`. */
  function CategoryOr(cats: map<string, real>, category: string): real {
    if category in cats then cats[category] else 50.0
  }

  /** The contribution of one weighted category. */
  function WeightedTerm(cats: map<string, real>): ((string, real)) -> real {
    (w: (string, real)) => CategoryOr(cats, w.0) * w.1
  }

  /** The weighted sum before clamping, written out term by term. */
  function WeightedScore(secure: real, cats: map<string, real>): real {
    0.30 * secure + 0.25 * CategoryOr(cats, "identity") + 0.15 * CategoryOr(cats, "data_protection")
    + 0.15 * CategoryOr(cats, "backup") + 0.10 * CategoryOr(cats, "devices") + 0.05 * CategoryOr(cats, "network")
  }

  /** The overall score: the weighted sum clamped to 0..100. */
  function OverallScore(secure: real, cats: map<string, real>): (r: real)
    ensures 0.0 <= r <= 100.0
    ensures 0.0 <= WeightedScore(secure, cats) <= 100.0 ==> r == WeightedScore(secure, cats)
  {
    Clamp(0.0, 100.0, WeightedScore(secure, cats))
  }

  /** Summing the weight table term by term gives the written-out weighted sum. */
  lemma {:induction false} WeightTableSum(secure: real, cats: map<string, real>)
    ensures SecureScoreWeight * secure + SumOf(CategoryWeights(), WeightedTerm(cats)) == WeightedScore(secure, cats)
  {
    var f := WeightedTerm(cats);
    var w := CategoryWeights();
    assert w[..0] == [];
    SumOfStep(w, f, 0);
    SumOfStep(w, f, 1);
    SumOfStep(w, f, 2);
    SumOfStep(w, f, 3);
    SumOfStep(w, f, 4);
    assert w[..5] == w;
  }

  function WeightOf(w: (string, real)): real { w.1 }

  /** The six weights sum to one. */
  lemma WeightsSumToOne()
    ensures SecureScoreWeight + SumOf(CategoryWeights(), WeightOf) == 1.0
  {
    var w := CategoryWeights();
    var f := WeightOf;
    assert w[..0] == [];
    SumOfStep(w, f, 0);
    SumOfStep(w, f, 1);
    SumOfStep(w, f, 2);
    SumOfStep(w, f, 3);
    SumOfStep(w, f, 4);
    assert w[..5] == w;
  }

  /** With every input within 0..100 the weighted sum needs no clamping. */
  lemma OverallNeedsNoClamp(secure: real, cats: map<string, real>)
    requires 0.0 <= secure <= 100.0
    requires forall k :: k in cats ==> 0.0 <= cats[k] <= 100.0
    ensures 0.0 <= WeightedScore(secure, cats) <= 100.0
    ensures OverallScore(secure, cats) == WeightedScore(secure, cats)
  {
  }

  /** Raising the secure score or any category score never lowers the overall score. */
  lemma OverallMonotone(s: real, a: map<string, real>, t: real, b: map<string, real>)
    requires s <= t
    requires forall w :: w in CategoryWeights() ==> CategoryOr(a, w.0) <= CategoryOr(b, w.0)
    ensures OverallScore(s, a) <= OverallScore(t, b)
  {
    assert CategoryWeights()[0] in CategoryWeights() && CategoryWeights()[1] in CategoryWeights();
    assert CategoryWeights()[2] in CategoryWeights() && CategoryWeights()[3] in CategoryWeights();
    assert CategoryWeights()[4] in CategoryWeights();
  }

  /** `calculate_overall_score`: the loop over the weight table. */
  method CalculateOverallScore(secure: real, cats: map<string, real>) returns (r: real)
    ensures r == OverallScore(secure, cats)
    ensures 0.0 <= r <= 100.0
  {
    hide CategoryWeights;
    var weighted := secure * SecureScoreWeight;
    var weights := CategoryWeights();
    for i := 0 to |weights|
      invariant weighted == secure * SecureScoreWeight + SumOf(weights[..i], WeightedTerm(cats))
    {
      var (category, weight) := weights[i];
      SumOfStep(weights, WeightedTerm(cats), i);
      hide *;
      weighted := weighted + CategoryOr(cats, category) * weight;
    }
    assert weights[..|weights|] == weights;
    WeightTableSum(secure, cats);
    assert OverallScore(secure, cats) == Clamp(0.0, 100.0, weighted);
    r := Min(100.0, Max(0.0, weighted));
  }

  // ---------------------------------------------------------------- identity

  function MfaPoints(adminPercent: real, userPercent: real): real {
    (adminPercent * 0.6 + userPercent * 0.4) * 0.40
  }

  /** Points for the number of Global Administrators (2-4 is ideal). */
  function GlobalAdminPoints(n: int): (p: real)
    ensures p == 30.0 || p == 20.0 || p == 10.0 || p == 0.0
  {
    if n <= 4 then 30.0 else if n <= 6 then 20.0 else if n <= 10 then 10.0 else 0.0
  }

  function HighRiskPoints(n: int): (p: real)
    ensures p == 20.0 || p == 10.0 || p == 0.0
  {
    if n == 0 then 20.0 else if n <= 2 then 10.0 else 0.0
  }

  function ConditionalAccessPoints(enabled: nat): (p: real)
    ensures p == 10.0 || p == 7.0 || p == 4.0 || p == 0.0
  {
    if enabled >= 5 then 10.0 else if enabled >= 3 then 7.0 else if enabled >= 1 then 4.0 else 0.0
  }

  function IsEnabledState(state: Option<string>): bool {
    state == Some("enabled")
  }

  /** The number of conditional access policies whose state is `"enabled"`. */
  function EnabledPolicies(d: IdentityData): nat {
    Count(d.policyStates, IsEnabledState)
  }

  /** `_calculate_identity_score`: absent MFA figures count as 0, absent counts as 0. */
  function IdentityScore(d: IdentityData): (r: real)
    ensures 0.0 <= r <= 100.0
  {
    Clamp(0.0, 100.0,
      MfaPoints(d.adminCoverage.GetOr(0.0), d.userCoverage.GetOr(0.0))
      + GlobalAdminPoints(d.globalAdminCount.GetOr(0))
      + HighRiskPoints(d.highRiskCount.GetOr(0))
      + ConditionalAccessPoints(EnabledPolicies(d)))
  }

  /** The admin and risk bands never reward a larger count; the policy band never penalises more policies. */
  lemma IdentityBandsMonotone(m: int, n: int, p: nat, q: nat)
    requires m <= n && p <= q
    ensures GlobalAdminPoints(n) <= GlobalAdminPoints(m)
    ensures 0 <= m ==> HighRiskPoints(n) <= HighRiskPoints(m)
    ensures ConditionalAccessPoints(p) <= ConditionalAccessPoints(q)
  {
  }

  /** Full MFA coverage, at most four Global Administrators, no high-risk users and five enabled policies score 100. */
  lemma IdentityPerfect(d: IdentityData)
    requires d.adminCoverage == Some(100.0) && d.userCoverage == Some(100.0)
    requires d.globalAdminCount.GetOr(0) <= 4 && d.highRiskCount.GetOr(0) == 0
    requires EnabledPolicies(d) >= 5
    ensures IdentityScore(d) == 100.0
  {
  }

  /** A failed identity collection scores 50: no MFA points, full admin and risk points, no policy points. */
  lemma IdentityOfFailedCollection(raw: RawData, message: string)
    requires IdentityKey in raw && raw[IdentityKey] == ErrorSentinel(message)
    ensures IdentityScore(IdentityOf(raw)) == 50.0
  {
    assert IdentityOf(raw) == NoIdentity;
    NoIdentityScore();
  }

  /** With nothing collected only the two "no admins" and "no risky users" bands score: 30 + 20. */
  lemma NoIdentityScore()
    ensures IdentityScore(NoIdentity) == 50.0
  {
    assert EnabledPolicies(NoIdentity) == 0;
    ClampInside(0.0, 100.0, 50.0);
  }

  // ---------------------------------------------------------------- data protection and network

  const DataKeywords: seq<string> := ["encrypt", "dlp", "data", "information", "classification"]
  const NetworkKeywords: seq<string> := ["network", "firewall", "nsg", "vpn", "gateway"]

  /** `any(k in (c.get("name", "") or "").lower() for k in keywords)`. */
  function MentionsAny(keywords: seq<string>): ScoreControl -> bool {
    (c: ScoreControl) => ContainsAny(Lower(c.name.GetOr("")), keywords)
  }

  /** `c.get("score", 0) or 0`. */
  function EarnedPoints(c: ScoreControl): real { c.score.GetOr(0.0) }

  /** `c.get("max_score", 0) or 0`. */
  function MaxPoints(c: ScoreControl): real { c.maxScore.GetOr(0.0) }

  /** The controls whose lowercased name mentions one of the keywords, in their order. */
  function Selected(controls: seq<ScoreControl>, keywords: seq<string>): seq<ScoreControl> {
    Filter(controls, MentionsAny(keywords))
  }

  /**
   * Earned over possible points of the matching controls, as a percentage (not clamped),
   * or the fallback when nothing matches or nothing can be earned.
   */
  function KeywordScore(controls: seq<ScoreControl>, keywords: seq<string>, fallback: real): (r: real)
    ensures Selected(controls, keywords) == [] ==> r == fallback
  {
    var sel := Selected(controls, keywords);
    if sel == [] then fallback
    else
      var possible := SumOf(sel, MaxPoints);
      if possible == 0.0 then fallback else SumOf(sel, EarnedPoints) / possible * 100.0
  }

  /** Controls that never earn more than they allow, nor less than nothing. */
  predicate WellFormedControls(cs: seq<ScoreControl>) {
    forall i :: 0 <= i < |cs| ==> 0.0 <= EarnedPoints(cs[i]) <= MaxPoints(cs[i])
  }

  lemma {:induction false} SumsOrdered(cs: seq<ScoreControl>)
    requires WellFormedControls(cs)
    ensures 0.0 <= SumOf(cs, EarnedPoints) <= SumOf(cs, MaxPoints)
  {
    if cs != [] {
      var init := cs[..|cs| - 1];
      assert WellFormedControls(init) by {
        forall i | 0 <= i < |init| ensures 0.0 <= EarnedPoints(init[i]) <= MaxPoints(init[i]) {
          assert init[i] == cs[i];
        }
      }
      SumsOrdered(init);
    }
  }

  /** With well-formed controls and a fallback within 0..100, the score is a percentage. */
  lemma KeywordScoreBounds(controls: seq<ScoreControl>, keywords: seq<string>, fallback: real)
    requires WellFormedControls(controls)
    requires 0.0 <= fallback <= 100.0
    ensures 0.0 <= KeywordScore(controls, keywords, fallback) <= 100.0
  {
    var sel := Selected(controls, keywords);
    assert WellFormedControls(sel) by {
      forall i | 0 <= i < |sel| ensures 0.0 <= EarnedPoints(sel[i]) <= MaxPoints(sel[i]) {
        FilterMembers(controls, MentionsAny(keywords), sel[i]);
        assert sel[i] in controls;
      }
    }
    SumsOrdered(sel);
    var earned, possible := SumOf(sel, EarnedPoints), SumOf(sel, MaxPoints);
    if sel != [] && possible != 0.0 {
      assert earned / possible <= 1.0;
    }
  }

  /** The loop of `_calculate_data_protection_score` and `_calculate_network_score`. */
  method ControlKeywordScore(controls: seq<ScoreControl>, keywords: seq<string>, fallback: real) returns (r: real)
    ensures r == KeywordScore(controls, keywords, fallback)
  {
    var sel := Selected(controls, keywords);
    if sel == [] {
      return fallback;
    }
    var totalScore, totalMax := 0.0, 0.0;
    for i := 0 to |sel|
      invariant totalScore == SumOf(sel[..i], EarnedPoints)
      invariant totalMax == SumOf(sel[..i], MaxPoints)
    {
      SumOfStep(sel, EarnedPoints, i);
      SumOfStep(sel, MaxPoints, i);
      totalScore := totalScore + EarnedPoints(sel[i]);
      totalMax := totalMax + MaxPoints(sel[i]);
    }
    assert sel[..|sel|] == sel;
    if totalMax == 0.0 {
      return fallback;
    }
    r := totalScore / totalMax * 100.0;
  }

  /** `_calculate_data_protection_score`: falls back to 60. */
  function DataProtectionScore(d: SecureScoreData): real {
    KeywordScore(d.controls, DataKeywords, 60.0)
  }

  /** `_calculate_network_score`: falls back to 70. */
  function NetworkScore(d: SecureScoreData): real {
    KeywordScore(d.controls, NetworkKeywords, 70.0)
  }

  // ---------------------------------------------------------------- backup and devices

  /** RTO or RPO points: healthy 25, warning 15, at risk 5, anything else 0. */
  function RecoveryPoints(status: string): (p: real)
    ensures p == 25.0 || p == 15.0 || p == 5.0 || p == 0.0
    ensures p != 0.0 <==> status in ["healthy", "warning", "at_risk"]
  {
    if status == "healthy" then 25.0
    else if status == "warning" then 15.0
    else if status == "at_risk" then 5.0
    else 0.0
  }

  /** `_calculate_backup_score`. */
  function BackupScore(d: BackupData): (r: real)
    ensures 0.0 <= r <= 100.0
    ensures d.healthStatus == Some("not_configured") ==> r == 0.0
  {
    if d.healthStatus == Some("not_configured") then 0.0
    else Clamp(0.0, 100.0,
      d.protectedPercent.GetOr(0.0) * 0.50
      + RecoveryPoints(d.rtoStatus.GetOr("unknown"))
      + RecoveryPoints(d.rpoStatus.GetOr("unknown")))
  }

  /** A configured backup with full coverage and both objectives healthy scores 100. */
  lemma BackupPerfect(d: BackupData)
    requires d.healthStatus != Some("not_configured")
    requires d.protectedPercent == Some(100.0)
    requires d.rtoStatus == Some("healthy") && d.rpoStatus == Some("healthy")
    ensures BackupScore(d) == 100.0
  {
  }

  /** `_calculate_device_score`: the compliance percentage as collected (not clamped), 50 when absent. */
  function DeviceScore(d: DeviceData): (r: real)
    ensures d.compliancePercent.Some? ==> r == d.compliancePercent.value
    ensures d.compliancePercent.None? ==> r == 50.0
  {
    d.compliancePercent.GetOr(50.0)
  }

  // ---------------------------------------------------------------- categories

  const CategoryNames: set<string> := {"identity", "data_protection", "backup", "devices", "network"}

  /** The category dictionary built from its five entries. */
  function CategoryMap(identity: real, dataProtection: real, backup: real, devices: real, network: real): (cats: map<string, real>)
    ensures cats.Keys == CategoryNames
    ensures cats["identity"] == identity && cats["data_protection"] == dataProtection
    ensures cats["backup"] == backup && cats["devices"] == devices && cats["network"] == network
  {
    map["identity" := identity, "data_protection" := dataProtection, "backup" := backup,
        "devices" := devices, "network" := network]
  }

  /**
   * `calculate_category_scores`: one entry per weighted category. Identity and backup land
   * within 0..100; data protection and network both read the secure score controls.
   */
  function CategoryScores(raw: RawData): (cats: map<string, real>)
    ensures cats.Keys == CategoryNames
    ensures 0.0 <= cats["identity"] <= 100.0 && 0.0 <= cats["backup"] <= 100.0
    ensures cats["data_protection"] == KeywordScore(SecureScoreOf(raw).controls, DataKeywords, 60.0)
    ensures cats["network"] == KeywordScore(SecureScoreOf(raw).controls, NetworkKeywords, 70.0)
    ensures cats["devices"] == DeviceScore(DevicesOf(raw))
  {
    CategoryMap(IdentityScore(IdentityOf(raw)), DataProtectionScore(SecureScoreOf(raw)),
      BackupScore(BackupOf(raw)), DeviceScore(DevicesOf(raw)), NetworkScore(SecureScoreOf(raw)))
  }

  // ---------------------------------------------------------------- compliance

  /** `calculate_compliance_score`: pass ratio minus 5 points per critical failure, at most 25. */
  function ComplianceScore(passed: int, total: int, criticalFailures: int): (r: real)
    ensures r >= 0.0
    ensures total == 0 ==> r == 0.0
    ensures 0 <= passed <= total && total > 0 && criticalFailures >= 0 ==> r <= 100.0
  {
    if total == 0 then 0.0
    else
      var base := Percent(passed, total);
      var penalty := Min(25.0, (criticalFailures * 5) as real);
      assert 0 <= passed <= total ==> base <= 100.0 by {
        if 0 <= passed <= total && total > 0 { PercentBounds(passed, total); }
      }
      Max(0.0, base - penalty)
  }

  /** Without critical failures the score is the plain pass ratio; the penalty never exceeds 25. */
  lemma ComplianceScorePenalty(passed: int, total: int, criticalFailures: int)
    requires 0 <= passed <= total && total > 0 && criticalFailures >= 0
    ensures criticalFailures == 0 ==> ComplianceScore(passed, total, criticalFailures) == Percent(passed, total)
    ensures ComplianceScore(passed, total, criticalFailures) >= Percent(passed, total) - 25.0
  {
    PercentBounds(passed, total);
  }
}
