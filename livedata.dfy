/**
 * The live dashboard service's derivations: the secure score with its benchmarks, MFA
 * coverage, device compliance, the security-alert counts, the high-risk audit operations
 * and the permission flags of the combined dashboard. A fetch that is unavailable (no
 * directory client, or a call that raised) is `None` and yields the placeholder figures.
 */
module LiveData {
  import opened Wrappers
  import opened Seqs
  import opened Numeric
  import opened Text
  import Identity
  import Devices
  import Threats

  // ------------------------------------------------------------------ organisation size

  /** `_get_size_category`. */
  function SizeCategory(userCount: int): (r: string)
    ensures r == "Unknown" <==> userCount == 0
    ensures r == "Small (1-50)" <==> userCount != 0 && userCount <= 50
    ensures r == "Medium (51-250)" <==> 50 < userCount <= 250
    ensures r == "Large (251-1000)" <==> 250 < userCount <= 1000
    ensures r == "Enterprise (1000+)" <==> userCount > 1000
  {
    if userCount == 0 then "Unknown"
    else if userCount <= 50 then "Small (1-50)"
    else if userCount <= 250 then "Medium (51-250)"
    else if userCount <= 1000 then "Large (251-1000)"
    else "Enterprise (1000+)"
  }

  // ------------------------------------------------------------------ secure score

  /** One benchmark Microsoft reports beside the score. */
  datatype Comparison = Comparison(basis: string, averageScore: real)

  /** The fetched score; `licensedUserCount` is `None` when the key is absent. */
  datatype ScoreData = ScoreData(currentScore: real, maxScore: real, comparisons: seq<Comparison>, licensedUserCount: Option<int>)

  datatype Benchmark = Benchmark(averageScore: real, averagePercent: real, comparison: string, difference: real,
                                 sizeCategory: Option<string>)

  datatype Benchmarks = Benchmarks(yourScorePercent: real, allTenants: Option<Benchmark>, similarSize: Option<Benchmark>,
                                   industry: Option<Benchmark>, organizationSize: Option<int>)

  datatype LiveSecureScore = LiveSecureScore(currentScore: real, maxScore: real, scorePercent: real, percentile: nat,
                                             benchmarks: Benchmarks, isLive: bool)

  /** `round(value / max_score * 100, 1) if max_score > 0 else 0`. */
  function ScorePercent(value: real, maxScore: real): real {
    if maxScore > 0.0 then Round1(value / maxScore * 100.0) else 0.0
  }

  function CompareTo(current: real, average: real): string {
    if current > average then "above" else if current < average then "below" else "equal"
  }

  predicate IsAllTenantsBasis(c: Comparison) {
    Contains(Lower(c.basis), "alltenants") || Lower(c.basis) == "all"
  }

  predicate IsSizeBasis(c: Comparison) {
    !IsAllTenantsBasis(c) && (Contains(Lower(c.basis), "seat") || Contains(Lower(c.basis), "size"))
  }

  predicate IsIndustryBasis(c: Comparison) {
    !IsAllTenantsBasis(c) && !IsSizeBasis(c) && Contains(Lower(c.basis), "industry")
  }

  /** The last element that passes: the loop overwrites its slot on every match. */
  function LastWhere<T>(s: seq<T>, p: T -> bool): (r: Option<T>)
    ensures r.None? <==> forall x :: x in s ==> !p(x)
    ensures r.Some? ==> exists k :: 0 <= k < |s| && s[k] == r.value && p(s[k]) && forall j :: k < j < |s| ==> !p(s[j])
  {
    if s == [] then None
    else if p(s[|s| - 1]) then Some(s[|s| - 1])
    else
      var r := LastWhere(s[..|s| - 1], p);
      assert forall x :: x in s ==> x in s[..|s| - 1] || x == s[|s| - 1];
      r
  }

  lemma LastWhereStep<T>(s: seq<T>, p: T -> bool, i: nat)
    requires i < |s|
    ensures LastWhere(s[..i + 1], p) == if p(s[i]) then Some(s[i]) else LastWhere(s[..i], p)
  {
    assert s[..i + 1][..i] == s[..i];
  }

  function BenchmarkOf(data: ScoreData, c: Comparison, sizeCategory: Option<string>): Benchmark {
    var averagePercent := ScorePercent(c.averageScore, data.maxScore);
    Benchmark(c.averageScore, averagePercent, CompareTo(data.currentScore, c.averageScore),
      Round1(ScorePercent(data.currentScore, data.maxScore) - averagePercent), sizeCategory)
  }

  function BenchmarkFrom(data: ScoreData, found: Option<Comparison>, sizeCategory: Option<string>): Option<Benchmark> {
    if found.None? then None else Some(BenchmarkOf(data, found.value, sizeCategory))
  }

  function SizeOf(data: ScoreData): Option<string> { Some(SizeCategory(data.licensedUserCount.GetOr(0))) }

  function BenchmarksOf(data: ScoreData): Benchmarks {
    Benchmarks(ScorePercent(data.currentScore, data.maxScore),
      BenchmarkFrom(data, LastWhere(data.comparisons, IsAllTenantsBasis), None),
      BenchmarkFrom(data, LastWhere(data.comparisons, IsSizeBasis), SizeOf(data)),
      BenchmarkFrom(data, LastWhere(data.comparisons, IsIndustryBasis), None),
      data.licensedUserCount)
  }

  /** `_mock_secure_score`. */
  const PlaceholderScore: LiveSecureScore :=
    LiveSecureScore(0.0, 100.0, 0.0, 0, Benchmarks(0.0, None, None, None, None), false)

  function SecureScoreOf(fetched: Option<ScoreData>): LiveSecureScore {
    if fetched.None? then PlaceholderScore
    else
      var data := fetched.value;
      LiveSecureScore(data.currentScore, data.maxScore, ScorePercent(data.currentScore, data.maxScore), 0, BenchmarksOf(data), true)
  }

  /** `get_secure_score`: the percentage, then one pass over the comparisons filling the three benchmark slots. */
  method GetSecureScore(fetched: Option<ScoreData>) returns (r: LiveSecureScore)
    ensures r == SecureScoreOf(fetched)
  {
    if fetched.None? {
      return PlaceholderScore;
    }
    var data := fetched.value;
    var scorePercent := ScorePercent(data.currentScore, data.maxScore);
    var allTenants, similarSize, industry: Option<Benchmark> := None, None, None;
    var comparisons := data.comparisons;
    for i := 0 to |comparisons|
      invariant allTenants == BenchmarkFrom(data, LastWhere(comparisons[..i], IsAllTenantsBasis), None)
      invariant similarSize == BenchmarkFrom(data, LastWhere(comparisons[..i], IsSizeBasis), SizeOf(data))
      invariant industry == BenchmarkFrom(data, LastWhere(comparisons[..i], IsIndustryBasis), None)
    {
      LastWhereStep(comparisons, IsAllTenantsBasis, i);
      LastWhereStep(comparisons, IsSizeBasis, i);
      LastWhereStep(comparisons, IsIndustryBasis, i);
      var comp := comparisons[i];
      var bench := BenchmarkOf(data, comp, None);
      hide *;
      if IsAllTenantsBasis(comp) {
        allTenants := Some(bench);
      } else if IsSizeBasis(comp) {
        similarSize := Some(bench.(sizeCategory := SizeOf(data)));
      } else if IsIndustryBasis(comp) {
        industry := Some(bench);
      }
    }
    assert comparisons[..|comparisons|] == comparisons;
    r := LiveSecureScore(data.currentScore, data.maxScore, scorePercent, 0,
      Benchmarks(scorePercent, allTenants, similarSize, industry, data.licensedUserCount), true);
  }

  /**
   * A benchmark's verdict and difference agree: "above" exactly when the score beats the
   * average, and then the rounded difference of the percentages is not negative;
   * "below" the mirror image; "equal" with a zero difference.
   */
  lemma BenchmarkFacts(data: ScoreData, c: Comparison, sizeCategory: Option<string>)
    ensures var b := BenchmarkOf(data, c, sizeCategory);
      (b.comparison == "above" <==> data.currentScore > c.averageScore) &&
      (b.comparison == "below" <==> data.currentScore < c.averageScore) &&
      (b.comparison == "equal" <==> data.currentScore == c.averageScore) &&
      (b.comparison == "above" ==> b.difference >= 0.0) &&
      (b.comparison == "below" ==> b.difference <= 0.0) &&
      (b.comparison == "equal" ==> b.difference == 0.0) &&
      b.averagePercent == ScorePercent(c.averageScore, data.maxScore)
  {
    var cur, avg, m := data.currentScore, c.averageScore, data.maxScore;
    var b := BenchmarkOf(data, c, sizeCategory);
    assert b.comparison == CompareTo(cur, avg);
    assert b.difference == Round1(ScorePercent(cur, m) - ScorePercent(avg, m));
    assert b.averagePercent == ScorePercent(avg, m);
    hide *;
    CompareToVerdicts(cur, avg);
    DifferenceSign(cur, avg, m);
  }

  /** Each of the three verdicts holds exactly in its own case. */
  lemma CompareToVerdicts(cur: real, avg: real)
    ensures CompareTo(cur, avg) == "above" <==> cur > avg
    ensures CompareTo(cur, avg) == "below" <==> cur < avg
    ensures CompareTo(cur, avg) == "equal" <==> cur == avg
  {
  }

  /** The rounded difference of the percentages follows the order of the scores. */
  lemma DifferenceSign(cur: real, avg: real, m: real)
    ensures cur >= avg ==> Round1(ScorePercent(cur, m) - ScorePercent(avg, m)) >= 0.0
    ensures cur <= avg ==> Round1(ScorePercent(cur, m) - ScorePercent(avg, m)) <= 0.0
  {
    Round1Tenths(0);
    if m > 0.0 {
      if cur >= avg {
        assert cur / m * 100.0 >= avg / m * 100.0;
        Round1Monotone(avg / m * 100.0, cur / m * 100.0);
        Round1Monotone(0.0, ScorePercent(cur, m) - ScorePercent(avg, m));
      }
      if cur <= avg {
        assert cur / m * 100.0 <= avg / m * 100.0;
        Round1Monotone(cur / m * 100.0, avg / m * 100.0);
        Round1Monotone(ScorePercent(cur, m) - ScorePercent(avg, m), 0.0);
      }
    }
  }

  /**
   * The percentage is 0 without a positive maximum and within 0..100 for a score between
   * 0 and the maximum; a benchmark slot is filled exactly when some comparison has that
   * basis, from the last such comparison, and only the size slot carries a size category.
   */
  lemma SecureScoreFacts(data: ScoreData)
    ensures var s := SecureScoreOf(Some(data));
      s.isLive && s.percentile == 0 && s.benchmarks.yourScorePercent == s.scorePercent &&
      (data.maxScore <= 0.0 ==> s.scorePercent == 0.0) &&
      (0.0 <= data.currentScore <= data.maxScore ==> 0.0 <= s.scorePercent <= 100.0) &&
      (s.benchmarks.allTenants.Some? <==> exists c :: c in data.comparisons && IsAllTenantsBasis(c)) &&
      (s.benchmarks.similarSize.Some? <==> exists c :: c in data.comparisons && IsSizeBasis(c)) &&
      (s.benchmarks.industry.Some? <==> exists c :: c in data.comparisons && IsIndustryBasis(c)) &&
      (s.benchmarks.allTenants.Some? ==> s.benchmarks.allTenants.value.sizeCategory.None?) &&
      (s.benchmarks.similarSize.Some? ==> s.benchmarks.similarSize.value.sizeCategory == Some(SizeCategory(data.licensedUserCount.GetOr(0))))
    ensures SecureScoreOf(None).scorePercent == 0.0 && !SecureScoreOf(None).isLive
  {
    var cur, m := data.currentScore, data.maxScore;
    if 0.0 <= cur <= m && m > 0.0 {
      assert cur / m <= 1.0;
      Round1Percent(cur / m * 100.0);
    }
  }

  // ------------------------------------------------------------------ MFA coverage

  datatype LiveMfa = LiveMfa(totalUsers: nat, usersWithMfa: nat, userCoveragePercent: real,
                             totalAdmins: nat, adminsWithMfa: nat, adminCoveragePercent: real, isLive: bool)

  /** `_mock_mfa_coverage`: note that its admin coverage is 0, where live data without admins gives 100. */
  const PlaceholderMfa: LiveMfa := LiveMfa(0, 0, 0.0, 0, 0, 0.0, false)

  /** `get_mfa_coverage`. */
  function MfaCoverageOf(fetched: Option<seq<Identity.MfaRecord>>): LiveMfa {
    if fetched.None? then PlaceholderMfa
    else
      var users := fetched.value;
      var admins := Filter(users, Identity.IsAdmin);
      var usersWithMfa, adminsWithMfa := Count(users, Identity.Registered), Count(admins, Identity.Registered);
      LiveMfa(|users|, usersWithMfa, if |users| > 0 then Round1(Percent(usersWithMfa, |users|)) else 0.0,
        |admins|, adminsWithMfa, if |admins| > 0 then Round1(Percent(adminsWithMfa, |admins|)) else 100.0, true)
  }

  /**
   * On live data the dashboard reports exactly the figures of the identity collector,
   * whose counts nest and whose percentages lie in 0..100; the placeholder differs from
   * an admin-free live listing in its admin coverage (0 against 100).
   */
  lemma MfaCoverageAgrees(users: seq<Identity.MfaRecord>)
    ensures var live, collected := MfaCoverageOf(Some(users)), Identity.MfaCoverageOf(users);
      live.isLive &&
      live.totalUsers == collected.totalUsers && live.usersWithMfa == collected.usersWithMfa &&
      live.totalAdmins == collected.totalAdmins && live.adminsWithMfa == collected.adminsWithMfa &&
      live.userCoveragePercent == collected.userCoveragePercent &&
      live.adminCoveragePercent == collected.adminCoveragePercent &&
      live.adminsWithMfa <= live.totalAdmins <= live.totalUsers && live.usersWithMfa <= live.totalUsers &&
      0.0 <= live.userCoveragePercent <= 100.0 && 0.0 <= live.adminCoveragePercent <= 100.0
    ensures (forall u :: u in users ==> !u.isAdmin) ==> MfaCoverageOf(Some(users)).adminCoveragePercent == 100.0 != PlaceholderMfa.adminCoveragePercent
  {
    Round1Tenths(0);
    Round1Tenths(1000);
    Identity.MfaCoverageFacts(users);
    if forall u :: u in users ==> !u.isAdmin {
      CountNone(users, Identity.IsAdmin);
    }
  }

  // ------------------------------------------------------------------ device compliance

  datatype LiveDevices = LiveDevices(totalDevices: nat, compliantCount: nat, nonCompliantCount: nat, unknownCount: nat,
                                     compliancePercent: real, devices: seq<Devices.Device>, isLive: bool)

  const PlaceholderDevices: LiveDevices := LiveDevices(0, 0, 0, 0, 0.0, [], false)

  /** The dashboard compares the state text exactly, without lower-casing it. */
  predicate StateIs(state: string, d: Devices.Device) { d.complianceState == state }
  predicate ExactlyCompliant(d: Devices.Device) { StateIs("compliant", d) }
  predicate ExactlyNonCompliant(d: Devices.Device) { StateIs("noncompliant", d) }
  predicate OtherState(d: Devices.Device) { d.complianceState !in ["compliant", "noncompliant"] }

  /** `get_device_compliance`: the three counts, the percentage and the first twenty devices. */
  function DeviceComplianceOf(fetched: Option<seq<Devices.Device>>): LiveDevices {
    if fetched.None? then PlaceholderDevices
    else
      var devices := fetched.value;
      var compliant := Count(devices, ExactlyCompliant);
      LiveDevices(|devices|, compliant, Count(devices, ExactlyNonCompliant), Count(devices, OtherState),
        if |devices| > 0 then Round1(Percent(compliant, |devices|)) else 0.0, Take(devices, 20), true)
  }

  /**
   * The three counts partition the devices, the percentage lies in 0..100, the sample is
   * the first twenty devices; when every state is already lower-case the counts are the
   * device collector's.
   */
  lemma DeviceComplianceFacts(devices: seq<Devices.Device>)
    ensures var live := DeviceComplianceOf(Some(devices));
      live.compliantCount + live.nonCompliantCount + live.unknownCount == live.totalDevices == |devices| &&
      0.0 <= live.compliancePercent <= 100.0 &&
      |live.devices| <= 20 && live.devices == devices[..|live.devices|] && (|devices| <= 20 ==> live.devices == devices)
    ensures (forall d :: d in devices ==> Lower(d.complianceState) == d.complianceState) ==>
      var live, collected := DeviceComplianceOf(Some(devices)), Devices.DeviceComplianceOf(devices);
      live.compliantCount == collected.compliantCount && live.nonCompliantCount == collected.nonCompliantCount &&
      live.unknownCount == collected.unknownCount
  {
    var either := (d: Devices.Device) => ExactlyCompliant(d) || ExactlyNonCompliant(d);
    CountDisjoint(devices, ExactlyCompliant, ExactlyNonCompliant, either);
    CountComplement(devices, either, OtherState);
    Round1Tenths(0);
    if |devices| > 0 {
      PercentBounds(Count(devices, ExactlyCompliant), |devices|);
      Round1Percent(Percent(Count(devices, ExactlyCompliant), |devices|));
    }
    if forall d :: d in devices ==> Lower(d.complianceState) == d.complianceState {
      CountMono(devices, ExactlyCompliant, Devices.IsCompliant);
      CountMono(devices, Devices.IsCompliant, ExactlyCompliant);
      CountMono(devices, ExactlyNonCompliant, Devices.IsNonCompliant);
      CountMono(devices, Devices.IsNonCompliant, ExactlyNonCompliant);
      CountMono(devices, OtherState, Devices.IsUnknownState);
      CountMono(devices, Devices.IsUnknownState, OtherState);
    }
  }

  // ------------------------------------------------------------------ security alerts

  /** `normalize_severity`: the first of four levels that appears in the lower-cased text, or "informational". */
  function NormalizeSeverity(severity: string): string {
    var s := Lower(severity);
    if Contains(s, "critical") then "critical"
    else if Contains(s, "high") then "high"
    else if Contains(s, "medium") then "medium"
    else if Contains(s, "low") then "low"
    else "informational"
  }

  /** `is_active`: neither "resolved" nor "dismissed" appears in the lower-cased status. */
  predicate IsActiveStatus(status: string) {
    !Contains(Lower(status), "resolved") && !Contains(Lower(status), "dismissed")
  }

  predicate NormalizedIs(level: string, a: Threats.Alert) { NormalizeSeverity(a.severity) == level }
  predicate IsCritical(a: Threats.Alert) { NormalizedIs("critical", a) }
  predicate IsHigh(a: Threats.Alert) { NormalizedIs("high", a) }
  predicate IsMedium(a: Threats.Alert) { NormalizedIs("medium", a) }
  predicate IsLow(a: Threats.Alert) { NormalizedIs("low", a) }
  predicate IsInformational(a: Threats.Alert) { NormalizedIs("informational", a) }
  predicate LiveActive(a: Threats.Alert) { IsActiveStatus(a.status) }

  datatype LiveAlerts = LiveAlerts(totalAlerts: nat, activeAlerts: nat, criticalCount: nat, highCount: nat,
                                   mediumCount: nat, lowCount: nat, alerts: seq<Threats.Alert>, isLive: bool)

  const PlaceholderAlerts: LiveAlerts := LiveAlerts(0, 0, 0, 0, 0, 0, [], false)

  /** `get_security_alerts`: low and informational are reported together. */
  function SecurityAlertsOf(fetched: Option<seq<Threats.Alert>>): LiveAlerts {
    if fetched.None? then PlaceholderAlerts
    else
      var alerts := fetched.value;
      LiveAlerts(|alerts|, Count(alerts, LiveActive), Count(alerts, IsCritical), Count(alerts, IsHigh), Count(alerts, IsMedium),
        Count(alerts, IsLow) + Count(alerts, IsInformational), Take(alerts, 20), true)
  }

  /**
   * Normalisation picks the first level whose name occurs, case-insensitively, and falls
   * back to "informational" exactly when none occurs.
   */
  lemma NormalizeSeverityFacts(severity: string)
    ensures var s, r := Lower(severity), NormalizeSeverity(severity);
      r in ["critical", "high", "medium", "low", "informational"] &&
      (r == "critical" <==> Contains(s, "critical")) &&
      (r == "high" <==> !Contains(s, "critical") && Contains(s, "high")) &&
      (r == "medium" <==> !Contains(s, "critical") && !Contains(s, "high") && Contains(s, "medium")) &&
      (r == "low" <==> !Contains(s, "critical") && !Contains(s, "high") && !Contains(s, "medium") && Contains(s, "low")) &&
      (r == "informational" <==> !Contains(s, "critical") && !Contains(s, "high") && !Contains(s, "medium") && !Contains(s, "low"))
  {
  }

  /**
   * Every alert has exactly one normalised level, so the four reported counts add up to
   * the number of alerts; the active count is at most that and the sample holds the
   * first twenty alerts.
   */
  lemma SecurityAlertsFacts(alerts: seq<Threats.Alert>)
    ensures var live := SecurityAlertsOf(Some(alerts));
      live.criticalCount + live.highCount + live.mediumCount + live.lowCount == live.totalAlerts == |alerts| &&
      live.activeAlerts <= live.totalAlerts &&
      |live.alerts| <= 20 && live.alerts == alerts[..|live.alerts|]
  {
    var ch := (a: Threats.Alert) => IsCritical(a) || IsHigh(a);
    var chm := (a: Threats.Alert) => ch(a) || IsMedium(a);
    var li := (a: Threats.Alert) => IsLow(a) || IsInformational(a);
    var all := (a: Threats.Alert) => chm(a) || li(a);
    forall a | a in alerts ensures all(a) {
      assert IsCritical(a) || IsHigh(a) || IsMedium(a) || IsLow(a) || IsInformational(a);
    }
    hide NormalizeSeverity;
    CountDisjoint(alerts, IsCritical, IsHigh, ch);
    CountDisjoint(alerts, ch, IsMedium, chm);
    CountDisjoint(alerts, IsLow, IsInformational, li);
    CountDisjoint(alerts, chm, li, all);
    FilterAll(alerts, all);
  }

  /** A lower-case status contains itself once lower-cased, so it is closed if it names a closed state. */
  lemma LowerStatusClosed(s: string)
    requires forall i :: 0 <= i < |s| ==> 'a' <= s[i] <= 'z'
    requires s == "resolved" || s == "dismissed"
    ensures !IsActiveStatus(s)
  {
    LowerNoCapitals(s);
    ContainsSelf(s);
  }

  /** A status the threat collector treats as closed is closed for the dashboard too. */
  lemma ClosedStaysClosed(a: Threats.Alert)
    ensures LiveActive(a) ==> Threats.IsActive(a)
  {
    if !Threats.IsActive(a) {
      var s := a.status;
      assert s == "resolved" || s == "dismissed";
      assert forall i :: 0 <= i < |s| ==> 'a' <= s[i] <= 'z';
      LowerStatusClosed(s);
    }
  }

  /**
   * The dashboard's substring test treats every status the threat collector treats as
   * closed as closed too, so it never counts more active alerts than the collector.
   */
  lemma LiveActiveWithinCollector(alerts: seq<Threats.Alert>)
    ensures SecurityAlertsOf(Some(alerts)).activeAlerts <= Count(alerts, Threats.IsActive)
  {
    forall a | a in alerts ensures LiveActive(a) ==> Threats.IsActive(a) {
      ClosedStaysClosed(a);
    }
    hide LiveActive, Threats.IsActive;
    CountMono(alerts, LiveActive, Threats.IsActive);
  }

  // ------------------------------------------------------------------ high-risk operations

  /** A directory audit entry; the category may be unset. */
  datatype AuditLog = AuditLog(id: Option<string>, activity: string, category: Option<string>, result: string,
                               initiatedBy: string, timestamp: Option<string>)

  const HighRiskCategories: set<string> := {"RoleManagement", "Policy", "ApplicationManagement", "UserManagement"}

  const HighRiskActivities: seq<string> := [
    "add member to role",
    "update conditional access policy",
    "delete conditional access policy",
    "disable conditional access policy",
    "consent to application",
    "add service principal",
    "delete user",
    "reset user password",
    "update application"
  ]

  predicate InHighRiskCategory(log: AuditLog) { log.category.Some? && log.category.value in HighRiskCategories }

  predicate IsHighRiskOperation(log: AuditLog) {
    InHighRiskCategory(log) || ContainsAny(Lower(log.activity), HighRiskActivities)
  }

  datatype HighRiskOperations = HighRiskOperations(total: nat, operations: seq<AuditLog>, isLive: bool)

  const PlaceholderOperations: HighRiskOperations := HighRiskOperations(0, [], false)

  function HighRiskOperationsOf(fetched: Option<seq<AuditLog>>): HighRiskOperations {
    if fetched.None? then PlaceholderOperations
    else
      var kept := Filter(fetched.value, IsHighRiskOperation);
      HighRiskOperations(|kept|, Take(kept, 20), true)
  }

  /** `get_high_risk_operations`: one pass keeping the risky entries, then the first twenty of them. */
  method GetHighRiskOperations(fetched: Option<seq<AuditLog>>) returns (r: HighRiskOperations)
    ensures r == HighRiskOperationsOf(fetched)
  {
    if fetched.None? {
      return PlaceholderOperations;
    }
    var logs := fetched.value;
    var riskyOps: seq<AuditLog> := [];
    for i := 0 to |logs|
      invariant riskyOps == Filter(logs[..i], IsHighRiskOperation)
    {
      FilterStep(logs, IsHighRiskOperation, i);
      var log := logs[i];
      var activity := Lower(log.activity);
      if (log.category.Some? && log.category.value in HighRiskCategories) || ContainsAny(activity, HighRiskActivities) {
        riskyOps := riskyOps + [log];
      }
    }
    assert logs[..|logs|] == logs;
    r := HighRiskOperations(|riskyOps|, Take(riskyOps, 20), true);
  }

  /**
   * The total counts every risky entry; the operations are the first twenty of them in
   * log order; an entry is risky exactly when its category is listed or its lower-cased
   * activity mentions a listed activity.
   */
  lemma HighRiskOperationsFacts(logs: seq<AuditLog>)
    ensures var r := HighRiskOperationsOf(Some(logs));
      r.total == Count(logs, IsHighRiskOperation) && |r.operations| == MinInt(20, r.total) &&
      r.operations == Filter(logs, IsHighRiskOperation)[..|r.operations|] &&
      (forall x :: x in r.operations ==> x in logs && IsHighRiskOperation(x)) &&
      (r.total <= 20 ==> forall x :: x in logs && IsHighRiskOperation(x) ==> x in r.operations)
  {
    hide IsHighRiskOperation;
    var kept := Filter(logs, IsHighRiskOperation);
    forall x | x in Take(kept, 20) ensures x in logs && IsHighRiskOperation(x) {
      FilterMembers(logs, IsHighRiskOperation, x);
    }
    forall x | x in logs && IsHighRiskOperation(x) && |kept| <= 20 ensures x in Take(kept, 20) {
      FilterMembers(logs, IsHighRiskOperation, x);
    }
  }

  // ------------------------------------------------------------------ permission flags

  /** A fetch as `asyncio.gather(..., return_exceptions=True)` delivers it. */
  datatype Outcome<T> = Raised(error: string) | Returned(value: T)

  /** `safe_get`'s value: the default in place of an exception. */
  function SafeValue<T>(result: Outcome<T>, default: T): T {
    if result.Raised? then default else result.value
  }

  /** `safe_get`'s effect on the flags: a live result sets its flag. */
  function Tracked<T>(status: map<string, bool>, key: string, result: Outcome<T>, isLive: T -> bool): map<string, bool> {
    if result.Returned? && isLive(result.value) then status[key := true] else status
  }

  /** `safe_get`: hand back the result or the default, and record a live result in the flags. */
  method SafeGet<T>(result: Outcome<T>, default: T, isLive: T -> bool, key: string, status: map<string, bool>)
    returns (value: T, status': map<string, bool>)
    ensures value == SafeValue(result, default)
    ensures status' == Tracked(status, key, result, isLive)
  {
    status' := status;
    if result.Raised? {
      return default, status';
    }
    if isLive(result.value) {
      status' := status'[key := true];
    }
    value := result.value;
  }

  const PermissionKeys: seq<string> := ["secure_score", "mfa_registration", "identity_protection", "directory_roles",
                                        "conditional_access", "intune_devices", "security_alerts", "users"]

  /** Every flag starts false. */
  function InitialStatus(): map<string, bool> {
    map k | k in PermissionKeys :: false
  }

  /** The flags after `safe_get` has run over the results in turn, each with its key. */
  function TrackAll<T>(status: map<string, bool>, keys: seq<string>, results: seq<Outcome<T>>, isLive: T -> bool): map<string, bool>
    requires |keys| == |results|
    decreases |keys|
  {
    if keys == [] then status
    else TrackAll(Tracked(status, keys[0], results[0], isLive), keys[1..], results[1..], isLive)
  }

  /**
   * Starting from flags over the keys, tracking each key's result once keeps the keys and
   * sets a flag exactly when it was already set or the key's result is live.
   */
  lemma {:induction false} TrackAllFacts<T>(status: map<string, bool>, keys: seq<string>, results: seq<Outcome<T>>, isLive: T -> bool)
    requires |keys| == |results| && Distinct(keys) && forall k :: k in keys ==> k in status
    ensures TrackAll(status, keys, results, isLive).Keys == status.Keys
    ensures forall i :: 0 <= i < |keys| ==>
      (TrackAll(status, keys, results, isLive)[keys[i]] <==> status[keys[i]] || (results[i].Returned? && isLive(results[i].value)))
    ensures forall k :: k in status && k !in keys ==> TrackAll(status, keys, results, isLive)[k] == status[k]
    decreases |keys|
  {
    if keys != [] {
      var next := Tracked(status, keys[0], results[0], isLive);
      DistinctTail(keys);
      TrackAllFacts(next, keys[1..], results[1..], isLive);
      forall i | 0 <= i < |keys|
        ensures TrackAll(status, keys, results, isLive)[keys[i]] <==> status[keys[i]] || (results[i].Returned? && isLive(results[i].value))
      {
        if i > 0 {
          assert keys[i] == keys[1..][i - 1] && results[i] == results[1..][i - 1];
          assert keys[i] != keys[0];
        }
      }
    }
  }

  /** The dashboard's flags: one per data source, true exactly when that source's result came back live. */
  lemma PermissionStatusFacts<T>(results: seq<Outcome<T>>, isLive: T -> bool)
    requires |results| == |PermissionKeys|
    ensures var status := TrackAll(InitialStatus(), PermissionKeys, results, isLive);
      status.Keys == (set k | k in PermissionKeys) &&
      forall i :: 0 <= i < |PermissionKeys| ==> (status[PermissionKeys[i]] <==> results[i].Returned? && isLive(results[i].value))
  {
    assert Distinct(PermissionKeys);
    TrackAllFacts(InitialStatus(), PermissionKeys, results, isLive);
  }

  /**
   * The second look at the users result sets nothing new: its value is the result or a
   * default that is not live, and a live result has already set the flag.
   */
  lemma UsersRecheckRedundant<T>(status: map<string, bool>, result: Outcome<T>, default: T, isLive: T -> bool)
    requires !isLive(default)
    ensures var after := Tracked(status, "users", result, isLive);
      isLive(SafeValue(result, default)) ==> "users" in after && after == after["users" := true]
  {
  }
}
