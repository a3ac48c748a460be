/**
 * The reports API: the dashboard dictionary turned into the executive-summary inputs
 * (scores, findings, compliance results), the CSV export, the report identifiers the
 * generate and status endpoints exchange, and the choice of download response.
 */
module ReportRoutes {
  import opened Wrappers
  import opened Text
  import opened Numeric
  import opened Seqs
  import Grading

  // ---------------------------------------------------------------- tenants

  const DemoTenants: set<string> := {"demo", "acme-corp", "globex", "initech"}

  /** `is_real_tenant`: every tenant except the demo ones, compared in lower case. */
  predicate IsRealTenant(tenantId: string) {
    Lower(tenantId) !in DemoTenants
  }

  /** Upper-casing first does not change the lower-case form. */
  lemma LowerUpper(s: string)
    ensures Lower(Upper(s)) == Lower(s)
  {
    assert forall i :: 0 <= i < |s| ==> LowerChar(UpperChar(s[i])) == LowerChar(s[i]);
  }

  /**
   * The demo check ignores case: a tenant id, its lower case and its upper case are all
   * real or all demo, and the demo tenants are exactly the four names in any case.
   */
  lemma IsRealTenantIgnoresCase(tenantId: string)
    ensures IsRealTenant(Lower(tenantId)) == IsRealTenant(tenantId)
    ensures IsRealTenant(Upper(tenantId)) == IsRealTenant(tenantId)
    ensures !IsRealTenant(tenantId) <==>
      Lower(tenantId) == "demo" || Lower(tenantId) == "acme-corp" || Lower(tenantId) == "globex" || Lower(tenantId) == "initech"
  {
    LowerIdempotent(tenantId);
    LowerUpper(tenantId);
  }

  /** The customer name on a PDF report: the tenant id itself, or the demo organisation. */
  function TenantName(tenantId: string): (name: string)
    ensures IsRealTenant(tenantId) ==> name == tenantId
    ensures !IsRealTenant(tenantId) ==> name == "Demo Organization"
  {
    if IsRealTenant(tenantId) then tenantId else "Demo Organization"
  }

  // ---------------------------------------------------------------- the dashboard

  /**
   * One entry of `security_alerts.alerts`; every key may be missing, and the title and
   * the description may also be present with a null value.
   */
  datatype Alert = Alert(id: Option<string>, title: Entry, description: Entry, severity: Option<string>)

  /**
   * The dashboard dictionary: its numeric sections (`secure_score`, `mfa_coverage`,
   * `device_compliance`, `security_alerts`, `risky_users`, `privileged_accounts`) by name,
   * and the list `security_alerts.alerts` (empty when missing).
   */
  datatype Dashboard = Dashboard(sections: map<string, map<string, real>>, alerts: seq<Alert>)

  /** `data.get(section, {}).get(key, default)`. */
  function Field(d: Dashboard, section: string, key: string, default: real): real {
    if section in d.sections && key in d.sections[section] then d.sections[section][key] else default
  }

  /** A dashboard without any section or alert. */
  const EmptyDashboard: Dashboard := Dashboard(map[], [])

  /** How Python renders a number: `str(x)` for `{x}` and `format(x, ".1f")` for `{x:.1f}`. */
  datatype NumberFormat = NumberFormat(show: real -> string, fixed1: real -> string)

  // ---------------------------------------------------------------- scores

  /** `current / max_score * 100` when the maximum is positive, else 0. */
  function DashboardPercent(current: real, maxScore: real): real {
    if maxScore > 0.0 then current / maxScore * 100.0 else 0.0
  }

  /** The report's letter bands, which are not those of the grading module. */
  function ReportGrade(percent: real): (g: string)
    ensures g in Grading.GradeLetters
    ensures g == "A" <==> 90.0 <= percent
    ensures g == "B" <==> 80.0 <= percent < 90.0
    ensures g == "C" <==> 70.0 <= percent < 80.0
    ensures g == "D" <==> 60.0 <= percent < 70.0
    ensures g == "F" <==> percent < 60.0
  {
    if percent >= 90.0 then "A"
    else if percent >= 80.0 then "B"
    else if percent >= 70.0 then "C"
    else if percent >= 60.0 then "D"
    else "F"
  }

  /** The `scores` dictionary handed to the PDF generator. */
  datatype Scores = Scores(
    overallGrade: string, overallScore: int, secureScore: real,
    identity: real, devices: real, data: real, apps: real, infrastructure: real,
    soc2: real, iso27001: real)

  function CurrentScore(d: Dashboard): real { Field(d, "secure_score", "current_score", 0.0) }
  function MaxScore(d: Dashboard): real { Field(d, "secure_score", "max_score", 100.0) }

  /** `_build_scores_from_dashboard`. */
  function ScoresFromDashboard(d: Dashboard): Scores {
    var percent := DashboardPercent(CurrentScore(d), MaxScore(d));
    Scores(ReportGrade(percent), Trunc(percent), CurrentScore(d),
      Field(d, "mfa_coverage", "user_coverage_percent", 0.0),
      Field(d, "device_compliance", "compliance_percent", 0.0),
      75.0, 80.0, 70.0, 78.0, 72.0)
  }

  /** `current / max * 100 >= t` is `current >= t / 100 * max` for a positive maximum. */
  lemma PercentAtLeast(current: real, maxScore: real, t: real)
    requires maxScore > 0.0
    ensures DashboardPercent(current, maxScore) >= t <==> current >= t / 100.0 * maxScore
  {
    var p := DashboardPercent(current, maxScore);
    assert p * maxScore == current * 100.0;
    if p >= t {
      assert p * maxScore >= t * maxScore;
    } else {
      assert p * maxScore < t * maxScore;
    }
  }

  /** Truncation of a non-negative percent is its whole part. */
  lemma TruncNonNegative(x: real)
    requires x >= 0.0
    ensures 0 <= Trunc(x) && Trunc(x) as real <= x < Trunc(x) as real + 1.0
  {
  }

  /**
   * The grade and the whole-number score follow the share of the maximum that the current
   * score reaches; a missing or non-positive maximum gives F and 0; a score between 0 and
   * its positive maximum gives a whole score between 0 and 100; the categories carry the
   * MFA and device percentages (0 when missing) and the fixed placeholders.
   */
  lemma ScoresFacts(d: Dashboard)
    ensures var s := ScoresFromDashboard(d);
      var cur := CurrentScore(d);
      var mx := MaxScore(d);
      && (mx > 0.0 ==> (s.overallGrade == "A" <==> cur >= 0.9 * mx))
      && (mx > 0.0 ==> (s.overallGrade == "F" <==> cur < 0.6 * mx))
      && (mx <= 0.0 ==> s.overallGrade == "F" && s.overallScore == 0)
      && (0.0 <= cur <= mx && mx > 0.0 ==> 0 <= s.overallScore <= 100)
      && s.secureScore == cur
      && (s.data, s.apps, s.infrastructure, s.soc2, s.iso27001) == (75.0, 80.0, 70.0, 78.0, 72.0)
  {
    var cur := CurrentScore(d);
    var mx := MaxScore(d);
    var p := DashboardPercent(cur, mx);
    if mx > 0.0 {
      PercentAtLeast(cur, mx, 90.0);
      PercentAtLeast(cur, mx, 60.0);
      if 0.0 <= cur <= mx {
        PercentAtLeast(cur, mx, 0.0);
        assert p <= 100.0 by {
          assert p * mx == cur * 100.0;
          assert cur * 100.0 <= mx * 100.0;
        }
        TruncNonNegative(p);
      }
    }
  }

  /** With no data at all: grade F, score 0, zero identity and device categories. */
  lemma EmptyDashboardScores()
    ensures ScoresFromDashboard(EmptyDashboard) == Scores("F", 0, 0.0, 0.0, 0.0, 75.0, 80.0, 70.0, 78.0, 72.0)
  {
    assert CurrentScore(EmptyDashboard) == 0.0;
    assert MaxScore(EmptyDashboard) == 100.0;
  }

  /**
   * The report's bands are never more lenient than the grading module's: on any percent
   * its letter is the same or worse, and at 78 they differ (C here, B there).
   */
  lemma ReportScaleStricter(percent: real)
    ensures Grading.GradeRank(Grading.CalculateGrade(percent)) <= Grading.GradeRank(ReportGrade(percent))
    ensures ReportGrade(78.0) == "C" && Grading.CalculateGrade(78.0) == "B"
  {
  }

  // ---------------------------------------------------------------- findings

  /** The fixed texts the findings are built from. */
  datatype Phrase =
    | AlertUnknownId | AlertTitle | ThreatDetection | AlertRecommendation | Identity
    | MfaGapId | MfaGapTitle | MfaGapUsers | MfaGapSuffix | MfaGapRecommendation
    | GlobalAdminsId | GlobalAdminsTitle | GlobalAdminsSuffix | GlobalAdminsRecommendation
    | RiskyUsersId | RiskyUsersSuffix | RiskyUsersDescription | RiskyUsersRecommendation

  function Say(p: Phrase): string {
    match p
    case AlertUnknownId => "alert-unknown"
    case AlertTitle => "Security Alert"
    case ThreatDetection => "Threat Detection"
    case AlertRecommendation => "Investigate and remediate this alert."
    case Identity => "Identity"
    case MfaGapId => "finding-mfa-gap"
    case MfaGapTitle => "MFA Coverage Gap"
    case MfaGapUsers => " users ("
    case MfaGapSuffix => "%) do not have MFA registered."
    case MfaGapRecommendation => "Enforce MFA registration for all users via Conditional Access policies."
    case GlobalAdminsId => "finding-global-admins"
    case GlobalAdminsTitle => "Excessive Global Administrators"
    case GlobalAdminsSuffix => " accounts have Global Administrator privileges. Best practice is 2-4."
    case GlobalAdminsRecommendation => "Reduce Global Admin count and use PIM for just-in-time elevation."
    case RiskyUsersId => "finding-risky-users"
    case RiskyUsersSuffix => " High-Risk Users Detected"
    case RiskyUsersDescription => "Identity Protection has flagged users with high risk levels."
    case RiskyUsersRecommendation => "Investigate risky users immediately and require password reset or MFA."
  }

  /** One entry of the `findings` list handed to the PDF generator; a `None` title or description is a null one. */
  datatype Finding = Finding(id: string, title: Option<string>, description: Option<string>, severity: string, category: string, recommendation: string)

  /** An alert's severity as a finding carries it: lower-cased, "medium" when missing, "informational" read as "low". */
  function AlertSeverity(a: Alert): (s: string)
    ensures s != "informational"
    ensures Lower(a.severity.GetOr("medium")) != "informational" ==> s == Lower(a.severity.GetOr("medium"))
    ensures s == "low" <==> Lower(a.severity.GetOr("medium")) in {"low", "informational"}
    ensures a.severity.None? ==> s == "medium"
    ensures forall i :: 0 <= i < |s| ==> !('A' <= s[i] <= 'Z')
  {
    var s := Lower(a.severity.GetOr("medium"));
    if s == "informational" then "low" else s
  }

  /** The finding one alert becomes. */
  function AlertFinding(a: Alert): Finding {
    Finding(a.id.GetOr(Say(AlertUnknownId)), a.title.Get(Say(AlertTitle)), a.description.Get(""),
      AlertSeverity(a), Say(ThreatDetection), Say(AlertRecommendation))
  }

  /** `alerts[:10]`: the alerts that become findings. */
  function ReportedAlerts(d: Dashboard): (r: seq<Alert>)
    ensures |r| <= 10 && |r| <= |d.alerts| && r == d.alerts[..|r|]
    ensures |d.alerts| <= 10 ==> r == d.alerts
  {
    Take(d.alerts, 10)
  }

  function UserCoverage(d: Dashboard): real { Field(d, "mfa_coverage", "user_coverage_percent", 100.0) }
  function GlobalAdmins(d: Dashboard): real { Field(d, "privileged_accounts", "global_admin_count", 0.0) }
  function HighRisk(d: Dashboard): real { Field(d, "risky_users", "high_risk_count", 0.0) }

  function MfaGapFinding(d: Dashboard, fmt: NumberFormat): Finding {
    var gap := Field(d, "mfa_coverage", "total_users", 0.0) - Field(d, "mfa_coverage", "users_with_mfa", 0.0);
    Finding(Say(MfaGapId), Some(Say(MfaGapTitle)),
      Some(fmt.show(gap) + Say(MfaGapUsers) + fmt.fixed1(100.0 - UserCoverage(d)) + Say(MfaGapSuffix)),
      if UserCoverage(d) < 70.0 then "high" else "medium", Say(Identity), Say(MfaGapRecommendation))
  }

  function GlobalAdminFinding(d: Dashboard, fmt: NumberFormat): Finding {
    Finding(Say(GlobalAdminsId), Some(Say(GlobalAdminsTitle)), Some(fmt.show(GlobalAdmins(d)) + Say(GlobalAdminsSuffix)),
      if GlobalAdmins(d) > 10.0 then "high" else "medium", Say(Identity), Say(GlobalAdminsRecommendation))
  }

  function RiskyUsersFinding(d: Dashboard, fmt: NumberFormat): Finding {
    Finding(Say(RiskyUsersId), Some(fmt.show(HighRisk(d)) + Say(RiskyUsersSuffix)), Some(Say(RiskyUsersDescription)),
      "critical", Say(Identity), Say(RiskyUsersRecommendation))
  }

  /** The identity findings' ids are distinct. */
  lemma IdentityIdsDistinct()
    ensures Say(MfaGapId) != Say(GlobalAdminsId) && Say(MfaGapId) != Say(RiskyUsersId) && Say(GlobalAdminsId) != Say(RiskyUsersId)
  {
    assert Say(MfaGapId)[8] == 'm' && Say(GlobalAdminsId)[8] == 'g' && Say(RiskyUsersId)[8] == 'r';
  }

  /** The findings the dashboard's identity data adds after the alerts, in the source's order. */
  function ExtraFindings(d: Dashboard, fmt: NumberFormat): seq<Finding> {
    (if UserCoverage(d) < 90.0 then [MfaGapFinding(d, fmt)] else [])
    + (if GlobalAdmins(d) > 5.0 then [GlobalAdminFinding(d, fmt)] else [])
    + (if HighRisk(d) > 0.0 then [RiskyUsersFinding(d, fmt)] else [])
  }

  /** `_build_findings_from_dashboard` as a value: the alert findings, then the extra ones. */
  function FindingsOf(d: Dashboard, fmt: NumberFormat): seq<Finding> {
    MapSeq(ReportedAlerts(d), AlertFinding) + ExtraFindings(d, fmt)
  }

  /** `_build_findings_from_dashboard`: one finding per reported alert, then the conditional ones. */
  method BuildFindings(d: Dashboard, fmt: NumberFormat) returns (findings: seq<Finding>)
    ensures findings == FindingsOf(d, fmt)
  {
    hide Say, MfaGapFinding, GlobalAdminFinding, RiskyUsersFinding, AlertFinding;
    var alerts := ReportedAlerts(d);
    findings := [];
    var i := 0;
    while i < |alerts|
      invariant 0 <= i <= |alerts|
      invariant findings == MapSeq(alerts[..i], AlertFinding)
    {
      MapSeqStep(alerts, AlertFinding, i);
      findings := findings + [AlertFinding(alerts[i])];
      i := i + 1;
    }
    assert alerts[..i] == alerts;
    var extra: seq<Finding> := [];
    if UserCoverage(d) < 90.0 {
      extra := extra + [MfaGapFinding(d, fmt)];
    }
    if GlobalAdmins(d) > 5.0 {
      extra := extra + [GlobalAdminFinding(d, fmt)];
    }
    if HighRisk(d) > 0.0 {
      extra := extra + [RiskyUsersFinding(d, fmt)];
    }
    findings := findings + extra;
  }

  /** How many findings a dashboard yields: the reported alerts plus one per triggered rule, at most 13. */
  lemma FindingsCount(d: Dashboard, fmt: NumberFormat)
    ensures |FindingsOf(d, fmt)| == |ReportedAlerts(d)|
      + (if UserCoverage(d) < 90.0 then 1 else 0)
      + (if GlobalAdmins(d) > 5.0 then 1 else 0)
      + (if HighRisk(d) > 0.0 then 1 else 0)
    ensures |FindingsOf(d, fmt)| <= 13
  {
    hide Say;
  }

  /**
   * The first findings are the first ten alerts, in order: each keeps its alert's id
   * ("alert-unknown" when missing), its title ("Security Alert" when missing) and its
   * description ("" when missing), a null title or description staying null; it is
   * filed under threat detection and never has the severity "informational", which
   * becomes "low" in any letter case.
   */
  lemma AlertFindingsFacts(d: Dashboard, fmt: NumberFormat)
    ensures var f := FindingsOf(d, fmt);
      forall i :: 0 <= i < |ReportedAlerts(d)| ==>
        && f[i].id == d.alerts[i].id.GetOr(Say(AlertUnknownId))
        && (d.alerts[i].title.Absent? ==> f[i].title == Some(Say(AlertTitle)))
        && (d.alerts[i].title.Null? <==> f[i].title.None?)
        && (d.alerts[i].title.Text? ==> f[i].title == Some(d.alerts[i].title.text))
        && (d.alerts[i].description.Absent? ==> f[i].description == Some(""))
        && (d.alerts[i].description.Null? <==> f[i].description.None?)
        && (d.alerts[i].description.Text? ==> f[i].description == Some(d.alerts[i].description.text))
        && f[i].category == Say(ThreatDetection)
        && f[i].severity != "informational"
        && (Lower(d.alerts[i].severity.GetOr("medium")) == "informational" ==> f[i].severity == "low")
  {
    var f := FindingsOf(d, fmt);
    var r := ReportedAlerts(d);
    hide Say, ExtraFindings;
    assert forall i :: 0 <= i < |r| ==> f[i] == AlertFinding(r[i]) && r[i] == d.alerts[i];
  }

  /** The findings after the alerts are exactly the extra ones. */
  lemma ExtraFindingsSplit(d: Dashboard, fmt: NumberFormat)
    ensures FindingsOf(d, fmt)[|ReportedAlerts(d)|..] == ExtraFindings(d, fmt)
  {
    hide Say, AlertFinding, ExtraFindings;
  }

  /** Every finding after the alerts is one of the three identity findings, filed under identity. */
  lemma ExtraFindingsMembers(d: Dashboard, fmt: NumberFormat)
    ensures forall f :: f in ExtraFindings(d, fmt) ==>
      f == MfaGapFinding(d, fmt) || f == GlobalAdminFinding(d, fmt) || f == RiskyUsersFinding(d, fmt)
    ensures MfaGapFinding(d, fmt) in ExtraFindings(d, fmt) <==> UserCoverage(d) < 90.0
    ensures GlobalAdminFinding(d, fmt) in ExtraFindings(d, fmt) <==> GlobalAdmins(d) > 5.0
    ensures RiskyUsersFinding(d, fmt) in ExtraFindings(d, fmt) <==> HighRisk(d) > 0.0
    ensures forall f :: f in ExtraFindings(d, fmt) ==> f.category == Say(Identity)
  {
    IdentityIdsDistinct();
    hide Say;
    assert MfaGapFinding(d, fmt) != GlobalAdminFinding(d, fmt) && MfaGapFinding(d, fmt) != RiskyUsersFinding(d, fmt);
    assert GlobalAdminFinding(d, fmt) != RiskyUsersFinding(d, fmt);
  }

  /**
   * The MFA-gap finding follows the findings of the alerts exactly when user coverage is
   * below 90 (100 when missing), and it is high exactly below 70, else medium.
   */
  lemma MfaGapFindingFacts(d: Dashboard, fmt: NumberFormat)
    ensures var e := ExtraFindings(d, fmt);
      && ((exists f :: f in e && f.id == Say(MfaGapId)) <==> UserCoverage(d) < 90.0)
      && (forall f :: f in e && f.id == Say(MfaGapId) ==>
            (f.severity == "high" <==> UserCoverage(d) < 70.0) && (f.severity == "medium" <==> UserCoverage(d) >= 70.0))
  {
    ExtraFindingsMembers(d, fmt);
    IdentityIdsDistinct();
    hide Say, ExtraFindings;
  }

  /**
   * The global-admin finding follows the findings of the alerts exactly when there are
   * more than 5 global admins, and it is high exactly above 10, else medium.
   */
  lemma GlobalAdminFindingFacts(d: Dashboard, fmt: NumberFormat)
    ensures var e := ExtraFindings(d, fmt);
      && ((exists f :: f in e && f.id == Say(GlobalAdminsId)) <==> GlobalAdmins(d) > 5.0)
      && (forall f :: f in e && f.id == Say(GlobalAdminsId) ==>
            (f.severity == "high" <==> GlobalAdmins(d) > 10.0) && (f.severity == "medium" <==> GlobalAdmins(d) <= 10.0))
  {
    ExtraFindingsMembers(d, fmt);
    IdentityIdsDistinct();
    hide Say, ExtraFindings;
  }

  /**
   * A critical finding follows the findings of the alerts exactly when some user is at
   * high risk, and it is the risky-users finding.
   */
  lemma RiskyUsersFindingFacts(d: Dashboard, fmt: NumberFormat)
    ensures var e := ExtraFindings(d, fmt);
      && ((exists f :: f in e && f.severity == "critical") <==> HighRisk(d) > 0.0)
      && (forall f :: f in e && f.severity == "critical" ==> f.id == Say(RiskyUsersId))
  {
    ExtraFindingsMembers(d, fmt);
    hide Say, ExtraFindings;
  }

  // ---------------------------------------------------------------- compliance results

  /** One framework's entry of the `compliance_results` dictionary. */
  datatype FrameworkResult = FrameworkResult(
    name: string, version: string, score: real,
    total: nat, passed: nat, failed: nat, partial: nat, failedControls: seq<string>)

  datatype ComplianceResults = ComplianceResults(cis: FrameworkResult, soc2: FrameworkResult)

  const MfaControl: string := "1.1.1 - MFA for all users"
  const DeviceControl: string := "5.1.1 - Device compliance policy"

  /** The failed CIS controls: the MFA control, then the device control, each when its percent is below 90 (0 when missing). */
  function CisFailed(d: Dashboard): seq<string> {
    (if Field(d, "mfa_coverage", "user_coverage_percent", 0.0) >= 90.0 then [] else [MfaControl])
    + (if Field(d, "device_compliance", "compliance_percent", 0.0) >= 90.0 then [] else [DeviceControl])
  }

  /** `_build_compliance_results`. */
  function ComplianceResultsOf(d: Dashboard): ComplianceResults {
    ComplianceResults(
      FrameworkResult("CIS Azure Benchmark", "2.0", 75.0, 100, 75, 15, 10, CisFailed(d)),
      FrameworkResult("SOC 2 Type II", "2017", 78.0, 50, 39, 6, 5, []))
  }

  /**
   * The CIS failed list names the MFA control exactly when user coverage is below 90 and
   * the device control exactly when device compliance is below 90, a missing value read
   * as 0; nothing else is listed, SOC 2 lists nothing, and each framework's passed, failed
   * and partial counts add up to its total.
   */
  lemma ComplianceFacts(d: Dashboard)
    ensures var r := ComplianceResultsOf(d);
      && (MfaControl in r.cis.failedControls <==> Field(d, "mfa_coverage", "user_coverage_percent", 0.0) < 90.0)
      && (DeviceControl in r.cis.failedControls <==> Field(d, "device_compliance", "compliance_percent", 0.0) < 90.0)
      && (forall c :: c in r.cis.failedControls ==> c == MfaControl || c == DeviceControl)
      && |r.cis.failedControls| <= 2
      && r.soc2.failedControls == []
      && r.cis.passed + r.cis.failed + r.cis.partial == r.cis.total
      && r.soc2.passed + r.soc2.failed + r.soc2.partial == r.soc2.total
  {
    assert MfaControl != DeviceControl by {
      assert MfaControl[0] != DeviceControl[0];
    }
  }

  /**
   * The findings and the compliance results read a missing MFA coverage differently: a
   * dashboard without MFA data yields no MFA-gap finding, yet lists the MFA control as failed.
   */
  lemma MissingCoverageDisagrees(d: Dashboard, fmt: NumberFormat)
    requires "mfa_coverage" !in d.sections
    ensures !(exists f :: f in ExtraFindings(d, fmt) && f.id == Say(MfaGapId))
    ensures MfaControl in ComplianceResultsOf(d).cis.failedControls
  {
    MfaGapFindingFacts(d, fmt);
    ComplianceFacts(d);
  }

  // ---------------------------------------------------------------- CSV export

  /** One CSV row of four cells. */
  function Row(metric: string, value: string, details: string, updated: string): string {
    metric + "," + value + "," + details + "," + updated
  }

  /** The header line `Metric,Value,Details,Last Updated`, built as the row of its four cell names. */
  function CsvHeader(): string { Row("Metric", "Value", "Details", "Last Updated") }

  /** The metric named in the first cell of each row, in order. */
  function CsvMetrics(): (m: seq<string>)
    ensures |m| == 7
  {
    ["Security Score", "MFA Coverage (Users)", "MFA Coverage (Admins)", "Device Compliance",
     "Active Alerts", "Risky Users", "Global Admins"]
  }

  /** `{section.get(key, 0)}` as CSV text. */
  function Cell(d: Dashboard, fmt: NumberFormat, section: string, key: string): string {
    fmt.show(Field(d, section, key, 0.0))
  }

  /** `{part}/{whole} noun`. */
  function Ratio(d: Dashboard, fmt: NumberFormat, section: string, part: string, whole: string, noun: string): string {
    Cell(d, fmt, section, part) + "/" + Cell(d, fmt, section, whole) + " " + noun
  }

  /** The second cell of each row. */
  function CsvValues(d: Dashboard, fmt: NumberFormat): (v: seq<string>)
    ensures |v| == 7
  {
    [ Cell(d, fmt, "secure_score", "current_score"),
      Cell(d, fmt, "mfa_coverage", "user_coverage_percent") + "%",
      Cell(d, fmt, "mfa_coverage", "admin_coverage_percent") + "%",
      Cell(d, fmt, "device_compliance", "compliance_percent") + "%",
      Cell(d, fmt, "security_alerts", "active_alerts"),
      Cell(d, fmt, "risky_users", "total_risky"),
      Cell(d, fmt, "privileged_accounts", "global_admin_count") ]
  }

  /** The third cell of each row; the security score's maximum defaults to 100. */
  function CsvDetails(d: Dashboard, fmt: NumberFormat): (v: seq<string>)
    ensures |v| == 7
  {
    [ "Max: " + fmt.show(MaxScore(d)),
      Ratio(d, fmt, "mfa_coverage", "users_with_mfa", "total_users", "users"),
      Ratio(d, fmt, "mfa_coverage", "admins_with_mfa", "total_admins", "admins"),
      Ratio(d, fmt, "device_compliance", "compliant_count", "total_devices", "devices"),
      "Critical: " + Cell(d, fmt, "security_alerts", "critical_count") + " High: " + Cell(d, fmt, "security_alerts", "high_count"),
      "High: " + Cell(d, fmt, "risky_users", "high_risk_count") + " Medium: " + Cell(d, fmt, "risky_users", "medium_risk_count"),
      "Privileged Roles: " + Cell(d, fmt, "privileged_accounts", "privileged_role_count") ]
  }

  /** The lines of `_generate_csv_report`: the header, then one row per metric stamped with the time. */
  function CsvLines(d: Dashboard, fmt: NumberFormat, timestamp: string): seq<string> {
    [CsvHeader()] + seq(7, i requires 0 <= i < 7 =>
      Row(CsvMetrics()[i], CsvValues(d, fmt)[i], CsvDetails(d, fmt)[i], timestamp))
  }

  /** `_generate_csv_report`: the lines joined by newlines. */
  function CsvReport(d: Dashboard, fmt: NumberFormat, timestamp: string): string {
    Join(CsvLines(d, fmt, timestamp), '\n')
  }

  /** A row starts with its metric cell and ends with its last cell. */
  lemma RowEnds(metric: string, value: string, details: string, updated: string)
    ensures StartsWith(Row(metric, value, details, updated), metric + ",")
    ensures EndsWith(Row(metric, value, details, updated), "," + updated)
  {
    var r := Row(metric, value, details, updated);
    assert r == (metric + ",") + (value + "," + details + "," + updated);
    assert r == (metric + "," + value + "," + details) + ("," + updated);
    assert r[..|metric + ","|] == metric + ",";
    assert r[|r| - |"," + updated|..] == "," + updated;
  }

  /** A row is its four cells joined by commas. */
  lemma RowJoins(metric: string, value: string, details: string, updated: string)
    ensures Join([metric, value, details, updated], ',') == Row(metric, value, details, updated)
  {
    var cells := [metric, value, details, updated];
    assert cells[1..] == [value, details, updated];
    assert [value, details, updated][1..] == [details, updated];
    assert [details, updated][1..] == [updated];
    assert Join([updated], ',') == updated;
    var j2 := Join([details, updated], ',');
    assert j2 == details + [','] + updated;
    var j3 := Join([value, details, updated], ',');
    assert j3 == value + [','] + j2;
    assert Join(cells, ',') == metric + [','] + j3;
  }

  /** A row splits back into its four cells when none of them holds a comma. */
  lemma RowCells(metric: string, value: string, details: string, updated: string)
    requires ',' !in metric && ',' !in value && ',' !in details && ',' !in updated
    ensures Split(Row(metric, value, details, updated), ',') == [metric, value, details, updated]
  {
    RowJoins(metric, value, details, updated);
    hide Row, Join;
    SplitJoin([metric, value, details, updated], ',');
  }

  /** The metric names hold no line break. */
  lemma MetricsUnbroken()
    ensures forall k :: 0 <= k < 7 ==> '\n' !in CsvMetrics()[k]
  {
  }

  /** The header holds no line break. */
  lemma HeaderUnbroken()
    ensures '\n' !in CsvHeader()
  {
  }

  /** The metric names hold no comma. */
  lemma MetricsCommaFree()
    ensures forall k :: 0 <= k < 7 ==> ',' !in CsvMetrics()[k]
  {
  }

  /** The header names the four cells of every row. */
  lemma HeaderCells()
    ensures Split(CsvHeader(), ',') == ["Metric", "Value", "Details", "Last Updated"]
  {
    RowCells("Metric", "Value", "Details", "Last Updated");
  }

  /** A comma or control character no rendered number holds is in no value cell. */
  lemma ValuesFree(d: Dashboard, fmt: NumberFormat, c: char)
    requires c < ' ' || c == ','
    requires forall x :: c !in fmt.show(x)
    ensures forall k :: 0 <= k < 7 ==> c !in CsvValues(d, fmt)[k]
  {
    hide Field;
  }

  /** A comma or control character no rendered number holds is in no details cell. */
  lemma DetailsFree(d: Dashboard, fmt: NumberFormat, c: char)
    requires c < ' ' || c == ','
    requires forall x :: c !in fmt.show(x)
    ensures forall k :: 0 <= k < 7 ==> c !in CsvDetails(d, fmt)[k]
  {
    hide Field, MaxScore;
  }

  /** Every row starts with its metric and ends with the timestamp; how many lines there are. */
  lemma CsvLinesShape(d: Dashboard, fmt: NumberFormat, timestamp: string)
    ensures var lines := CsvLines(d, fmt, timestamp);
      && |lines| == 8
      && lines[0] == CsvHeader()
      && forall i :: 1 <= i < 8 ==>
           StartsWith(lines[i], CsvMetrics()[i - 1] + ",") && EndsWith(lines[i], "," + timestamp)
  {
    var lines := CsvLines(d, fmt, timestamp);
    hide CsvHeader, CsvMetrics, CsvValues, CsvDetails, Row;
    forall i | 1 <= i < 8
      ensures StartsWith(lines[i], CsvMetrics()[i - 1] + ",") && EndsWith(lines[i], "," + timestamp)
    {
      RowEnds(CsvMetrics()[i - 1], CsvValues(d, fmt)[i - 1], CsvDetails(d, fmt)[i - 1], timestamp);
    }
  }

  /**
   * The report is the header and seven metric rows on separate lines: when no rendered
   * number and not the timestamp holds a line break, splitting the report on line breaks
   * gives back exactly those eight lines.
   */
  lemma CsvReportLines(d: Dashboard, fmt: NumberFormat, timestamp: string)
    requires forall x :: '\n' !in fmt.show(x)
    requires '\n' !in timestamp
    ensures Split(CsvReport(d, fmt, timestamp), '\n') == CsvLines(d, fmt, timestamp)
    ensures |Split(CsvReport(d, fmt, timestamp), '\n')| == 8
  {
    var lines := CsvLines(d, fmt, timestamp);
    MetricsUnbroken();
    HeaderUnbroken();
    ValuesFree(d, fmt, '\n');
    DetailsFree(d, fmt, '\n');
    hide CsvHeader, CsvMetrics, CsvValues, CsvDetails, Split;
    forall k | 0 <= k < 8 ensures '\n' !in lines[k] {
    }
    SplitJoin(lines, '\n');
  }

  /** The row of the `i`-th metric has four cells when no rendered number and not the timestamp holds a comma. */
  lemma MetricRowCells(d: Dashboard, fmt: NumberFormat, timestamp: string, i: nat)
    requires i < 7
    requires forall x :: ',' !in fmt.show(x)
    requires ',' !in timestamp
    ensures |Split(Row(CsvMetrics()[i], CsvValues(d, fmt)[i], CsvDetails(d, fmt)[i], timestamp), ',')| == 4
  {
    MetricsCommaFree();
    ValuesFree(d, fmt, ',');
    DetailsFree(d, fmt, ',');
    hide CsvMetrics, CsvValues, CsvDetails;
    RowCells(CsvMetrics()[i], CsvValues(d, fmt)[i], CsvDetails(d, fmt)[i], timestamp);
  }

  /** When no rendered number and not the timestamp holds a comma, every line has the header's four cells. */
  lemma CsvRowsHaveFourCells(d: Dashboard, fmt: NumberFormat, timestamp: string)
    requires forall x :: ',' !in fmt.show(x)
    requires ',' !in timestamp
    ensures forall i :: 0 <= i < 8 ==> |Split(CsvLines(d, fmt, timestamp)[i], ',')| == 4
  {
    var lines := CsvLines(d, fmt, timestamp);
    HeaderCells();
    hide CsvHeader, CsvMetrics, CsvValues, CsvDetails, Split, Row;
    forall i | 1 <= i < 8 ensures |Split(lines[i], ',')| == 4 {
      MetricRowCells(d, fmt, timestamp, i - 1);
    }
  }

  // ---------------------------------------------------------------- report ids

  /** The id `generate_report` hands out: the base id, then `-{format}`; the stamp is `%Y%m%d%H%M%S` of the clock. */
  function ReportId(tenantId: string, reportType: string, stamp: string, format: string): string {
    "report-" + tenantId + "-" + reportType + "-" + stamp + "-" + format
  }

  /** The format `get_report_status` reads back: csv exactly when the id ends with `-csv`. */
  function StatusFormat(reportId: string): (f: string)
    ensures f == "csv" <==> EndsWith(reportId, "-csv")
    ensures f == "csv" || f == "pdf"
  {
    if EndsWith(reportId, "-csv") then "csv" else "pdf"
  }

  /** The status response's download link. */
  function DownloadUrl(tenantId: string, reportId: string): string {
    "/api/" + tenantId + "/reports/download/" + reportId + "?format=" + StatusFormat(reportId)
  }

  /** Whether `p + "-" + format` ends with `-csv` depends on the format alone. */
  lemma SuffixFromFormat(p: string, format: string)
    ensures EndsWith(p + "-" + format, "-csv") <==> EndsWith("-" + format, "-csv")
  {
    var s := p + "-" + format;
    var t := "-" + format;
    assert s == p + t;
    if |t| >= 4 {
      assert s[|s| - 4..] == t[|t| - 4..];
    } else {
      assert s[|s| - |t|] == '-';
      DashTooLate(s, |t|);
      DashTooLate(t, |t|);
    }
  }

  /** A dash among the last three characters rules out the suffix `-csv`. */
  lemma DashTooLate(s: string, k: nat)
    requires 1 <= k < 4 && k <= |s| && s[|s| - k] == '-'
    ensures !EndsWith(s, "-csv")
  {
    if |s| >= 4 {
      assert s[|s| - 4..][4 - k] == s[|s| - k];
      assert "-csv"[4 - k] != '-';
    }
  }

  /**
   * The status endpoint recovers the format from the id exactly when the requested
   * format's dash-suffix ends with `-csv`: the request's "csv" reads back as csv and its
   * "pdf" as pdf, and the download link carries that format.
   */
  lemma StatusRecoversFormat(tenantId: string, reportType: string, stamp: string, format: string)
    ensures var id := ReportId(tenantId, reportType, stamp, format);
      && (StatusFormat(id) == "csv" <==> EndsWith("-" + format, "-csv"))
      && (format == "csv" || format == "pdf" ==> StatusFormat(id) == format)
      && (format == "csv" || format == "pdf" ==> EndsWith(DownloadUrl(tenantId, id), "?format=" + format))
  {
    var p := "report-" + tenantId + "-" + reportType + "-" + stamp;
    assert ReportId(tenantId, reportType, stamp, format) == p + "-" + format;
    SuffixFromFormat(p, format);
    assert EndsWith("-csv", "-csv");
    assert !EndsWith("-pdf", "-csv") by {
      assert "-pdf"[1] != "-csv"[1];
    }
    var id := ReportId(tenantId, reportType, stamp, format);
    var u := DownloadUrl(tenantId, id);
    var tail := "?format=" + StatusFormat(id);
    assert u == ("/api/" + tenantId + "/reports/download/" + id) + tail;
    assert u[|u| - |tail|..] == tail;
  }

  // ---------------------------------------------------------------- downloads

  /** The response a download sends: its media type and its `Content-Disposition` header. */
  datatype DownloadResponse = DownloadResponse(mediaType: string, disposition: string)

  /**
   * `download_report`: the query accepts only "pdf" and "csv" (anything else is refused);
   * a PDF is sent when asked for and its generation succeeds, CSV otherwise.
   */
  function Download(reportId: string, format: string, pdfSucceeds: bool): (r: Option<DownloadResponse>)
    ensures r.None? <==> format != "pdf" && format != "csv"
    ensures r.Some? ==> (r.value.mediaType == "application/pdf" <==> format == "pdf" && pdfSucceeds)
    ensures r.Some? && r.value.mediaType != "application/pdf" ==> r.value.mediaType == "text/csv"
  {
    if format != "pdf" && format != "csv" then None
    else if format == "pdf" && pdfSucceeds then
      Some(DownloadResponse("application/pdf", "attachment; filename=" + reportId + ".pdf"))
    else
      Some(DownloadResponse("text/csv", "attachment; filename=" + reportId + ".csv"))
  }

  /** The attachment's file name is the report id with the extension of the media sent. */
  lemma DownloadFileName(reportId: string, format: string, pdfSucceeds: bool)
    requires format == "pdf" || format == "csv"
    ensures var r := Download(reportId, format, pdfSucceeds).value;
      r.disposition == "attachment; filename=" + reportId + (if r.mediaType == "application/pdf" then ".pdf" else ".csv")
  {
  }
}
