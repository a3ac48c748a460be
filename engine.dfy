/**
 * The point-in-time assessment engine: collects the five snapshot domains with per-domain
 * failure isolation, turns the snapshot into severity-ranked findings through a fixed rule
 * table, assembles the scores, maps the findings onto each requested framework and
 * summarises the run in a manifest.
 */
module Engine {
  import opened Wrappers
  import opened Seqs
  import opened Numeric
  import opened Sorting
  import opened Snapshot
  import opened Grading
  import opened Mapper
  import opened Text

  // ---------------------------------------------------------------- collection

  function SecureScoreDomain(o: Result<SecureScoreData>): DomainValue {
    match o case Ok(d) => Collected(SecureScorePayload(d)) case Failure(m) => ErrorSentinel(m)
  }

  function IdentityDomain(o: Result<IdentityData>): DomainValue {
    match o case Ok(d) => Collected(IdentityPayload(d)) case Failure(m) => ErrorSentinel(m)
  }

  function DevicesDomain(o: Result<DeviceData>): DomainValue {
    match o case Ok(d) => Collected(DevicePayload(d)) case Failure(m) => ErrorSentinel(m)
  }

  function ThreatsDomain(o: Result<ThreatData>): DomainValue {
    match o case Ok(d) => Collected(ThreatPayload(d)) case Failure(m) => ErrorSentinel(m)
  }

  /** The payload `_collect_backup` returns when any backup fetch raises. */
  const NotConfiguredBackup := BackupData(Some("not_configured"), None, None, None)

  /** `_collect_backup` absorbs its own failures, so the backup domain is never the error sentinel. */
  function BackupDomain(o: Result<BackupData>): DomainValue {
    Collected(BackupPayload(match o case Ok(d) => d case Failure(_) => NotConfiguredBackup))
  }

  /** The snapshot after `collect_all`, starting from `raw`. */
  function CollectedSnapshot(raw: RawData, secure: Result<SecureScoreData>, identity: Result<IdentityData>,
                             devices: Result<DeviceData>, threats: Result<ThreatData>, backup: Result<BackupData>): RawData {
    raw[SecureScoreKey := SecureScoreDomain(secure)][IdentityKey := IdentityDomain(identity)]
       [DevicesKey := DevicesDomain(devices)][ThreatsKey := ThreatsDomain(threats)][BackupKey := BackupDomain(backup)]
  }

  /**
   * Collection isolates failures: each of the five keys holds its own collector's payload,
   * or the error sentinel carrying its own message, whatever the other collectors did;
   * a fresh snapshot has exactly the five keys.
   */
  lemma CollectionIsolated(raw: RawData, secure: Result<SecureScoreData>, identity: Result<IdentityData>,
                           devices: Result<DeviceData>, threats: Result<ThreatData>, backup: Result<BackupData>)
    ensures var r := CollectedSnapshot(raw, secure, identity, devices, threats, backup);
      && r.Keys == raw.Keys + {SecureScoreKey, IdentityKey, DevicesKey, ThreatsKey, BackupKey}
      && (r[SecureScoreKey].ErrorSentinel? <==> secure.Failure?)
      && (secure.Failure? ==> r[SecureScoreKey].message == secure.error)
      && (secure.Ok? ==> SecureScoreOf(r) == secure.value)
      && (r[IdentityKey].ErrorSentinel? <==> identity.Failure?)
      && (identity.Failure? ==> r[IdentityKey].message == identity.error)
      && (identity.Ok? ==> IdentityOf(r) == identity.value)
      && (r[DevicesKey].ErrorSentinel? <==> devices.Failure?)
      && (devices.Failure? ==> r[DevicesKey].message == devices.error)
      && (devices.Ok? ==> DevicesOf(r) == devices.value)
      && (r[ThreatsKey].ErrorSentinel? <==> threats.Failure?)
      && (threats.Failure? ==> r[ThreatsKey].message == threats.error)
      && (threats.Ok? ==> ThreatsOf(r) == threats.value)
      && r[BackupKey].Collected?
      && BackupOf(r) == (if backup.Ok? then backup.value else NotConfiguredBackup)
    ensures raw == map[] ==>
      CollectedSnapshot(raw, secure, identity, devices, threats, backup).Keys == set k | k in DomainKeys
  {
    var r := CollectedSnapshot(raw, secure, identity, devices, threats, backup);
  }

  // ---------------------------------------------------------------- the rule table

  /** The eight rule blocks of `_generate_findings`, in the order they run. */
  datatype Rule = MfaAdmins | MfaUsers | GlobalAdmins | RiskyUsers | DeviceCompliance | BackupMissing | BackupCoverage | CriticalAlerts

  const AllRules: seq<Rule> := [MfaAdmins, MfaUsers, GlobalAdmins, RiskyUsers, DeviceCompliance, BackupMissing, BackupCoverage, CriticalAlerts]

  function Code(r: Rule): string {
    match r
      case MfaAdmins => "MFA-001"
      case MfaUsers => "MFA-002"
      case GlobalAdmins => "PRIV-001"
      case RiskyUsers => "RISK-001"
      case DeviceCompliance => "DEV-001"
      case BackupMissing => "BKP-001"
      case BackupCoverage => "BKP-002"
      case CriticalAlerts => "THR-001"
  }

  /** The position of each block in the rule table. */
  function Index(r: Rule): (i: nat)
    ensures i < 8 && AllRules[i] == r
  {
    match r
      case MfaAdmins => 0
      case MfaUsers => 1
      case GlobalAdmins => 2
      case RiskyUsers => 3
      case DeviceCompliance => 4
      case BackupMissing => 5
      case BackupCoverage => 6
      case CriticalAlerts => 7
  }

  const Titles: seq<string> := [
    "Administrators Without MFA", "Users Without MFA", "Excessive Global Administrators",
    "High-Risk Users Detected", "Non-Compliant Devices", "Azure Backup Not Configured",
    "Incomplete Backup Coverage", "Critical Security Alerts"]

  /** The `compliance_tags` of each block. */
  const TagLists: seq<seq<string>> := [
    ["CIS 1.1.2", "NIST IA-2", "SOC2 CC6.1"], ["CIS 1.1.1", "NIST IA-2", "SOC2 CC6.1"],
    ["CIS 1.1.3", "NIST AC-6", "SOC2 CC6.3"], ["NIST IA-5", "SOC2 CC6.1"],
    ["CIS 3.1", "NIST CM-2", "SOC2 CC6.6"], ["NIST CP-9", "SOC2 A1.2"],
    ["NIST CP-9", "SOC2 A1.2"], ["NIST IR-4", "SOC2 CC7.3"]]

  const Recommendations: seq<string> := [
    "Enable MFA for all administrator accounts immediately",
    "Enable Security Defaults or Conditional Access policies requiring MFA",
    "Reduce Global Admin count and use PIM for just-in-time access",
    "Investigate and remediate high-risk user accounts immediately",
    "Review and remediate non-compliant devices",
    "Implement Azure Backup for critical systems",
    "Extend backup coverage to all critical systems",
    "Investigate and respond to critical alerts immediately"]

  function Title(r: Rule): string {
    assert |Titles| == 8;
    Titles[Index(r)]
  }

  function Category(r: Rule): string {
    match r
      case MfaAdmins => "identity"
      case MfaUsers => "identity"
      case GlobalAdmins => "identity"
      case RiskyUsers => "identity"
      case DeviceCompliance => "devices"
      case BackupMissing => "backup"
      case BackupCoverage => "backup"
      case CriticalAlerts => "threats"
  }

  function Tags(r: Rule): seq<string> {
    assert |TagLists| == 8;
    TagLists[Index(r)]
  }

  function Recommendation(r: Rule): string {
    assert |Recommendations| == 8;
    Recommendations[Index(r)]
  }

  /** The condition of each block, every field read with the block's default. */
  predicate Fires(r: Rule, raw: RawData) {
    match r
      case MfaAdmins => IdentityOf(raw).adminCoverage.GetOr(100.0) < 100.0
      case MfaUsers => IdentityOf(raw).userCoverage.GetOr(100.0) < 95.0
      case GlobalAdmins => IdentityOf(raw).globalAdminCount.GetOr(0) > 5
      case RiskyUsers => IdentityOf(raw).highRiskCount.GetOr(0) > 0
      case DeviceCompliance => DevicesOf(raw).compliancePercent.GetOr(100.0) < 90.0
      case BackupMissing => BackupOf(raw).healthStatus == Some("not_configured")
      case BackupCoverage =>
        BackupOf(raw).healthStatus != Some("not_configured") && BackupOf(raw).protectedPercent.GetOr(100.0) < 90.0
      case CriticalAlerts => ThreatsOf(raw).criticalCount.GetOr(0) > 0
  }

  /** The severity of each block's finding; MFA-002 and DEV-001 escalate below 80% and 70%. */
  function Severity(r: Rule, raw: RawData): string {
    match r
      case MfaUsers => if IdentityOf(raw).userCoverage.GetOr(100.0) < 80.0 then "critical" else "high"
      case DeviceCompliance => if DevicesOf(raw).compliancePercent.GetOr(100.0) < 70.0 then "critical" else "high"
      case GlobalAdmins => "high"
      case BackupCoverage => "high"
      case _ => "critical"
  }

  /** `f"{rule}-{assessment_id[:8]}"`. */
  function FindingId(rule: string, aid: string): string {
    rule + "-" + Take(aid, 8)
  }

  function MakeFinding(r: Rule, severity: string, aid: string): Finding {
    Finding(FindingId(Code(r), aid), Title(r), severity, Category(r), Tags(r), Recommendation(r))
  }

  function FiringIn(raw: RawData): Rule -> bool {
    (r: Rule) => Fires(r, raw)
  }

  function FindingFor(raw: RawData, aid: string): Rule -> Finding {
    (r: Rule) => MakeFinding(r, Severity(r, raw), aid)
  }

  /** The blocks that fire, in block order. */
  function FiredRules(raw: RawData): seq<Rule> {
    Filter(AllRules, FiringIn(raw))
  }

  /** One finding for each block of `rules` that fires, in the order of `rules`. */
  function Emitted(rules: seq<Rule>, raw: RawData, aid: string): seq<Finding> {
    MapSeq(Filter(rules, FiringIn(raw)), FindingFor(raw, aid))
  }

  /** The findings in the order the blocks append them, before sorting. */
  function RawFindings(raw: RawData, aid: string): seq<Finding> {
    Emitted(AllRules, raw, aid)
  }

  /** `severity_order.get(severity, 4)`. */
  function SeverityRank(f: Finding): real {
    if f.severity == "critical" then 0.0
    else if f.severity == "high" then 1.0
    else if f.severity == "medium" then 2.0
    else if f.severity == "low" then 3.0
    else 4.0
  }

  function BySeverity(): (Finding, Finding) -> bool { ByKey(SeverityRank) }

  /** `_generate_findings`: the rule findings, stably sorted by severity rank. */
  function Findings(raw: RawData, aid: string): seq<Finding> {
    SortBy(RawFindings(raw, aid), BySeverity())
  }

  /** The rule id the mapper parses out of a finding's id. */
  function FindingRule(f: Finding): string { RuleId(f.id) }

  /** Some finding of `fs` parses to rule id `code`. */
  predicate HasRule(fs: seq<Finding>, code: string) {
    exists f :: f in fs && FindingRule(f) == code
  }

  lemma RuleOfId(prefix: string, number: string, aid: string)
    requires '-' !in prefix && '-' !in number
    ensures RuleId(FindingId(prefix + "-" + number, aid)) == prefix + "-" + number
  {
    RuleIdOf(prefix, number, Take(aid, 8));
    assert FindingId(prefix + "-" + number, aid) == prefix + "-" + number + "-" + Take(aid, 8);
  }

  /** The two dash-free halves of each block's code. */
  function Prefix(r: Rule): string {
    match r
      case MfaAdmins => "MFA"
      case MfaUsers => "MFA"
      case GlobalAdmins => "PRIV"
      case RiskyUsers => "RISK"
      case DeviceCompliance => "DEV"
      case BackupMissing => "BKP"
      case BackupCoverage => "BKP"
      case CriticalAlerts => "THR"
  }

  function Number(r: Rule): string {
    match r
      case MfaUsers => "002"
      case BackupCoverage => "002"
      case _ => "001"
  }

  lemma CodeParts(r: Rule)
    ensures Code(r) == Prefix(r) + "-" + Number(r)
    ensures '-' !in Prefix(r) && '-' !in Number(r)
  {
    match r
    case MfaAdmins => assert "MFA" + "-" + "001" == "MFA-001";
    case MfaUsers => assert "MFA" + "-" + "002" == "MFA-002";
    case GlobalAdmins => assert "PRIV" + "-" + "001" == "PRIV-001";
    case RiskyUsers => assert "RISK" + "-" + "001" == "RISK-001";
    case DeviceCompliance => assert "DEV" + "-" + "001" == "DEV-001";
    case BackupMissing => assert "BKP" + "-" + "001" == "BKP-001";
    case BackupCoverage => assert "BKP" + "-" + "002" == "BKP-002";
    case CriticalAlerts => assert "THR" + "-" + "001" == "THR-001";
  }

  /** Every finding id parses back to the code of the block that produced it. */
  lemma IdNamesRule(r: Rule, severity: string, aid: string)
    ensures FindingRule(MakeFinding(r, severity, aid)) == Code(r)
  {
    CodeParts(r);
    RuleOfId(Prefix(r), Number(r), aid);
  }

  /** Different blocks have different codes. */
  lemma CodesDistinct(r: Rule, q: Rule)
    ensures Code(r) == Code(q) ==> r == q
  {
  }

  lemma AllRulesComplete(r: Rule)
    ensures r in AllRules
  {
    match r
    case MfaAdmins => assert AllRules[0] == r;
    case MfaUsers => assert AllRules[1] == r;
    case GlobalAdmins => assert AllRules[2] == r;
    case RiskyUsers => assert AllRules[3] == r;
    case DeviceCompliance => assert AllRules[4] == r;
    case BackupMissing => assert AllRules[5] == r;
    case BackupCoverage => assert AllRules[6] == r;
    case CriticalAlerts => assert AllRules[7] == r;
  }

  /** `rules` lists every block. */
  ghost predicate Complete(rules: seq<Rule>) {
    forall r: Rule :: r in rules
  }

  /** The rule table lists every block, each once. */
  lemma AllRulesListed()
    ensures Complete(AllRules)
    ensures Distinct(AllRules)
  {
    forall r: Rule
      ensures r in AllRules
    {
      AllRulesComplete(r);
    }
  }

  /** What one block contributes: its finding when it fires, nothing otherwise. */
  function Block(r: Rule, raw: RawData, aid: string): seq<Finding> {
    if Fires(r, raw) then [MakeFinding(r, Severity(r, raw), aid)] else []
  }

  lemma EmittedAppend(a: seq<Rule>, b: seq<Rule>, raw: RawData, aid: string)
    ensures Emitted(a + b, raw, aid) == Emitted(a, raw, aid) + Emitted(b, raw, aid)
  {
    FilterAppend(a, b, FiringIn(raw));
    MapSeqConcat(Filter(a, FiringIn(raw)), Filter(b, FiringIn(raw)), FindingFor(raw, aid));
  }

  lemma EmittedOne(r: Rule, raw: RawData, aid: string)
    ensures Emitted([r], raw, aid) == Block(r, raw, aid)
  {
    FilterMapSingle(r, FiringIn(raw), FindingFor(raw, aid));
  }

  lemma EmittedSnoc(a: seq<Rule>, r: Rule, raw: RawData, aid: string)
    ensures Emitted(a + [r], raw, aid) == Emitted(a, raw, aid) + Block(r, raw, aid)
  {
    EmittedAppend(a, [r], raw, aid);
    EmittedOne(r, raw, aid);
  }

  /** What a block's `if` may have appended to `before`, and that it is the block's contribution. */
  predicate Appended(before: seq<Finding>, after: seq<Finding>, r: Rule, raw: RawData, aid: string) {
    after == before || (Fires(r, raw) && after == before + [MakeFinding(r, Severity(r, raw), aid)])
  }

  /** The unsorted findings are the eight blocks' contributions, in block order. */
  lemma RawFindingsBlocks(raw: RawData, aid: string)
    ensures RawFindings(raw, aid)
      == [] + Block(MfaAdmins, raw, aid) + Block(MfaUsers, raw, aid) + Block(GlobalAdmins, raw, aid)
         + Block(RiskyUsers, raw, aid) + Block(DeviceCompliance, raw, aid)
         + Block(BackupMissing, raw, aid) + Block(BackupCoverage, raw, aid) + Block(CriticalAlerts, raw, aid)
  {
    var s1 := [MfaAdmins];
    var s2 := s1 + [MfaUsers];
    var s3 := s2 + [GlobalAdmins];
    var s4 := s3 + [RiskyUsers];
    var s5 := s4 + [DeviceCompliance];
    var s6 := s5 + [BackupMissing];
    var s7 := s6 + [BackupCoverage];
    var s8 := s7 + [CriticalAlerts];
    assert s8 == AllRules;
    EmittedOne(MfaAdmins, raw, aid);
    EmittedSnoc(s1, MfaUsers, raw, aid);
    EmittedSnoc(s2, GlobalAdmins, raw, aid);
    EmittedSnoc(s3, RiskyUsers, raw, aid);
    EmittedSnoc(s4, DeviceCompliance, raw, aid);
    EmittedSnoc(s5, BackupMissing, raw, aid);
    EmittedSnoc(s6, BackupCoverage, raw, aid);
    EmittedSnoc(s7, CriticalAlerts, raw, aid);
    EmptyAppend(Block(MfaAdmins, raw, aid));
  }

  /** `f` is the finding some firing block of the rule table raises on `raw`. */
  ghost predicate Raised(raw: RawData, aid: string, f: Finding) {
    exists r :: Fires(r, raw) && f == MakeFinding(r, Severity(r, raw), aid)
  }

  /** `fs` holds the raised findings and nothing else. */
  ghost predicate ExactlyRaised(fs: seq<Finding>, raw: RawData, aid: string) {
    forall f :: f in fs <==> Raised(raw, aid, f)
  }

  lemma EmittedMembers(rules: seq<Rule>, raw: RawData, aid: string, fs: seq<Finding>, f: Finding)
    requires Complete(rules)
    requires fs == SortBy(Emitted(rules, raw, aid), BySeverity())
    ensures f in fs <==> Raised(raw, aid, f)
  {
    var raws := Emitted(rules, raw, aid);
    SortMembers(raws, BySeverity(), f);
    FilterMapMembers(rules, FiringIn(raw), FindingFor(raw, aid), f);
    if r :| Fires(r, raw) && f == MakeFinding(r, Severity(r, raw), aid) {
      assert r in rules && FiringIn(raw)(r) && f == FindingFor(raw, aid)(r);
    }
  }

  /** Different blocks build different findings, whatever their severities. */
  lemma FindingsOfRulesDiffer(r: Rule, q: Rule, raw: RawData, aid: string)
    ensures FindingFor(raw, aid)(r) == FindingFor(raw, aid)(q) ==> r == q
  {
    IdNamesRule(r, Severity(r, raw), aid);
    IdNamesRule(q, Severity(q, raw), aid);
    CodesDistinct(r, q);
  }

  /** A list of rules without repeats emits no finding twice. */
  lemma EmittedDistinct(rules: seq<Rule>, raw: RawData, aid: string)
    requires Distinct(rules)
    ensures Distinct(Emitted(rules, raw, aid))
  {
    var fired := Filter(rules, FiringIn(raw));
    DistinctFilter(rules, FiringIn(raw));
    forall i, j | 0 <= i < |fired| && 0 <= j < |fired| && FindingFor(raw, aid)(fired[i]) == FindingFor(raw, aid)(fired[j])
      ensures fired[i] == fired[j]
    {
      FindingsOfRulesDiffer(fired[i], fired[j], raw, aid);
    }
    MapSeqDistinct(fired, FindingFor(raw, aid));
  }

  /**
   * Sorting the findings of a list that holds every block keeps exactly the raised findings,
   * and each of them once when the list repeats no block.
   */
  lemma SortedEmittedRaised(rules: seq<Rule>, raw: RawData, aid: string)
    requires Complete(rules)
    ensures ExactlyRaised(SortBy(Emitted(rules, raw, aid), BySeverity()), raw, aid)
    ensures Distinct(rules) ==> Distinct(SortBy(Emitted(rules, raw, aid), BySeverity()))
  {
    var fs := SortBy(Emitted(rules, raw, aid), BySeverity());
    forall f
      ensures f in fs <==> Raised(raw, aid, f)
    {
      EmittedMembers(rules, raw, aid, fs, f);
    }
    if Distinct(rules) {
      EmittedDistinct(rules, raw, aid);
      SortDistinct(Emitted(rules, raw, aid), BySeverity());
    }
  }

  /** The findings are exactly one per firing block: each is some firing block's finding, with that block's severity, and none is repeated. */
  lemma FindingsMembers(raw: RawData, aid: string)
    ensures ExactlyRaised(Findings(raw, aid), raw, aid)
    ensures Distinct(Findings(raw, aid))
  {
    AllRulesListed();
    SortedEmittedRaised(AllRules, raw, aid);
    assert Findings(raw, aid) == SortBy(Emitted(AllRules, raw, aid), BySeverity());
  }

  /** A raised finding whose id parses to the code of `r` is `r`'s finding, and `r` fired. */
  lemma RaisedRule(raw: RawData, aid: string, f: Finding, r: Rule)
    requires Raised(raw, aid, f) && FindingRule(f) == Code(r)
    ensures Fires(r, raw) && f == MakeFinding(r, Severity(r, raw), aid)
  {
    var q :| Fires(q, raw) && f == MakeFinding(q, Severity(q, raw), aid);
    IdNamesRule(q, Severity(q, raw), aid);
    CodesDistinct(r, q);
  }

  lemma RaisedByRule(fs: seq<Finding>, raw: RawData, aid: string, r: Rule)
    requires ExactlyRaised(fs, raw, aid)
    ensures HasRule(fs, Code(r)) <==> Fires(r, raw)
    ensures forall f :: f in fs && FindingRule(f) == Code(r) ==> f == MakeFinding(r, Severity(r, raw), aid)
  {
    forall f | f in fs && FindingRule(f) == Code(r)
      ensures Fires(r, raw) && f == MakeFinding(r, Severity(r, raw), aid)
    {
      RaisedRule(raw, aid, f, r);
    }
    if Fires(r, raw) {
      var f := MakeFinding(r, Severity(r, raw), aid);
      assert Raised(raw, aid, f);
      IdNamesRule(r, Severity(r, raw), aid);
      assert f in fs;
    }
  }

  /**
   * Rule `r` is represented in the findings (its code parses out of some finding id)
   * exactly when its condition holds, and then by its own finding only.
   */
  lemma FindingsByRule(raw: RawData, aid: string, r: Rule)
    ensures HasRule(Findings(raw, aid), Code(r)) <==> Fires(r, raw)
    ensures forall f :: f in Findings(raw, aid) && FindingRule(f) == Code(r) ==> f == MakeFinding(r, Severity(r, raw), aid)
  {
    FindingsMembers(raw, aid);
    RaisedByRule(Findings(raw, aid), raw, aid, r);
  }

  lemma BackupBlocksExclusive(raw: RawData)
    ensures !(Fires(BackupMissing, raw) && Fires(BackupCoverage, raw))
  {
  }

  /** The two backup blocks never both fire, so there are at most seven findings. */
  lemma AtMostSevenFindings(raw: RawData, aid: string)
    ensures |Findings(raw, aid)| <= 7
  {
    var p := FiringIn(raw);
    var front := [MfaAdmins, MfaUsers, GlobalAdmins, RiskyUsers, DeviceCompliance];
    BackupBlocksExclusive(raw);
    assert !(p(BackupMissing) && p(BackupCoverage));
    assert AllRules == front + [BackupMissing, BackupCoverage] + [CriticalAlerts];
    assert |Findings(raw, aid)| == |Filter(AllRules, p)|;
    hide *;
    FilterAppend(front + [BackupMissing, BackupCoverage], [CriticalAlerts], p);
    FilterAppend(front, [BackupMissing, BackupCoverage], p);
    FilterExclusivePair(BackupMissing, BackupCoverage, p);
  }

  /** The findings come out sorted by rank, as a permutation of the block findings, and equal-rank findings keep their block order. */
  lemma FindingsSortedStably(raw: RawData, aid: string)
    ensures SortedBy(Findings(raw, aid), BySeverity())
    ensures multiset(Findings(raw, aid)) == multiset(RawFindings(raw, aid))
    ensures forall e :: SameRank(Findings(raw, aid), e, BySeverity()) == SameRank(RawFindings(raw, aid), e, BySeverity())
  {
    ByKeyTotal(SeverityRank);
    SortSorted(RawFindings(raw, aid), BySeverity());
    SortPermutes(RawFindings(raw, aid), BySeverity());
    forall e
      ensures SameRank(Findings(raw, aid), e, BySeverity()) == SameRank(RawFindings(raw, aid), e, BySeverity())
    {
      SortStable(RawFindings(raw, aid), e, BySeverity());
    }
  }

  predicate Failed(raw: RawData, key: Domain) {
    key !in raw || raw[key].ErrorSentinel?
  }

  /** With no identity payload no identity block fires; likewise for the other three domains. */
  lemma IdentitySilent(raw: RawData, r: Rule)
    requires Failed(raw, IdentityKey) && Category(r) == "identity"
    ensures !Fires(r, raw)
  {
    assert IdentityOf(raw) == NoIdentity;
  }

  lemma DevicesSilent(raw: RawData, r: Rule)
    requires Failed(raw, DevicesKey) && Category(r) == "devices"
    ensures !Fires(r, raw)
  {
    assert DevicesOf(raw) == NoDevices;
  }

  lemma BackupSilent(raw: RawData, r: Rule)
    requires Failed(raw, BackupKey) && Category(r) == "backup"
    ensures !Fires(r, raw)
  {
    assert BackupOf(raw) == NoBackup;
  }

  lemma ThreatsSilent(raw: RawData, r: Rule)
    requires Failed(raw, ThreatsKey) && Category(r) == "threats"
    ensures !Fires(r, raw)
  {
    assert ThreatsOf(raw) == NoThreats;
  }

  lemma RaisedSilent(raw: RawData, aid: string, f: Finding)
    requires Raised(raw, aid, f)
    ensures Failed(raw, IdentityKey) ==> f.category != "identity"
    ensures Failed(raw, DevicesKey) ==> f.category != "devices"
    ensures Failed(raw, BackupKey) ==> f.category != "backup"
    ensures Failed(raw, ThreatsKey) ==> f.category != "threats"
  {
    var r :| Fires(r, raw) && f == MakeFinding(r, Severity(r, raw), aid);
    assert f.category == Category(r);
    if Failed(raw, IdentityKey) && Category(r) == "identity" {
      IdentitySilent(raw, r);
    }
    if Failed(raw, DevicesKey) && Category(r) == "devices" {
      DevicesSilent(raw, r);
    }
    if Failed(raw, BackupKey) && Category(r) == "backup" {
      BackupSilent(raw, r);
    }
    if Failed(raw, ThreatsKey) && Category(r) == "threats" {
      ThreatsSilent(raw, r);
    }
  }

  /** A domain that is missing or holds the error sentinel contributes no finding. */
  lemma FailedDomainsAreSilent(raw: RawData, aid: string, f: Finding)
    requires f in Findings(raw, aid)
    ensures Failed(raw, IdentityKey) ==> f.category != "identity"
    ensures Failed(raw, DevicesKey) ==> f.category != "devices"
    ensures Failed(raw, BackupKey) ==> f.category != "backup"
    ensures Failed(raw, ThreatsKey) ==> f.category != "threats"
  {
    FindingsMembers(raw, aid);
    RaisedSilent(raw, aid, f);
  }

  /** A backup collection that failed is read as not configured: BKP-001 is raised and the backup score is 0. */
  lemma BackupFailureYieldsMissingBackup(raw: RawData, message: string, aid: string)
    ensures var r := raw[BackupKey := BackupDomain(Failure(message))];
      HasRule(Findings(r, aid), "BKP-001") && BackupScore(BackupOf(r)) == 0.0
  {
    var r := raw[BackupKey := BackupDomain(Failure(message))];
    assert BackupOf(r) == NotConfiguredBackup;
    assert Fires(BackupMissing, r) && Code(BackupMissing) == "BKP-001";
    assert BackupScore(BackupOf(r)) == 0.0;
    hide *;
    FindingsByRule(r, aid, BackupMissing);
  }

  // ---------------------------------------------------------------- scores

  /** `scores` as `_calculate_scores` builds it (before `compliance` is added). */
  datatype ScoreSheet = ScoreSheet(overallGrade: string, overallScore: real, secureScore: real, categories: map<string, real>)

  /** `raw_data["secure_score"]["score"]["current_score"]`, 50 when absent. */
  function SecureScoreInput(raw: RawData): real {
    SecureScoreOf(raw).currentScore.GetOr(50.0)
  }

  function ScoreSheetOf(raw: RawData): ScoreSheet {
    var overall := OverallScore(SecureScoreInput(raw), CategoryScores(raw));
    ScoreSheet(CalculateGrade(overall), Round1(overall), Round1(SecureScoreInput(raw)), CategoryScores(raw))
  }

  /**
   * The stored overall score is the rounded clamped weighted score, within [0, 100]; the
   * grade is taken from the score before rounding; a missing or failed secure score reads as 50.
   */
  lemma ScoreSheetFacts(raw: RawData)
    ensures 0.0 <= ScoreSheetOf(raw).overallScore <= 100.0
    ensures ScoreSheetOf(raw).overallGrade == CalculateGrade(OverallScore(SecureScoreInput(raw), CategoryScores(raw)))
    ensures OverallScore(SecureScoreInput(raw), CategoryScores(raw)) - 0.05 < ScoreSheetOf(raw).overallScore
         <= OverallScore(SecureScoreInput(raw), CategoryScores(raw)) + 0.05
    ensures Failed(raw, SecureScoreKey) ==> ScoreSheetOf(raw).secureScore == 50.0
  {
    var overall := OverallScore(SecureScoreInput(raw), CategoryScores(raw));
    Round1Percent(overall);
    Round1Close(overall);
    if Failed(raw, SecureScoreKey) {
      Round1Tenths(500);
    }
  }

  /** Grading before rounding can disagree with the stored score: 89.96 is stored as 90.0 but graded B. */
  lemma GradeBeforeRounding()
    ensures Round1(89.96) == 90.0 && CalculateGrade(89.96) == "B" && CalculateGrade(90.0) == "A"
  {
    assert (89.96 * 10.0 + 0.5).Floor == 900;
  }

  // ---------------------------------------------------------------- manifest

  datatype SeverityCounts = SeverityCounts(critical: nat, high: nat, medium: nat, low: nat, informational: nat)

  /**
   * The manifest dictionary. `date` is the instant its ISO text denotes; `scores` and
   * `complianceScores` together are the engine's `scores` dictionary.
   */
  datatype Manifest = Manifest(
    assessmentId: string,
    version: string,
    customerName: string,
    tenantId: string,
    primaryDomain: string,
    date: real,
    durationSeconds: int,
    assessor: string,
    assessmentType: string,
    frameworks: seq<string>,
    scores: Option<ScoreSheet>,
    complianceScores: Option<map<string, real>>,
    findings: SeverityCounts,
    brandCompany: string,
    brandLogo: Option<string>)

  function HasSeverity(level: string): Finding -> bool {
    (f: Finding) => f.severity == level
  }

  function SeverityIn(levels: seq<string>): Finding -> bool {
    (f: Finding) => f.severity in levels
  }

  const Levels: seq<string> := ["critical", "high", "medium", "low", "informational"]

  function CountsOf(fs: seq<Finding>): SeverityCounts {
    SeverityCounts(Count(fs, HasSeverity("critical")), Count(fs, HasSeverity("high")), Count(fs, HasSeverity("medium")),
      Count(fs, HasSeverity("low")), Count(fs, HasSeverity("informational")))
  }

  /** `duration_seconds`: `int(total_seconds)` when both times are set, else 0. */
  function Duration(start: Option<real>, end: Option<real>): int {
    if start.Some? && end.Some? then Trunc(end.value - start.value) else 0
  }

  /** The five severity counts add up to the findings whose severity is one of the five levels. */
  lemma CountsSum(fs: seq<Finding>)
    ensures var c := CountsOf(fs);
      c.critical + c.high + c.medium + c.low + c.informational == Count(fs, SeverityIn(Levels))
  {
    CountDisjoint(fs, HasSeverity("critical"), HasSeverity("high"), SeverityIn(["critical", "high"]));
    CountDisjoint(fs, SeverityIn(["critical", "high"]), HasSeverity("medium"), SeverityIn(["critical", "high", "medium"]));
    CountDisjoint(fs, SeverityIn(["critical", "high", "medium"]), HasSeverity("low"), SeverityIn(["critical", "high", "medium", "low"]));
    CountDisjoint(fs, SeverityIn(["critical", "high", "medium", "low"]), HasSeverity("informational"), SeverityIn(Levels));
  }

  lemma SeverityLevel(r: Rule, raw: RawData)
    ensures Severity(r, raw) == Levels[0] || Severity(r, raw) == Levels[1]
  {
  }

  lemma RaisedCountsCover(fs: seq<Finding>, raw: RawData, aid: string)
    requires ExactlyRaised(fs, raw, aid)
    ensures var c := CountsOf(fs);
      c.critical + c.high + c.medium + c.low + c.informational == |fs|
  {
    CountsSum(fs);
    forall f | f in fs
      ensures SeverityIn(Levels)(f)
    {
      var r :| Fires(r, raw) && f == MakeFinding(r, Severity(r, raw), aid);
      SeverityLevel(r, raw);
    }
    FilterAll(fs, SeverityIn(Levels));
  }

  /** Every block's severity is one of the five levels, so the counts add up to the number of findings. */
  lemma ManifestCountsCoverFindings(raw: RawData, aid: string)
    ensures var c := CountsOf(Findings(raw, aid));
      c.critical + c.high + c.medium + c.low + c.informational == |Findings(raw, aid)|
  {
    FindingsMembers(raw, aid);
    RaisedCountsCover(Findings(raw, aid), raw, aid);
  }

  /** The duration is 0 unless both times are set. */
  lemma DurationNeedsBothTimes(start: Option<real>, end: Option<real>)
    ensures start.None? || end.None? ==> Duration(start, end) == 0
    ensures start.Some? && end.Some? && start.value <= end.value ==> 0 <= Duration(start, end) && Duration(start, end) as real <= end.value - start.value
  {
  }

  // ---------------------------------------------------------------- the engine

  // Each section of `_generate_findings`, as the source's comments divide it, appends
  // the findings of its blocks to the list built so far.

  /** "MFA gaps": MFA-001 for administrators below 100%, MFA-002 for users below 95% (critical below 80%). */
  method AppendMfaGaps(fs: seq<Finding>, raw: RawData, aid: string) returns (out: seq<Finding>)
    ensures out == fs + Block(MfaAdmins, raw, aid) + Block(MfaUsers, raw, aid)
  {
    var mfa := IdentityOf(raw);
    out := fs;
    if mfa.adminCoverage.GetOr(100.0) < 100.0 {
      out := out + [MakeFinding(MfaAdmins, "critical", aid)];
    }
    if mfa.userCoverage.GetOr(100.0) < 95.0 {
      var severity := if mfa.userCoverage.GetOr(100.0) < 80.0 then "critical" else "high";
      out := out + [MakeFinding(MfaUsers, severity, aid)];
    }
  }

  /** "Privileged accounts": PRIV-001 for more than five global administrators. */
  method AppendPrivileged(fs: seq<Finding>, raw: RawData, aid: string) returns (out: seq<Finding>)
    ensures out == fs + Block(GlobalAdmins, raw, aid)
  {
    out := fs;
    if IdentityOf(raw).globalAdminCount.GetOr(0) > 5 {
      out := out + [MakeFinding(GlobalAdmins, "high", aid)];
    }
  }

  /** "Risky users": RISK-001 for any high-risk user. */
  method AppendRisky(fs: seq<Finding>, raw: RawData, aid: string) returns (out: seq<Finding>)
    ensures out == fs + Block(RiskyUsers, raw, aid)
  {
    out := fs;
    if IdentityOf(raw).highRiskCount.GetOr(0) > 0 {
      out := out + [MakeFinding(RiskyUsers, "critical", aid)];
    }
  }

  /** "Device findings": DEV-001 below 90% compliance, critical below 70%. */
  method AppendDevices(fs: seq<Finding>, raw: RawData, aid: string) returns (out: seq<Finding>)
    ensures out == fs + Block(DeviceCompliance, raw, aid)
  {
    var compliance := DevicesOf(raw);
    out := fs;
    if compliance.compliancePercent.GetOr(100.0) < 90.0 {
      var severity := if compliance.compliancePercent.GetOr(100.0) < 70.0 then "critical" else "high";
      out := out + [MakeFinding(DeviceCompliance, severity, aid)];
    }
  }

  /** "Backup findings": BKP-001 when not configured, otherwise BKP-002 below 90% protected. */
  method AppendBackup(fs: seq<Finding>, raw: RawData, aid: string) returns (out: seq<Finding>)
    ensures out == fs + Block(BackupMissing, raw, aid) + Block(BackupCoverage, raw, aid)
  {
    var health := BackupOf(raw);
    out := fs;
    if health.healthStatus == Some("not_configured") {
      out := out + [MakeFinding(BackupMissing, "critical", aid)];
    } else if health.protectedPercent.GetOr(100.0) < 90.0 {
      out := out + [MakeFinding(BackupCoverage, "high", aid)];
    }
  }

  /** "Threat findings": THR-001 for any critical alert. */
  method AppendThreats(fs: seq<Finding>, raw: RawData, aid: string) returns (out: seq<Finding>)
    ensures out == fs + Block(CriticalAlerts, raw, aid)
  {
    out := fs;
    if ThreatsOf(raw).criticalCount.GetOr(0) > 0 {
      out := out + [MakeFinding(CriticalAlerts, "critical", aid)];
    }
  }

  /** The score of each result, keyed by framework. */
  function ScoresOf(results: map<string, ComplianceResult>): (m: map<string, real>)
    ensures m.Keys == results.Keys
    ensures forall fw :: fw in results ==> m[fw] == results[fw].score
  {
    map fw | fw in results :: results[fw].score
  }

  /** `scores["compliance"]` after each result's score is written over the entries `before` held. */
  function Recorded(before: map<string, real>, results: map<string, ComplianceResult>): (m: map<string, real>)
    ensures m.Keys == before.Keys + results.Keys
    ensures forall fw :: fw in results ==> m[fw] == results[fw].score
    ensures forall fw :: fw in before && fw !in results ==> m[fw] == before[fw]
  {
    map fw | fw in before.Keys + results.Keys :: if fw in results then results[fw].score else before[fw]
  }

  lemma RecordedStep(before: map<string, real>, results: map<string, ComplianceResult>, fw: string, r: ComplianceResult)
    ensures Recorded(before, results[fw := r]) == Recorded(before, results)[fw := r.score]
    ensures Recorded(before, map[fw := r]) == before[fw := r.score]
  {
  }

  /** Recording over an empty dictionary leaves exactly the results' scores. */
  lemma RecordedFresh(results: map<string, ComplianceResult>)
    ensures Recorded(map[], results) == ScoresOf(results)
  {
  }

  class AssessmentEngine {
    const assessmentId: string
    const tenantId: string
    const customerName: string
    const frameworks: seq<string>
    /** `brand_config.company_name`. */
    const assessor: string
    /** `brand_config.logo_path`. */
    const logo: Option<string>
    const mapper: ComplianceMapper
    var startTime: Option<real>
    var endTime: Option<real>
    var raw: RawData
    var findings: seq<Finding>
    /** `self.scores` without its `compliance` entry; `None` while it is still `{}`. */
    var scores: Option<ScoreSheet>
    /** `self.scores["compliance"]`, `None` while the key is absent. */
    var complianceScores: Option<map<string, real>>
    var complianceResults: map<string, ComplianceResult>

    /** `AssessmentEngine(...)`; the generated `uuid4` is the `assessmentId` argument. */
    constructor (assessmentId: string, tenantId: string, customerName: string, frameworks: seq<string>,
                 assessor: string, logo: Option<string>, catalogFiles: map<string, CatalogFile>, table: ControlTable)
      ensures this.assessmentId == assessmentId && this.tenantId == tenantId && this.customerName == customerName
      ensures this.frameworks == frameworks && this.assessor == assessor && this.logo == logo
      ensures startTime.None? && endTime.None?
      ensures raw == map[] && findings == [] && scores.None? && complianceScores.None? && complianceResults == map[]
      ensures mapper.table == table && mapper.frameworks == MapSeq(frameworks, Lower)
      ensures mapper.frameworkData == LoadedFrameworks(map[], mapper.frameworks, catalogFiles)
    {
      this.assessmentId := assessmentId;
      this.tenantId := tenantId;
      this.customerName := customerName;
      this.frameworks := frameworks;
      this.assessor := assessor;
      this.logo := logo;
      startTime, endTime := None, None;
      raw, findings, scores, complianceScores, complianceResults := map[], [], None, None, map[];
      mapper := new ComplianceMapper(frameworks, catalogFiles, table);
    }

    /** `collect_all`: each collector's outcome and the two clock readings are the arguments. */
    method CollectAll(secure: Result<SecureScoreData>, identity: Result<IdentityData>, devices: Result<DeviceData>,
                      threats: Result<ThreatData>, backup: Result<BackupData>, start: real, end: real)
      modifies this`raw, this`startTime, this`endTime
      ensures raw == CollectedSnapshot(old(raw), secure, identity, devices, threats, backup)
      ensures startTime == Some(start) && endTime == Some(end)
    {
      startTime := Some(start);
      match secure {
        case Ok(d) => raw := raw[SecureScoreKey := Collected(SecureScorePayload(d))];
        case Failure(e) => raw := raw[SecureScoreKey := ErrorSentinel(e)];
      }
      match identity {
        case Ok(d) => raw := raw[IdentityKey := Collected(IdentityPayload(d))];
        case Failure(e) => raw := raw[IdentityKey := ErrorSentinel(e)];
      }
      match devices {
        case Ok(d) => raw := raw[DevicesKey := Collected(DevicePayload(d))];
        case Failure(e) => raw := raw[DevicesKey := ErrorSentinel(e)];
      }
      match threats {
        case Ok(d) => raw := raw[ThreatsKey := Collected(ThreatPayload(d))];
        case Failure(e) => raw := raw[ThreatsKey := ErrorSentinel(e)];
      }
      raw := raw[BackupKey := BackupDomain(backup)];
      endTime := Some(end);
    }

    /** `_generate_findings`: the sections append in order, then the list is sorted by rank. */
    method GenerateFindings() returns (fs: seq<Finding>)
      ensures fs == Findings(raw, assessmentId)
    {
      var snapshot, aid := raw, assessmentId;
      fs := [];
      fs := AppendMfaGaps(fs, snapshot, aid);
      fs := AppendPrivileged(fs, snapshot, aid);
      fs := AppendRisky(fs, snapshot, aid);
      fs := AppendDevices(fs, snapshot, aid);
      fs := AppendBackup(fs, snapshot, aid);
      fs := AppendThreats(fs, snapshot, aid);
      RawFindingsBlocks(snapshot, aid);
      fs := SortBy(fs, BySeverity());
    }

    /** `_calculate_scores`: the new `scores` dictionary, which has no `compliance` entry yet. */
    method CalculateScores() returns (sheet: ScoreSheet)
      ensures sheet == ScoreSheetOf(raw)
    {
      var secure := SecureScoreOf(raw).currentScore.GetOr(50.0);
      var categories := CategoryScores(raw);
      var overall := CalculateOverallScore(secure, categories);
      sheet := ScoreSheet(CalculateGrade(overall), Round1(overall), Round1(secure), categories);
    }

    /** `_map_to_frameworks`: one result per requested framework, its score copied into `scores["compliance"]`. */
    method MapToFrameworks() returns (results: map<string, ComplianceResult>)
      modifies mapper.table, this`complianceScores
      ensures results.Keys == Members(frameworks)
      ensures complianceScores ==
        if frameworks == [] then old(complianceScores)
        else Some(Recorded(old(complianceScores).GetOr(map[]), results))
      ensures old(complianceScores).None? ==>
        complianceScores == if frameworks == [] then None else Some(ScoresOf(results))
      ensures raw == old(raw) && findings == old(findings) && scores == old(scores)
    {
      results := map[];
      ghost var before := complianceScores.GetOr(map[]);
      for i := 0 to |frameworks|
        invariant results.Keys == Members(frameworks[..i])
        invariant complianceScores == if i == 0 then old(complianceScores) else Some(Recorded(before, results))
      {
        var framework := frameworks[i];
        assert frameworks[..i + 1] == frameworks[..i] + [framework];
        assert results.Keys + {framework} == Members(frameworks[..i + 1]);
        hide *;
        var result := mapper.MapToFramework(framework, findings);
        RecordedStep(before, results, framework, result);
        results := results[framework := result];
        complianceScores := Some(complianceScores.GetOr(map[])[framework := result.score]);
      }
      assert frameworks[..|frameworks|] == frameworks;
      RecordedFresh(results);
    }

    /**
     * `analyze`: findings, then a fresh `scores` dictionary (so without a `compliance` entry),
     * then the framework mappings, which fill that entry in.
     */
    method Analyze()
      modifies this`findings, this`scores, this`complianceScores, this`complianceResults, mapper.table
      ensures raw == old(raw)
      ensures findings == Findings(old(raw), assessmentId)
      ensures scores == Some(ScoreSheetOf(old(raw)))
      ensures complianceResults.Keys == Members(frameworks)
      ensures complianceScores == if frameworks == [] then None else Some(ScoresOf(complianceResults))
    {
      hide *;
      findings := GenerateFindings();
      var sheet := CalculateScores();
      scores, complianceScores := Some(sheet), None;
      complianceResults := MapToFrameworks();
    }

    /** `get_manifest`; `now` is the clock reading used for the date when the run never started. */
    method GetManifest(now: real) returns (m: Manifest)
      ensures m.assessmentId == assessmentId && m.version == "2.0.0" && m.assessmentType == "point_in_time"
      ensures m.customerName == customerName && m.tenantId == tenantId && m.frameworks == frameworks
      ensures m.primaryDomain == Take(tenantId, 8) + "...onmicrosoft.com"
      ensures m.date == startTime.GetOr(now)
      ensures m.durationSeconds == Duration(startTime, endTime)
      ensures m.assessor == assessor
      ensures m.scores == scores && m.complianceScores == complianceScores
      ensures m.findings == CountsOf(findings)
      ensures m.brandCompany == assessor && m.brandLogo == logo
    {
      var duration := 0;
      if startTime.Some? && endTime.Some? {
        duration := Trunc(endTime.value - startTime.value);
      }
      var counts := SeverityCounts(Count(findings, HasSeverity("critical")), Count(findings, HasSeverity("high")),
        Count(findings, HasSeverity("medium")), Count(findings, HasSeverity("low")),
        Count(findings, HasSeverity("informational")));
      m := Manifest(assessmentId, "2.0.0", customerName, tenantId, Take(tenantId, 8) + "...onmicrosoft.com",
        if startTime.Some? then startTime.value else now, duration, assessor, "point_in_time", frameworks,
        scores, complianceScores, counts, assessor, logo);
    }
  }
}
