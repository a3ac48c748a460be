/**
 * The assessment snapshot (`raw_data`) as the engine and the grading read it, and the
 * findings the engine produces. Every collector payload is a JSON-like dictionary read
 * with `.get(key, default)`: each field that may be absent is an `Option`, and a domain
 * whose collector raised holds the error sentinel `{"error": message}`, which has none
 * of the payload's keys.
 */
module Snapshot {
  import opened Wrappers

  /** One entry of `raw_data["secure_score"]["controls"]`. */
  datatype ScoreControl = ScoreControl(name: Option<string>, score: Option<real>, maxScore: Option<real>)

  /** `raw_data["secure_score"]`: `score.current_score` and the `controls` list. */
  datatype SecureScoreData = SecureScoreData(currentScore: Option<real>, controls: seq<ScoreControl>)

  /**
   * `raw_data["identity"]`: the fields of `mfa_coverage`, `privileged_accounts` and
   * `risky_users` that are read, and the `state` of each conditional access policy.
   */
  datatype IdentityData = IdentityData(
    adminCoverage: Option<real>,
    userCoverage: Option<real>,
    globalAdminCount: Option<int>,
    highRiskCount: Option<int>,
    policyStates: seq<Option<string>>)

  /** `raw_data["devices"]["compliance"]["compliance_percent"]`. */
  datatype DeviceData = DeviceData(compliancePercent: Option<real>)

  /** `raw_data["threats"]["summary"]["critical_count"]`. */
  datatype ThreatData = ThreatData(criticalCount: Option<int>)

  /** `raw_data["backup"]`: `health.status`, `health.protected_percent` and the recovery statuses. */
  datatype BackupData = BackupData(
    healthStatus: Option<string>,
    protectedPercent: Option<real>,
    rtoStatus: Option<string>,
    rpoStatus: Option<string>)

  datatype Payload =
    | SecureScorePayload(secureScore: SecureScoreData)
    | IdentityPayload(identity: IdentityData)
    | DevicePayload(devices: DeviceData)
    | ThreatPayload(threats: ThreatData)
    | BackupPayload(backup: BackupData)

  /** What one snapshot key holds: a collected payload or the error sentinel. */
  datatype DomainValue = Collected(payload: Payload) | ErrorSentinel(message: string)

  /** The five keys of `raw_data` that the collectors write. */
  datatype Domain = SecureScoreKey | IdentityKey | DevicesKey | ThreatsKey | BackupKey

  /** The JSON key each domain is stored under. */
  function KeyName(d: Domain): string {
    match d
      case SecureScoreKey => "secure_score"
      case IdentityKey => "identity"
      case DevicesKey => "devices"
      case ThreatsKey => "threats"
      case BackupKey => "backup"
  }

  type RawData = map<Domain, DomainValue>

  /** The five keys `collect_all` writes, in collection order. */
  const DomainKeys: seq<Domain> := [SecureScoreKey, IdentityKey, DevicesKey, ThreatsKey, BackupKey]

  const NoSecureScore := SecureScoreData(None, [])
  const NoIdentity := IdentityData(None, None, None, None, [])
  const NoDevices := DeviceData(None)
  const NoThreats := ThreatData(None)
  const NoBackup := BackupData(None, None, None, None)

  /** `raw_data.get("secure_score", {})`: an absent key and the error sentinel both read as no fields. */
  function SecureScoreOf(raw: RawData): SecureScoreData {
    if SecureScoreKey in raw && raw[SecureScoreKey].Collected? && raw[SecureScoreKey].payload.SecureScorePayload?
    then raw[SecureScoreKey].payload.secureScore else NoSecureScore
  }

  function IdentityOf(raw: RawData): IdentityData {
    if IdentityKey in raw && raw[IdentityKey].Collected? && raw[IdentityKey].payload.IdentityPayload?
    then raw[IdentityKey].payload.identity else NoIdentity
  }

  function DevicesOf(raw: RawData): DeviceData {
    if DevicesKey in raw && raw[DevicesKey].Collected? && raw[DevicesKey].payload.DevicePayload?
    then raw[DevicesKey].payload.devices else NoDevices
  }

  function ThreatsOf(raw: RawData): ThreatData {
    if ThreatsKey in raw && raw[ThreatsKey].Collected? && raw[ThreatsKey].payload.ThreatPayload?
    then raw[ThreatsKey].payload.threats else NoThreats
  }

  function BackupOf(raw: RawData): BackupData {
    if BackupKey in raw && raw[BackupKey].Collected? && raw[BackupKey].payload.BackupPayload?
    then raw[BackupKey].payload.backup else NoBackup
  }

  /**
   * A finding as the engine writes it (`findings.json`). The description text and the
   * affected-resource samples are not modelled.
   */
  datatype Finding = Finding(
    id: string,
    title: string,
    severity: string,
    category: string,
    frameworkControls: seq<string>,
    recommendation: string)
}
