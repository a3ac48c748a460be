/** The enumerations shared by the collectors, the engine and the reports. */
module Schemas {

  datatype Severity = Critical | High | Medium | Low | Informational {
    /** The enum member's string value. */
    function Name(): string {
      match this
        case Critical => "critical"
        case High => "high"
        case Medium => "medium"
        case Low => "low"
        case Informational => "informational"
    }
  }

  datatype TrendDirection = Up | Down | Stable {
    function Name(): string {
      match this
        case Up => "up"
        case Down => "down"
        case Stable => "stable"
    }
  }

  datatype BackupStatus = Healthy | Warning | CriticalStatus | AtRisk | NotConfigured | Unknown {
    function Name(): string {
      match this
        case Healthy => "healthy"
        case Warning => "warning"
        case CriticalStatus => "critical"
        case AtRisk => "at_risk"
        case NotConfigured => "not_configured"
        case Unknown => "unknown"
    }
  }

  /** The enums serialise to pairwise distinct strings, so a stored value names one member. */
  lemma NamesDistinct()
    ensures forall s: Severity, t: Severity :: s.Name() == t.Name() ==> s == t
    ensures forall s: BackupStatus, t: BackupStatus :: s.Name() == t.Name() ==> s == t
    ensures forall s: TrendDirection, t: TrendDirection :: s.Name() == t.Name() ==> s == t
  {
  }
}
