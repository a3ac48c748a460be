/**
 * The backup collector's ransomware-readiness rules: protection coverage and backup-health
 * status, and the recovery time / recovery point objective (RTO / RPO) statuses with their
 * worst-of overall status. The vault, protected-item and job fetches arrive as one value.
 */
module Backup {
  import opened Wrappers
  import opened Seqs
  import opened Numeric
  import opened Text
  import opened Sorting
  import opened Schemas

  /** A backup job as the job listing reports it. */
  datatype BackupJob = BackupJob(status: Option<string>, endTime: Option<string>)

  /** What the vault, protected-item and job fetches return. */
  datatype BackupFetch = BackupFetch(vaultCount: nat, protectedCount: nat, jobs: seq<BackupJob>)

  // ------------------------------------------------------------------ the last successful job

  function IsCompleted(j: BackupJob): bool {
    j.status == Some("Completed")
  }

  /** `x.get("end_time", "")`, the sort key. */
  function EndKey(j: BackupJob): string {
    j.endTime.GetOr("")
  }

  /** `key=end_time, reverse=True`: later end times first. */
  function Newest(): (BackupJob, BackupJob) -> bool {
    (a: BackupJob, b: BackupJob) => LexLe(EndKey(b), EndKey(a))
  }

  lemma NewestTotal()
    ensures TotalPreorder(Newest())
  {
    forall a: BackupJob, b: BackupJob ensures Newest()(a, b) || Newest()(b, a) {
      LexTotal(EndKey(a), EndKey(b));
    }
    forall a: BackupJob, b: BackupJob, c: BackupJob | Newest()(a, b) && Newest()(b, c) ensures Newest()(a, c) {
      LexTransitive(EndKey(c), EndKey(b), EndKey(a));
    }
  }

  /** `successful_jobs[0]` after the stable descending sort; `None` without a completed job. */
  function LastSuccessful(jobs: seq<BackupJob>): Option<BackupJob> {
    var successful := Filter(jobs, IsCompleted);
    if successful == [] then None else Some(SortBy(successful, Newest())[0])
  }

  /**
   * The job picked is a completed job with the latest end time of all completed jobs
   * (compared as strings, a missing time as ""), the first such job in listing order;
   * there is none exactly when no job completed.
   */
  lemma LastSuccessfulFacts(jobs: seq<BackupJob>)
    ensures LastSuccessful(jobs).None? <==> forall j :: j in jobs ==> !IsCompleted(j)
    ensures LastSuccessful(jobs).Some? ==>
      var last := LastSuccessful(jobs).value;
      last in jobs && IsCompleted(last) &&
      (forall j :: j in jobs && IsCompleted(j) ==> LexLe(EndKey(j), EndKey(last))) &&
      SameRank(Filter(jobs, IsCompleted), last, Newest()) != [] &&
      SameRank(Filter(jobs, IsCompleted), last, Newest())[0] == last
  {
    var successful := Filter(jobs, IsCompleted);
    forall j | j in jobs ensures IsCompleted(j) <==> j in successful {
      FilterMembers(jobs, IsCompleted, j);
    }
    if successful != [] {
      NewestTotal();
      var sorted := SortBy(successful, Newest());
      var last := sorted[0];
      SortHead(successful, Newest());
      SortMembers(successful, Newest(), last);
      FilterMembers(jobs, IsCompleted, last);
      SortStable(successful, last, Newest());
      assert Newest()(last, last);
      assert SameRank(sorted, last, Newest())[0] == last by {
        assert sorted == [sorted[0]] + sorted[1..];
      }
    }
  }

  /**
   * Hours since the last successful backup, when its end time is set and parses;
   * `ageHours` stands for parsing the time and subtracting it from the current time.
   */
  function HoursSinceLast(jobs: seq<BackupJob>, ageHours: string -> Option<int>): Option<int> {
    var last := LastSuccessful(jobs);
    if last.Some? && last.value.endTime.Some? && last.value.endTime.value != "" then ageHours(last.value.endTime.value) else None
  }

  // ------------------------------------------------------------------ backup health

  datatype BackupHealth = BackupHealth(
    protectedPercent: real,
    totalProtectedItems: nat,
    totalCriticalSystems: nat,
    lastSuccessfulBackup: Option<string>,
    hoursSinceBackup: Option<int>,
    status: BackupStatus)

  /** The health reported when a fetch fails or no vault exists. */
  const NotConfiguredHealth := BackupHealth(0.0, 0, 0, None, None, NotConfigured)

  /** The assumed number of critical systems: never fewer than 10. */
  function CriticalSystems(protectedCount: nat): nat {
    if protectedCount >= 10 then protectedCount else 10
  }

  function ProtectedPercent(protectedCount: nat): real {
    Percent(protectedCount, CriticalSystems(protectedCount))
  }

  /** Coverage lies in 0..100, is 100 exactly from 10 protected items on, and is ten points per item below that. */
  lemma ProtectedPercentFacts(protectedCount: nat)
    ensures 0.0 <= ProtectedPercent(protectedCount) <= 100.0
    ensures ProtectedPercent(protectedCount) == 100.0 <==> protectedCount >= 10
    ensures protectedCount < 10 ==> ProtectedPercent(protectedCount) == 10.0 * protectedCount as real
    ensures Round1(ProtectedPercent(protectedCount)) == ProtectedPercent(protectedCount)
  {
    var n := protectedCount as real;
    PercentBounds(protectedCount, CriticalSystems(protectedCount));
    if protectedCount >= 10 {
      PercentWhole(protectedCount);
      Round1Tenths(1000);
    } else {
      assert CriticalSystems(protectedCount) == 10;
      assert n / 10.0 * 100.0 == 10.0 * n;
      Round1Tenths(100 * protectedCount);
      assert (100 * protectedCount) as real / 10.0 == 10.0 * n;
    }
  }

  /** The health status rule: healthy, else warning, else at risk, by coverage and backup age. */
  function HealthStatus(percent: real, hoursSince: Option<int>): (s: BackupStatus)
    ensures s == Healthy <==> percent >= 90.0 && (hoursSince.None? || hoursSince.value < 24)
    ensures s == Warning <==> (!(percent >= 90.0 && (hoursSince.None? || hoursSince.value < 24)) &&
                               percent >= 70.0 && (hoursSince.None? || hoursSince.value < 48))
    ensures s == AtRisk <==> s != Healthy && s != Warning
  {
    if percent >= 90.0 && (hoursSince.None? || hoursSince.value < 24) then Healthy
    else if percent >= 70.0 && (hoursSince.None? || hoursSince.value < 48) then Warning
    else AtRisk
  }

  /** `collect_backup_health` (without its cache), given the fetch result and the age parser. */
  function BackupHealthOf(fetched: Option<BackupFetch>, ageHours: string -> Option<int>): BackupHealth {
    if fetched.None? || fetched.value.vaultCount == 0 then NotConfiguredHealth
    else
      var f := fetched.value;
      var percent := ProtectedPercent(f.protectedCount);
      var last := LastSuccessful(f.jobs);
      var hoursSince := HoursSinceLast(f.jobs, ageHours);
      BackupHealth(Round1(percent), f.protectedCount, CriticalSystems(f.protectedCount),
        if last.Some? then last.value.endTime else None, hoursSince, HealthStatus(percent, hoursSince))
  }

  /**
   * A failed fetch or a tenant without vaults is not configured, with nothing counted;
   * any other tenant gets a status by the health rule, a coverage in 0..100 that is 100
   * from 10 protected items on, and at least 10 critical systems, none fewer than protected.
   */
  lemma BackupHealthFacts(fetched: Option<BackupFetch>, ageHours: string -> Option<int>)
    ensures var h := BackupHealthOf(fetched, ageHours);
      (h.status == NotConfigured <==> fetched.None? || fetched.value.vaultCount == 0) &&
      (h.status == NotConfigured ==> h.protectedPercent == 0.0 && h.totalProtectedItems == 0 && h.totalCriticalSystems == 0) &&
      (h.status != NotConfigured ==>
        0.0 <= h.protectedPercent <= 100.0 &&
        (h.protectedPercent == 100.0 <==> h.totalProtectedItems >= 10) &&
        10 <= h.totalCriticalSystems && h.totalProtectedItems <= h.totalCriticalSystems &&
        h.status == HealthStatus(h.protectedPercent, h.hoursSinceBackup)) &&
      (h.hoursSinceBackup.Some? ==> h.lastSuccessfulBackup.Some?)
  {
    if fetched.Some? && fetched.value.vaultCount > 0 {
      ProtectedPercentFacts(fetched.value.protectedCount);
    }
  }

  /** Healthy needs nine protected items (90%) and a backup within the day, when its age is known. */
  lemma HealthyNeedsNine(fetched: Option<BackupFetch>, ageHours: string -> Option<int>)
    requires fetched.Some? && fetched.value.vaultCount > 0
    ensures var h := BackupHealthOf(fetched, ageHours);
      h.status == Healthy <==> fetched.value.protectedCount >= 9 && (h.hoursSinceBackup.None? || h.hoursSinceBackup.value < 24)
  {
    ProtectedPercentFacts(fetched.value.protectedCount);
  }

  // ------------------------------------------------------------------ recovery readiness

  const RtoTargetHours: int := 24
  const RpoTargetHours: int := 4

  /** `status_for_metric`: within target is healthy, within half as much again a warning, beyond at risk. */
  function StatusForMetric(actual: int, target: int): (s: BackupStatus)
    ensures s == Healthy <==> actual <= target
    ensures s == Warning <==> target < actual && actual as real <= target as real * 1.5
    ensures s == AtRisk <==> actual as real > target as real * 1.5 && actual > target
  {
    if actual <= target then Healthy
    else if actual as real <= target as real * 1.5 then Warning
    else AtRisk
  }

  /** The order healthy < warning < at risk on the statuses a metric can have. */
  function Severity(s: BackupStatus): nat {
    match s
      case Healthy => 0
      case Warning => 1
      case _ => 2
  }

  /** The overall status: at risk if either is, else warning if either is, else healthy. */
  function WorseOf(rto: BackupStatus, rpo: BackupStatus): BackupStatus {
    if rto == AtRisk || rpo == AtRisk then AtRisk
    else if rto == Warning || rpo == Warning then Warning
    else Healthy
  }

  /** On metric statuses, the overall status is the worse of the two. */
  lemma WorseOfIsMax(rto: BackupStatus, rpo: BackupStatus)
    requires rto in {Healthy, Warning, AtRisk} && rpo in {Healthy, Warning, AtRisk}
    ensures Severity(WorseOf(rto, rpo)) == MaxInt(Severity(rto), Severity(rpo))
    ensures WorseOf(rto, rpo) == WorseOf(rpo, rto)
    ensures WorseOf(rto, rpo) in {rto, rpo}
  {
  }

  datatype RecoveryReadiness = RecoveryReadiness(
    rtoStatus: BackupStatus,
    rpoStatus: BackupStatus,
    rtoTargetHours: int,
    rpoTargetHours: int,
    rtoActualHours: Option<int>,
    rpoActualHours: Option<int>,
    overallStatus: BackupStatus)

  /** The measured RPO: hours since the last successful backup, the target when unknown. */
  function RpoActual(jobs: seq<BackupJob>, ageHours: string -> Option<int>): int {
    HoursSinceLast(jobs, ageHours).GetOr(RpoTargetHours)
  }

  /** The assumed RTO, `min(rto_target, 18)`. */
  function RtoActual(): int {
    MinInt(RtoTargetHours, 18)
  }

  /** The readiness of a tenant whose fetches succeeded and that has a vault. */
  function ConfiguredReadiness(f: BackupFetch, ageHours: string -> Option<int>): RecoveryReadiness {
    var rpoActual := RpoActual(f.jobs, ageHours);
    var rtoStatus, rpoStatus := StatusForMetric(RtoActual(), RtoTargetHours), StatusForMetric(rpoActual, RpoTargetHours);
    RecoveryReadiness(rtoStatus, rpoStatus, RtoTargetHours, RpoTargetHours, Some(RtoActual()), Some(rpoActual), WorseOf(rtoStatus, rpoStatus))
  }

  /**
   * `collect_recovery_readiness` as written. Its two not-configured returns build the
   * record without the two target fields, which the record type requires, so they raise
   * a validation error instead of returning.
   */
  function RecoveryReadinessAsWritten(fetched: Option<BackupFetch>, ageHours: string -> Option<int>): Result<RecoveryReadiness> {
    if fetched.None? || fetched.value.vaultCount == 0 then Failure("rto_target_hours: Field required")
    else Ok(ConfiguredReadiness(fetched.value, ageHours))
  }

  /** A tenant without vaults makes the collector raise rather than report "not configured". */
  lemma NoVaultRaises(ageHours: string -> Option<int>)
    ensures RecoveryReadinessAsWritten(Some(BackupFetch(0, 0, [])), ageHours).Failure?
    ensures RecoveryReadinessAsWritten(None, ageHours).Failure?
  {
  }

  /** The not-configured readiness the collector evidently means to return, with the default targets. */
  const NotConfiguredReadiness := RecoveryReadiness(NotConfigured, NotConfigured, RtoTargetHours, RpoTargetHours, None, None, NotConfigured)

  /** `collect_recovery_readiness` with its not-configured returns completed by the default targets. */
  function RecoveryReadinessOf(fetched: Option<BackupFetch>, ageHours: string -> Option<int>): RecoveryReadiness {
    if fetched.None? || fetched.value.vaultCount == 0 then NotConfiguredReadiness
    else ConfiguredReadiness(fetched.value, ageHours)
  }

  /**
   * Every fetch result yields a readiness: not configured throughout exactly for a failed
   * fetch or no vault, and otherwise the same readiness the collector computes. The RTO is
   * then always healthy, the RPO is healthy when no completed backup has a known age, and
   * the overall status is the worse of the two.
   */
  lemma RecoveryReadinessFacts(fetched: Option<BackupFetch>, ageHours: string -> Option<int>)
    ensures var r := RecoveryReadinessOf(fetched, ageHours);
      (r.overallStatus == NotConfigured <==> fetched.None? || fetched.value.vaultCount == 0) &&
      (r.overallStatus == NotConfigured ==> r.rtoStatus == NotConfigured && r.rpoStatus == NotConfigured) &&
      (r.overallStatus != NotConfigured ==>
        RecoveryReadinessAsWritten(fetched, ageHours) == Ok(r) &&
        r.rtoStatus == Healthy && r.rtoActualHours == Some(18) &&
        (HoursSinceLast(fetched.value.jobs, ageHours).None? ==> r.rpoStatus == Healthy && r.rpoActualHours == Some(RpoTargetHours)) &&
        (r.rpoStatus == Healthy <==> r.rpoActualHours.value <= 4) &&
        (r.rpoStatus == AtRisk <==> r.rpoActualHours.value > 6) &&
        r.overallStatus == r.rpoStatus)
  {
    if fetched.Some? && fetched.value.vaultCount > 0 {
      var r := RecoveryReadinessOf(fetched, ageHours);
      WorseOfIsMax(r.rtoStatus, r.rpoStatus);
    }
  }
}
