/**
 * The device collector's derivations over the managed-device listing: compliance counts,
 * the non-compliant devices with their failure reasons, and the IT summary (OS
 * breakdown, encryption split, stale devices).
 */
module Devices {
  import opened Wrappers
  import opened Seqs
  import opened Numeric
  import opened Text

  /**
   * A managed device as the directory client lists it: every key is present, a text
   * value may be unset, the compliance state is always text and the encryption flag
   * always a boolean. `syncAgeSeconds` is how long ago `lastSync` was, when it can be
   * compared with the clock.
   */
  datatype Device = Device(id: Option<string>, deviceName: Option<string>, owner: Option<string>,
                           osVersion: Option<string>, operatingSystem: Option<string>,
                           complianceState: string, isEncrypted: bool,
                           lastSync: Option<string>, syncAgeSeconds: Option<int>)

  // ------------------------------------------------------------------ compliance counts

  function IsCompliant(d: Device): bool { Lower(d.complianceState) == "compliant" }
  function IsNonCompliant(d: Device): bool { Lower(d.complianceState) == "noncompliant" }
  function IsUnknownState(d: Device): bool { !IsCompliant(d) && !IsNonCompliant(d) }

  datatype DeviceCompliance = DeviceCompliance(compliantCount: nat, nonCompliantCount: nat, unknownCount: nat,
                                               totalDevices: nat, compliancePercent: real)

  /** What `collect_device_compliance` reports for a listing (without its cache). */
  function DeviceComplianceOf(devices: seq<Device>): DeviceCompliance {
    var compliant := Count(devices, IsCompliant);
    DeviceCompliance(compliant, Count(devices, IsNonCompliant), Count(devices, IsUnknownState), |devices|,
      Round1(if |devices| > 0 then Percent(compliant, |devices|) else 0.0))
  }

  /** `collect_device_compliance`: one pass incrementing the three state counters. */
  method CollectDeviceCompliance(devices: seq<Device>) returns (c: DeviceCompliance)
    ensures c == DeviceComplianceOf(devices)
  {
    var compliant, nonCompliant, unknown := 0, 0, 0;
    for i := 0 to |devices|
      invariant compliant == Count(devices[..i], IsCompliant)
      invariant nonCompliant == Count(devices[..i], IsNonCompliant)
      invariant unknown == Count(devices[..i], IsUnknownState)
    {
      CountStep(devices, IsCompliant, i);
      CountStep(devices, IsNonCompliant, i);
      CountStep(devices, IsUnknownState, i);
      var state := Lower(devices[i].complianceState);
      if state == "compliant" {
        compliant := compliant + 1;
      } else if state == "noncompliant" {
        nonCompliant := nonCompliant + 1;
      } else {
        unknown := unknown + 1;
      }
    }
    assert devices[..|devices|] == devices;
    var total := |devices|;
    var percent := if total > 0 then compliant as real / total as real * 100.0 else 0.0;
    c := DeviceCompliance(compliant, nonCompliant, unknown, total, Round1(percent));
  }

  /**
   * Every device is in exactly one state, so the three counts add up to the total; the
   * percentage lies in 0..100, is 0 without devices or without compliant ones, and 100
   * when every device is compliant (compared case-insensitively).
   */
  lemma DeviceComplianceFacts(devices: seq<Device>)
    ensures var c := DeviceComplianceOf(devices);
      c.compliantCount + c.nonCompliantCount + c.unknownCount == c.totalDevices == |devices| &&
      0.0 <= c.compliancePercent <= 100.0 &&
      (c.compliantCount == 0 ==> c.compliancePercent == 0.0) &&
      (c.compliantCount == c.totalDevices > 0 ==> c.compliancePercent == 100.0)
  {
    var either := (d: Device) => IsCompliant(d) || IsNonCompliant(d);
    CountDisjoint(devices, IsCompliant, IsNonCompliant, either);
    CountComplement(devices, either, IsUnknownState);
    var compliant := Count(devices, IsCompliant);
    Round1Tenths(0);
    Round1Tenths(1000);
    if |devices| > 0 {
      PercentBounds(compliant, |devices|);
      Round1Percent(Percent(compliant, |devices|));
      if compliant == |devices| { PercentWhole(|devices|); }
    }
  }

  // ------------------------------------------------------------------ failure reasons

  const DaySeconds: int := 24 * 60 * 60

  /** The sync age, consulted only when `last_sync` is set and non-empty. */
  function SyncAge(d: Device): Option<int> {
    if d.lastSync.Some? && d.lastSync.value != "" then d.syncAgeSeconds else None
  }

  /** Whole days since the last sync (`timedelta.days` floors, as Dafny's division by a positive number does). */
  function SyncDays(d: Device): Option<int> {
    if SyncAge(d).Some? then Some(SyncAge(d).value / DaySeconds) else None
  }

  function OsOutdated(version: string): bool {
    Contains(version, "10.0.19041") || Contains(version, "10.0.18")
  }

  function SyncOverdue(d: Device): bool {
    SyncDays(d).Some? && SyncDays(d).value > 14
  }

  function SyncReason(d: Device): string
    requires SyncOverdue(d)
  {
    "Not synced in " + NatToString(SyncDays(d).value) + " days"
  }

  /** The failure reasons of a device whose OS version is `version`. */
  function ReasonsFor(d: Device, version: string): seq<string> {
    var reasons := (if !d.isEncrypted then ["Device not encrypted"] else [])
      + (if OsOutdated(version) then ["OS version outdated"] else [])
      + (if SyncOverdue(d) then [SyncReason(d)] else []);
    if reasons == [] then ["Policy violation detected"] else reasons
  }

  /**
   * `_determine_failure_reasons` as written: `device.get("os_version", "")` yields `None`
   * for a device whose version is unset, since the key is always present, and the
   * substring test then raises.
   */
  function FailureReasonsAsWritten(d: Device): Result<seq<string>> {
    if d.osVersion.None? then Failure("argument of type 'NoneType' is not iterable")
    else Ok(ReasonsFor(d, d.osVersion.value))
  }

  /** A non-compliant device with no OS version makes the reasons, and so the whole listing, fail. */
  lemma UnsetVersionRaises(d: Device)
    requires d.osVersion.None?
    ensures FailureReasonsAsWritten(d).Failure?
    ensures "OS version outdated" !in FailureReasons(d)
  {
    assert !Contains("", "10.0.19041") && !Contains("", "10.0.18");
  }

  /** The reasons with an unset version read as the empty text, as the default intends. */
  function FailureReasons(d: Device): (r: seq<string>)
    ensures r != []
  {
    ReasonsFor(d, d.osVersion.GetOr(""))
  }

  /** The appending steps of `_determine_failure_reasons`, with an unset version read as "". */
  method DetermineFailureReasons(d: Device) returns (reasons: seq<string>)
    ensures reasons == FailureReasons(d)
  {
    reasons := [];
    if !d.isEncrypted {
      reasons := reasons + ["Device not encrypted"];
    }
    var version := d.osVersion.GetOr("");
    if OsOutdated(version) {
      reasons := reasons + ["OS version outdated"];
    }
    var age := SyncAge(d);
    if age.Some? {
      var days := age.value / DaySeconds;
      if days > 14 {
        reasons := reasons + ["Not synced in " + NatToString(days) + " days"];
      }
    }
    if reasons == [] {
      reasons := reasons + ["Policy violation detected"];
    }
  }

  /**
   * The reasons are never empty; each specific reason appears exactly when its condition
   * holds; the generic policy reason appears exactly when none does; and the reasons of
   * a device with a known version are those the code as written computes.
   */
  lemma FailureReasonsFacts(d: Device)
    ensures var r := FailureReasons(d);
      r != [] &&
      ("Device not encrypted" in r <==> !d.isEncrypted) &&
      ("OS version outdated" in r <==> OsOutdated(d.osVersion.GetOr(""))) &&
      ((exists k :: 0 <= k < |r| && r[k] != "Device not encrypted" && r[k] != "OS version outdated" && r[k] != "Policy violation detected") <==> SyncOverdue(d)) &&
      ("Policy violation detected" in r <==> d.isEncrypted && !OsOutdated(d.osVersion.GetOr("")) && !SyncOverdue(d)) &&
      (d.osVersion.Some? ==> FailureReasonsAsWritten(d) == Ok(r))
  {
    var r := FailureReasons(d);
    var version := d.osVersion.GetOr("");
    var a := if !d.isEncrypted then ["Device not encrypted"] else [];
    var b := if OsOutdated(version) then ["OS version outdated"] else [];
    var c := if SyncOverdue(d) then [SyncReason(d)] else [];
    if SyncOverdue(d) {
      var s := SyncReason(d);
      assert s[0] == 'N';
      assert s != "Device not encrypted" && s != "OS version outdated" && s != "Policy violation detected";
      assert r == a + b + c;
      assert r[|r| - 1] == s;
    } else {
      forall k | 0 <= k < |r| ensures r[k] == "Device not encrypted" || r[k] == "OS version outdated" || r[k] == "Policy violation detected" {
        if a + b + c != [] {
          assert r == a + b;
        }
      }
    }
  }

  // ------------------------------------------------------------------ non-compliant devices

  /** A row of `get_non_compliant_devices`. */
  datatype NonCompliantDevice = NonCompliantDevice(deviceId: Option<string>, deviceName: Option<string>, osType: Option<string>,
                                                   osVersion: Option<string>, owner: Option<string>, complianceState: string,
                                                   lastSync: Option<string>, isEncrypted: bool, failureReasons: seq<string>)

  function NonCompliantRow(d: Device): NonCompliantDevice {
    NonCompliantDevice(d.id, d.deviceName, d.operatingSystem, d.osVersion, d.owner, d.complianceState,
      d.lastSync, d.isEncrypted, FailureReasons(d))
  }

  /** `get_non_compliant_devices`: the devices whose lowered state is "noncompliant", in listing order. */
  method GetNonCompliantDevices(devices: seq<Device>) returns (rows: seq<NonCompliantDevice>)
    ensures rows == MapSeq(Filter(devices, IsNonCompliant), NonCompliantRow)
  {
    rows := [];
    for i := 0 to |devices|
      invariant rows == MapSeq(Filter(devices[..i], IsNonCompliant), NonCompliantRow)
    {
      FilterMapStep(devices, IsNonCompliant, NonCompliantRow, i);
      var device := devices[i];
      if Lower(device.complianceState) == "noncompliant" {
        var reasons := DetermineFailureReasons(device);
        rows := rows + [NonCompliantDevice(device.id, device.deviceName, device.operatingSystem, device.osVersion,
          device.owner, device.complianceState, device.lastSync, device.isEncrypted, reasons)];
      }
    }
    assert devices[..|devices|] == devices;
  }

  /**
   * There are as many rows as non-compliant devices in the compliance counts; a row
   * exists for exactly the non-compliant devices; and each row carries reasons.
   */
  lemma NonCompliantDevicesFacts(devices: seq<Device>)
    ensures var rows := MapSeq(Filter(devices, IsNonCompliant), NonCompliantRow);
      |rows| == DeviceComplianceOf(devices).nonCompliantCount &&
      (forall d :: d in devices ==> (NonCompliantRow(d) in rows <==> IsNonCompliant(d) || exists e :: e in devices && IsNonCompliant(e) && NonCompliantRow(e) == NonCompliantRow(d))) &&
      (forall d :: d in devices && IsNonCompliant(d) ==> NonCompliantRow(d) in rows) &&
      (forall k :: 0 <= k < |rows| ==> rows[k].failureReasons != [] && Lower(rows[k].complianceState) == "noncompliant")
  {
    var kept := Filter(devices, IsNonCompliant);
    forall d | d in devices
      ensures NonCompliantRow(d) in MapSeq(kept, NonCompliantRow) <==> exists e :: e in devices && IsNonCompliant(e) && NonCompliantRow(e) == NonCompliantRow(d)
    {
      FilterMapMembers(devices, IsNonCompliant, NonCompliantRow, NonCompliantRow(d));
    }
    forall k | 0 <= k < |kept| ensures IsNonCompliant(kept[k]) {
      FilterMembers(devices, IsNonCompliant, kept[k]);
    }
  }

  // ------------------------------------------------------------------ device summary

  /** A row of the stale-device list. */
  datatype StaleDevice = StaleDevice(deviceName: Option<string>, lastSync: Option<string>, owner: Option<string>)

  datatype DeviceSummary = DeviceSummary(totalDevices: nat, osBreakdown: map<Option<string>, nat>,
                                         encrypted: nat, notEncrypted: nat, staleDevices: seq<StaleDevice>, staleCount: nat)

  function OsOf(d: Device): Option<string> { d.operatingSystem }
  function Encrypted(d: Device): bool { d.isEncrypted }
  function NotEncrypted(d: Device): bool { !d.isEncrypted }

  /** Not synced for more than thirty days. */
  function IsStale(d: Device): bool {
    SyncAge(d).Some? && SyncAge(d).value > 30 * DaySeconds
  }

  function StaleRow(d: Device): StaleDevice {
    StaleDevice(d.deviceName, d.lastSync, d.owner)
  }

  /** What `get_device_summary` reports for a listing. */
  function DeviceSummaryOf(devices: seq<Device>): DeviceSummary {
    var stale := MapSeq(Filter(devices, IsStale), StaleRow);
    DeviceSummary(|devices|, TallyBy(devices, OsOf), Count(devices, Encrypted), Count(devices, NotEncrypted), stale, |stale|)
  }

  /** The accumulators of the summary loop. */
  datatype SummarySums = SummarySums(osBreakdown: map<Option<string>, nat>, encrypted: nat, notEncrypted: nat, stale: seq<StaleDevice>)

  ghost function SummarySumsOf(devices: seq<Device>): SummarySums {
    SummarySums(TallyBy(devices, OsOf), Count(devices, Encrypted), Count(devices, NotEncrypted), MapSeq(Filter(devices, IsStale), StaleRow))
  }

  lemma SummaryStep(devices: seq<Device>, i: nat)
    requires i < |devices|
    ensures var s, d := SummarySumsOf(devices[..i]), devices[i];
      SummarySumsOf(devices[..i + 1]) == SummarySums(Bumped(s.osBreakdown, d.operatingSystem),
        s.encrypted + (if d.isEncrypted then 1 else 0), s.notEncrypted + (if d.isEncrypted then 0 else 1),
        s.stale + (if IsStale(d) then [StaleRow(d)] else []))
  {
    TallyByStep(devices, OsOf, i);
    CountStep(devices, Encrypted, i);
    CountStep(devices, NotEncrypted, i);
    FilterMapStep(devices, IsStale, StaleRow, i);
  }

  /** `get_device_summary`: one pass bumping the OS count, the encryption counters and the stale list. */
  method GetDeviceSummary(devices: seq<Device>) returns (summary: DeviceSummary)
    ensures summary == DeviceSummaryOf(devices)
  {
    var osBreakdown: map<Option<string>, nat> := map[];
    var encrypted, notEncrypted := 0, 0;
    var stale: seq<StaleDevice> := [];
    for i := 0 to |devices|
      invariant SummarySums(osBreakdown, encrypted, notEncrypted, stale) == SummarySumsOf(devices[..i])
    {
      SummaryStep(devices, i);
      hide *;
      var device := devices[i];
      osBreakdown := Bumped(osBreakdown, device.operatingSystem);
      if device.isEncrypted {
        encrypted := encrypted + 1;
      } else {
        notEncrypted := notEncrypted + 1;
      }
      if IsStale(device) {
        stale := stale + [StaleRow(device)];
      }
    }
    assert devices[..|devices|] == devices;
    summary := DeviceSummary(|devices|, osBreakdown, encrypted, notEncrypted, stale, |stale|);
  }

  /**
   * Encrypted and unencrypted devices add up to the total; the OS breakdown has exactly
   * the OS values listed, each with a positive count, and summing it over any list of
   * distinct OS values covering them gives the total; the stale count is the length of
   * the stale list and at most the total.
   */
  lemma DeviceSummaryFacts(devices: seq<Device>, systems: seq<Option<string>>)
    requires Distinct(systems) && forall d :: d in devices ==> d.operatingSystem in systems
    ensures var s := DeviceSummaryOf(devices);
      s.encrypted + s.notEncrypted == s.totalDevices &&
      s.osBreakdown.Keys == (set d | d in devices :: d.operatingSystem) &&
      (forall o :: o in s.osBreakdown ==> s.osBreakdown[o] > 0) &&
      SumAt(systems, s.osBreakdown) == s.totalDevices &&
      s.staleCount == |s.staleDevices| <= s.totalDevices
  {
    CountComplement(devices, Encrypted, NotEncrypted);
    TallyByPositive(devices, OsOf);
    TallyBySum(devices, OsOf, systems);
  }
}
