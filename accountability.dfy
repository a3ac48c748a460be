/**
 * The accountability collector's arithmetic: patch SLA compliance, the age distribution
 * of open findings, mean time to remediate, weekly remediation velocity and the
 * weighted accountability score. The findings arrive as a list already fetched.
 */
module Accountability {
  import opened Wrappers
  import opened Seqs
  import opened Numeric
  import opened Text
  import opened Sorting

  /**
   * A timestamp field: falsy (absent or empty), present but not an ISO date (parsing
   * raises and the finding is skipped), or an instant in seconds.
   */
  datatype Stamp = Unset | Garbled | At(seconds: int)

  /** A stored finding, as far as these metrics read it; its status may be missing, null or text. */
  datatype TrackedFinding = TrackedFinding(severity: Option<string>, status: Entry, created: Stamp, resolved: Stamp)

  // ------------------------------------------------------------------ patch SLA

  /** `DEFAULT_SLA`: the days allowed per severity. */
  const DefaultSla: map<string, int> := map["critical" := 7, "high" := 14, "medium" := 30, "low" := 90]

  /** `DEFAULT_SLA.get(severity, 30)`. */
  function SlaDays(severity: string): int {
    if severity in DefaultSla then DefaultSla[severity] else 30
  }

  lemma SlaDaysValues(severity: string)
    ensures SlaDays("critical") == 7 && SlaDays("high") == 14 && SlaDays("medium") == 30 && SlaDays("low") == 90
    ensures severity !in {"critical", "high", "medium", "low"} ==> SlaDays(severity) == 30
    ensures 7 <= SlaDays(severity) <= 90
  {
  }

  /**
   * Whether a finding counts towards the SLA and, if so, whether it met it: a resolved
   * finding by its resolution time, an open one by its age at `now`. A finding whose
   * dates do not parse, or with any other status (a null one included), does not count;
   * a dated finding without a status counts as open.
   */
  function SlaVerdict(f: TrackedFinding, now: int): (v: Option<bool>)
    ensures f.status.Null? ==> v.None?
    ensures f.status.Absent? && f.created.At? ==> v.Some?
  {
    var limit := SlaDays(Lower(f.severity.GetOr("medium")));
    var status := f.status.Get("open");
    if status == Some("resolved") && f.resolved != Unset && f.created != Unset then
      if f.resolved.At? && f.created.At? then Some(DaysBetween(f.resolved.seconds, f.created.seconds) <= limit) else None
    else if status == Some("open") && f.created != Unset then
      if f.created.At? then Some(DaysBetween(now, f.created.seconds) <= limit) else None
    else None
  }

  function MetSla(now: int): TrackedFinding -> bool {
    f => SlaVerdict(f, now) == Some(true)
  }

  function MissedSla(now: int): TrackedFinding -> bool {
    f => SlaVerdict(f, now) == Some(false)
  }

  function CountsForSla(now: int): TrackedFinding -> bool {
    f => SlaVerdict(f, now).Some?
  }

  datatype PatchSla = PatchSla(
    compliancePercent: real,
    targetPercent: real,
    patchesInSla: nat,
    patchesTotal: nat,
    criticalSlaDays: int,
    highSlaDays: int,
    mediumSlaDays: int)

  function PatchSlaOf(findings: seq<TrackedFinding>, now: int, targetPercent: real): PatchSla {
    var inSla := Count(findings, MetSla(now));
    var total := inSla + Count(findings, MissedSla(now));
    var percent := if total > 0 then Percent(inSla, total) else 100.0;
    PatchSla(Round1(percent), targetPercent, inSla, total, SlaDays("critical"), SlaDays("high"), SlaDays("medium"))
  }

  /** The total is the number of findings that count, and at most that many met the SLA. */
  lemma PatchSlaCounts(findings: seq<TrackedFinding>, now: int, targetPercent: real)
    ensures var s := PatchSlaOf(findings, now, targetPercent);
      s.patchesInSla <= s.patchesTotal == Count(findings, CountsForSla(now))
  {
    hide DaysBetween, Lower, SlaDays;
    forall f | f in findings
      ensures (CountsForSla(now)(f) <==> MetSla(now)(f) || MissedSla(now)(f)) && !(MetSla(now)(f) && MissedSla(now)(f))
    {
      var verdict := SlaVerdict(f, now);
      assert verdict.Some? ==> verdict.value || !verdict.value;
    }
    CountDisjoint(findings, MetSla(now), MissedSla(now), CountsForSla(now));
  }

  /** The percentage lies in 0..100, and it is 100 when nothing counts or everything met the SLA. */
  lemma PatchSlaBounds(findings: seq<TrackedFinding>, now: int, targetPercent: real)
    ensures var s := PatchSlaOf(findings, now, targetPercent);
      0.0 <= s.compliancePercent <= 100.0 &&
      (s.patchesInSla == s.patchesTotal ==> s.compliancePercent == 100.0)
  {
    hide SlaVerdict, Round1, Percent;
    RoundedShare(Count(findings, MetSla(now)), Count(findings, MissedSla(now)));
  }

  /** The rounded share of `met` among `met + missed` findings, 100 when there are none. */
  lemma RoundedShare(met: nat, missed: nat)
    ensures var p := Round1(if met + missed > 0 then Percent(met, met + missed) else 100.0);
      0.0 <= p <= 100.0 && (missed == 0 ==> p == 100.0)
  {
    Round1Tenths(1000);
    if met + missed > 0 {
      PercentBounds(met, met + missed);
      Round1Percent(Percent(met, met + missed));
      if missed == 0 {
        PercentWhole(met);
      }
    }
  }

  /** `collect_patch_sla_compliance`, given the fetched findings and the current time. */
  method CollectPatchSlaCompliance(findings: seq<TrackedFinding>, now: int, targetPercent: real) returns (sla: PatchSla)
    ensures sla == PatchSlaOf(findings, now, targetPercent)
  {
    var inSla, outOfSla := 0, 0;
    for i := 0 to |findings|
      invariant inSla == Count(findings[..i], MetSla(now))
      invariant outOfSla == Count(findings[..i], MissedSla(now))
    {
      CountStep(findings, MetSla(now), i);
      CountStep(findings, MissedSla(now), i);
      var verdict := SlaVerdict(findings[i], now);
      if verdict == Some(true) {
        inSla := inSla + 1;
      } else if verdict == Some(false) {
        outOfSla := outOfSla + 1;
      }
    }
    assert findings[..|findings|] == findings;
    var total := inSla + outOfSla;
    var percent := if total > 0 then Percent(inSla, total) else 100.0;
    sla := PatchSla(Round1(percent), targetPercent, inSla, total, DefaultSla["critical"], DefaultSla["high"], DefaultSla["medium"]);
  }

  // ------------------------------------------------------------------ age distribution

  /** The age in days of an open finding whose creation date parses; `None` for every other finding. */
  function OpenAge(f: TrackedFinding, now: int): Option<int> {
    if f.status == Text("open") && f.created.At? then Some(DaysBetween(now, f.created.seconds)) else None
  }

  /** The bucket of an age: 0 for up to 7 days, 1 up to 30, 2 up to 90, 3 beyond. */
  function AgeBucket(days: int): nat {
    if days <= 7 then 0 else if days <= 30 then 1 else if days <= 90 then 2 else 3
  }

  function InBucket(now: int, bucket: nat): TrackedFinding -> bool {
    f => OpenAge(f, now).Some? && AgeBucket(OpenAge(f, now).value) == bucket
  }

  function Aged(now: int): TrackedFinding -> bool {
    f => OpenAge(f, now).Some?
  }

  datatype AgeBuckets = AgeBuckets(age0To7: nat, age7To30: nat, age30To90: nat, age90Plus: nat, totalOpen: nat)

  function AgeBucketsOf(findings: seq<TrackedFinding>, now: int): AgeBuckets {
    var a, b, c, d := Count(findings, InBucket(now, 0)), Count(findings, InBucket(now, 1)),
                      Count(findings, InBucket(now, 2)), Count(findings, InBucket(now, 3));
    AgeBuckets(a, b, c, d, a + b + c + d)
  }

  /** `total_open` counts exactly the open findings with a parseable creation date. */
  lemma AgeTotal(findings: seq<TrackedFinding>, now: int)
    ensures AgeBucketsOf(findings, now).totalOpen == Count(findings, Aged(now))
  {
    var b01 := (f: TrackedFinding) => InBucket(now, 0)(f) || InBucket(now, 1)(f);
    var b012 := (f: TrackedFinding) => b01(f) || InBucket(now, 2)(f);
    CountDisjoint(findings, InBucket(now, 0), InBucket(now, 1), b01);
    CountDisjoint(findings, b01, InBucket(now, 2), b012);
    CountDisjoint(findings, b012, InBucket(now, 3), Aged(now));
  }

  /** `_calculate_age_distribution`. */
  method CalculateAgeDistribution(findings: seq<TrackedFinding>, now: int) returns (d: AgeBuckets)
    ensures d == AgeBucketsOf(findings, now)
  {
    var age0To7, age7To30, age30To90, age90Plus := 0, 0, 0, 0;
    for i := 0 to |findings|
      invariant age0To7 == Count(findings[..i], InBucket(now, 0))
      invariant age7To30 == Count(findings[..i], InBucket(now, 1))
      invariant age30To90 == Count(findings[..i], InBucket(now, 2))
      invariant age90Plus == Count(findings[..i], InBucket(now, 3))
    {
      CountStep(findings, InBucket(now, 0), i);
      CountStep(findings, InBucket(now, 1), i);
      CountStep(findings, InBucket(now, 2), i);
      CountStep(findings, InBucket(now, 3), i);
      var f := findings[i];
      if f.status != Text("open") || !f.created.At? {
        continue;
      }
      var ageDays := DaysBetween(now, f.created.seconds);
      if ageDays <= 7 {
        age0To7 := age0To7 + 1;
      } else if ageDays <= 30 {
        age7To30 := age7To30 + 1;
      } else if ageDays <= 90 {
        age30To90 := age30To90 + 1;
      } else {
        age90Plus := age90Plus + 1;
      }
    }
    assert findings[..|findings|] == findings;
    d := AgeBuckets(age0To7, age7To30, age30To90, age90Plus, age0To7 + age7To30 + age30To90 + age90Plus);
  }

  // ------------------------------------------------------------------ mean time to remediate

  /** The whole days a resolved finding took, when both of its dates parse. */
  function Resolution(f: TrackedFinding): Option<int> {
    if f.status == Text("resolved") && f.created.At? && f.resolved.At? then
      Some(DaysBetween(f.resolved.seconds, f.created.seconds))
    else None
  }

  function ResolutionDays(f: TrackedFinding): int {
    Resolution(f).GetOr(0)
  }

  function AnyResolved(): TrackedFinding -> bool {
    f => Resolution(f).Some?
  }

  /** The lower-cased severity, empty when absent. */
  function SeverityOf(f: TrackedFinding): string {
    Lower(f.severity.GetOr(""))
  }

  function ResolvedAs(level: string): TrackedFinding -> bool {
    f => Resolution(f).Some? && SeverityOf(f) == level
  }

  /** The resolution times of the findings `p` selects, in list order. */
  function Durations(findings: seq<TrackedFinding>, p: TrackedFinding -> bool): seq<int> {
    MapSeq(Filter(findings, p), ResolutionDays)
  }

  /** `sum(ds)`, accumulated from the left. */
  function Total(ds: seq<int>): int {
    if ds == [] then 0 else Total(ds[..|ds| - 1]) + ds[|ds| - 1]
  }

  /** `total / count if count else 0`. */
  function Average(total: int, count: nat): real {
    if count == 0 then 0.0 else total as real / count as real
  }

  /** The average of a list of days. */
  function Mean(ds: seq<int>): real {
    Average(Total(ds), |ds|)
  }

  datatype MttrData = MttrData(mttrDays: real, criticalMttrDays: real, highMttrDays: real, findingsResolvedCount: nat)

  function MttrOf(findings: seq<TrackedFinding>): MttrData {
    var all := Durations(findings, AnyResolved());
    MttrData(Mean(all), Mean(Durations(findings, ResolvedAs("critical"))), Mean(Durations(findings, ResolvedAs("high"))), |all|)
  }

  /** A sum of values that all lie in `lo..hi`. */
  lemma {:induction false} TotalBounds(ds: seq<int>, lo: int, hi: int)
    requires forall i :: 0 <= i < |ds| ==> lo <= ds[i] <= hi
    ensures |ds| * lo <= Total(ds) <= |ds| * hi
  {
    if ds != [] {
      TotalBounds(ds[..|ds| - 1], lo, hi);
    }
  }

  /** A mean of values in `lo..hi` lies in `lo..hi`; the mean of nothing is 0. */
  lemma MeanBounds(ds: seq<int>, lo: int, hi: int)
    requires forall i :: 0 <= i < |ds| ==> lo <= ds[i] <= hi
    ensures |ds| == 0 ==> Mean(ds) == 0.0
    ensures |ds| > 0 ==> lo as real <= Mean(ds) <= hi as real
  {
    assert Mean(ds) == Average(Total(ds), |ds|);
    if |ds| > 0 {
      TotalBounds(ds, lo, hi);
      hide *;
      AverageBounds(Total(ds), |ds|, lo, hi);
    }
  }

  /** A total of `count` values in `lo..hi` averages in `lo..hi`. */
  lemma AverageBounds(total: int, count: nat, lo: int, hi: int)
    requires count > 0 && count * lo <= total <= count * hi
    ensures lo as real <= Average(total, count) <= hi as real
  {
    var n, t := count as real, total as real;
    assert n * (lo as real) <= t <= n * (hi as real);
    assert t / n <= hi as real by {
      assert t <= (hi as real) * n;
    }
    assert lo as real <= t / n by {
      assert (lo as real) * n <= t;
    }
  }

  /**
   * The critical and high counts are disjoint parts of the resolved count; with no resolved
   * finding every average is 0; and when every resolution took between `lo` and `hi` days,
   * so does the overall average.
   */
  lemma MttrFacts(findings: seq<TrackedFinding>, lo: int, hi: int)
    requires forall f :: f in findings && Resolution(f).Some? ==> lo <= Resolution(f).value <= hi
    ensures var m := MttrOf(findings);
      |Durations(findings, ResolvedAs("critical"))| + |Durations(findings, ResolvedAs("high"))| <= m.findingsResolvedCount &&
      (m.findingsResolvedCount == 0 ==> m.mttrDays == 0.0 && m.criticalMttrDays == 0.0 && m.highMttrDays == 0.0) &&
      (m.findingsResolvedCount > 0 ==> lo as real <= m.mttrDays <= hi as real)
  {
    var either := (f: TrackedFinding) => ResolvedAs("critical")(f) || ResolvedAs("high")(f);
    CountDisjoint(findings, ResolvedAs("critical"), ResolvedAs("high"), either);
    CountMono(findings, either, AnyResolved());
    var all := Filter(findings, AnyResolved());
    var ds := Durations(findings, AnyResolved());
    forall i | 0 <= i < |ds| ensures lo <= ds[i] <= hi {
      FilterMembers(findings, AnyResolved(), all[i]);
    }
    MeanBounds(ds, lo, hi);
  }

  lemma TotalSnoc(ds: seq<int>, d: int)
    ensures Total(ds + [d]) == Total(ds) + d
  {
    assert (ds + [d])[..|ds|] == ds;
  }

  /** The six running totals of the MTTR pass: days and counts overall, for critical and for high findings. */
  datatype MttrSums = MttrSums(totalDays: int, totalCount: nat, criticalDays: int, criticalCount: nat, highDays: int, highCount: nat)

  ghost function SumsOf(findings: seq<TrackedFinding>): MttrSums {
    MttrSums(
      Total(Durations(findings, AnyResolved())), |Durations(findings, AnyResolved())|,
      Total(Durations(findings, ResolvedAs("critical"))), |Durations(findings, ResolvedAs("critical"))|,
      Total(Durations(findings, ResolvedAs("high"))), |Durations(findings, ResolvedAs("high"))|)
  }

  /** One more finding adds its resolution time to the sum and one to the count, when `p` selects it. */
  lemma DurationsStep(findings: seq<TrackedFinding>, p: TrackedFinding -> bool, i: nat)
    requires i < |findings|
    ensures Total(Durations(findings[..i + 1], p)) == Total(Durations(findings[..i], p)) + (if p(findings[i]) then ResolutionDays(findings[i]) else 0)
    ensures |Durations(findings[..i + 1], p)| == |Durations(findings[..i], p)| + (if p(findings[i]) then 1 else 0)
  {
    FilterMapStep(findings, p, ResolutionDays, i);
    if p(findings[i]) {
      TotalSnoc(Durations(findings[..i], p), ResolutionDays(findings[i]));
    } else {
      assert Durations(findings[..i + 1], p) == Durations(findings[..i], p);
    }
  }

  /** The running totals after one more finding: a resolved one adds to the overall totals and to those of its severity. */
  function WithResolution(acc: MttrSums, f: TrackedFinding): MttrSums {
    var r, severity := Resolution(f), SeverityOf(f);
    if r.None? then acc
    else if severity == "critical" then acc.(totalDays := acc.totalDays + r.value, totalCount := acc.totalCount + 1,
      criticalDays := acc.criticalDays + r.value, criticalCount := acc.criticalCount + 1)
    else if severity == "high" then acc.(totalDays := acc.totalDays + r.value, totalCount := acc.totalCount + 1,
      highDays := acc.highDays + r.value, highCount := acc.highCount + 1)
    else acc.(totalDays := acc.totalDays + r.value, totalCount := acc.totalCount + 1)
  }

  /** The totals over one more finding are the totals so far with that finding added. */
  lemma SumsStep(findings: seq<TrackedFinding>, i: nat)
    requires i < |findings|
    ensures SumsOf(findings[..i + 1]) == WithResolution(SumsOf(findings[..i]), findings[i])
  {
    DurationsStep(findings, AnyResolved(), i);
    DurationsStep(findings, ResolvedAs("critical"), i);
    DurationsStep(findings, ResolvedAs("high"), i);
  }

  /** The averages are the running totals over the running counts, 0 for an empty count. */
  lemma MttrFromSums(findings: seq<TrackedFinding>)
    ensures var t := SumsOf(findings);
      MttrOf(findings) == MttrData(Average(t.totalDays, t.totalCount), Average(t.criticalDays, t.criticalCount),
        Average(t.highDays, t.highCount), t.totalCount)
  {
  }

  /** One pass of the MTTR loop: a finding with a resolution time adds to the totals of its severity. */
  method AddResolution(totalDays: int, totalCount: nat, criticalDays: int, criticalCount: nat, highDays: int, highCount: nat,
                       f: TrackedFinding)
    returns (totalDays': int, totalCount': nat, criticalDays': int, criticalCount': nat, highDays': int, highCount': nat)
    ensures MttrSums(totalDays', totalCount', criticalDays', criticalCount', highDays', highCount') ==
      WithResolution(MttrSums(totalDays, totalCount, criticalDays, criticalCount, highDays, highCount), f)
  {
    totalDays', totalCount', criticalDays', criticalCount', highDays', highCount' :=
      totalDays, totalCount, criticalDays, criticalCount, highDays, highCount;
    var resolution := Resolution(f);
    if resolution.None? {
      return;
    }
    var resolutionDays := resolution.value;
    totalDays', totalCount' := totalDays + resolutionDays, totalCount + 1;
    var severity := SeverityOf(f);
    if severity == "critical" {
      criticalDays', criticalCount' := criticalDays + resolutionDays, criticalCount + 1;
    } else if severity == "high" {
      highDays', highCount' := highDays + resolutionDays, highCount + 1;
    }
  }

  /** `_calculate_mttr_from_findings`: running day totals and counts, then the three averages. */
  method CalculateMttrFromFindings(findings: seq<TrackedFinding>) returns (m: MttrData)
    ensures m == MttrOf(findings)
  {
    assert SumsOf(findings[..0]) == MttrSums(0, 0, 0, 0, 0, 0);
    hide *;
    var totalDays, criticalDays, highDays := 0, 0, 0;
    var totalCount, criticalCount, highCount := 0, 0, 0;
    for i := 0 to |findings|
      invariant MttrSums(totalDays, totalCount, criticalDays, criticalCount, highDays, highCount) == SumsOf(findings[..i])
    {
      SumsStep(findings, i);
      totalDays, totalCount, criticalDays, criticalCount, highDays, highCount :=
        AddResolution(totalDays, totalCount, criticalDays, criticalCount, highDays, highCount, findings[i]);
    }
    assert findings[..|findings|] == findings;
    MttrFromSums(findings);
    hide *;
    m := MttrData(Average(totalDays, totalCount), Average(criticalDays, criticalCount), Average(highDays, highCount), totalCount);
  }

  /** `collect_mttr` without a database: the averages rounded to a tenth. */
  datatype Mttr = Mttr(mttrDays: real, criticalMttrDays: real, highMttrDays: real, findingsResolvedCount: nat)

  function MttrReport(data: MttrData): Mttr {
    Mttr(Round1(data.mttrDays), Round1(data.criticalMttrDays), Round1(data.highMttrDays), data.findingsResolvedCount)
  }

  // ------------------------------------------------------------------ remediation velocity

  /** The `%Y-W%W` week keys of a finding's dates, `None` when a date is falsy or does not parse. */
  datatype WeekStamps = WeekStamps(createdWeek: Option<string>, resolvedWeek: Option<string>)

  function CreatedWeekOf(f: WeekStamps): Option<string> { f.createdWeek }
  function ResolvedWeekOf(f: WeekStamps): Option<string> { f.resolvedWeek }

  function IsWeek(w: string): Option<string> -> bool {
    o => o == Some(w)
  }

  function Dated(o: Option<string>): bool { o.Some? }

  /** The weeks that occur in a list of week keys. */
  function WeeksIn(ws: seq<Option<string>>): set<string> {
    set o | o in ws && o.Some? :: o.value
  }

  /** `d.get(k, 0)`. */
  function Get(m: map<string, nat>, k: string): nat {
    if k in m then m[k] else 0
  }

  /** The weekly dictionary: for each week that occurs, the number of dates in it. */
  function Tally(ws: seq<Option<string>>): map<string, nat> {
    map w | w in WeeksIn(ws) :: Count(ws, IsWeek(w))
  }

  /** One more date bumps its week, `d[k] = d.get(k, 0) + 1`. */
  lemma TallySnoc(ws: seq<Option<string>>, o: Option<string>)
    ensures Tally(ws + [o]) == if o.Some? then Tally(ws)[o.value := Get(Tally(ws), o.value) + 1] else Tally(ws)
  {
    var ws' := ws + [o];
    assert WeeksIn(ws') == WeeksIn(ws) + (if o.Some? then {o.value} else {});
    forall w | w in WeeksIn(ws')
      ensures Tally(ws')[w] == Get(Tally(ws), w) + (if o == Some(w) then 1 else 0)
    {
      CountSnoc(ws, o, IsWeek(w));
      if w !in WeeksIn(ws) {
        WeekAbsent(ws, w);
      }
    }
  }

  /** A week that does not occur has no dates in it. */
  lemma WeekAbsent(ws: seq<Option<string>>, w: string)
    requires w !in WeeksIn(ws)
    ensures Count(ws, IsWeek(w)) == 0
  {
    forall x | x in ws ensures !IsWeek(w)(x) {
      if x.Some? {
        assert x.value in WeeksIn(ws);
      }
    }
    CountNone(ws, IsWeek(w));
  }

  lemma TallyKeys(ws: seq<Option<string>>)
    ensures Tally(ws).Keys == WeeksIn(ws)
  {
  }

  /** `sum(d.get(w, 0) for w in weeks)`. */
  function TallySum(weeks: seq<string>, m: map<string, nat>): nat {
    if weeks == [] then 0 else TallySum(weeks[..|weeks| - 1], m) + Get(m, weeks[|weeks| - 1])
  }

  /** Bumping one listed week raises the sum by one; bumping an unlisted one changes nothing. */
  lemma {:induction false} TallySumBump(weeks: seq<string>, m: map<string, nat>, w: string)
    requires Distinct(weeks)
    ensures TallySum(weeks, m[w := Get(m, w) + 1]) == TallySum(weeks, m) + (if w in weeks then 1 else 0)
  {
    if weeks != [] {
      var init, last := weeks[..|weeks| - 1], weeks[|weeks| - 1];
      assert Distinct(init) by {
        forall i, j | 0 <= i < j < |init| ensures init[i] != init[j] {
          assert init[i] == weeks[i] && init[j] == weeks[j];
        }
      }
      TallySumBump(init, m, w);
      assert weeks == init + [last];
      if last == w {
        assert w !in init by {
          forall i | 0 <= i < |init| ensures init[i] != w {
            assert init[i] == weeks[i];
          }
        }
      }
    }
  }

  /**
   * Summed over distinct weeks that include every week that occurs, the weekly counts
   * add up to the number of dates: each date is counted in exactly one week.
   */
  lemma {:induction false} TallySumCounts(weeks: seq<string>, ws: seq<Option<string>>)
    requires Distinct(weeks)
    requires forall w :: w in WeeksIn(ws) ==> w in weeks
    ensures TallySum(weeks, Tally(ws)) == Count(ws, Dated)
  {
    if ws == [] {
      TallySumEmpty(weeks, Tally(ws));
    } else {
      var init, o := ws[..|ws| - 1], ws[|ws| - 1];
      assert ws == init + [o];
      assert WeeksIn(ws) == WeeksIn(init) + (if o.Some? then {o.value} else {});
      TallySumCounts(weeks, init);
      TallySnoc(init, o);
      CountSnoc(init, o, Dated);
      if o.Some? {
        TallySumBump(weeks, Tally(init), o.value);
      }
    }
  }

  lemma {:induction false} TallySumEmpty(weeks: seq<string>, m: map<string, nat>)
    requires m == map[]
    ensures TallySum(weeks, m) == 0
  {
    if weeks != [] {
      TallySumEmpty(weeks[..|weeks| - 1], m);
    }
  }

  datatype VelocityRow = VelocityRow(week: string, created: nat, resolved: nat, net: int)

  datatype Velocity = Velocity(weeklyData: seq<VelocityRow>, totalCreated: nat, totalResolved: nat, netChange: int)

  /** `sorted(keys)`: inserting each key into the sorted list built so far. */
  method SortedKeys(keys: set<string>) returns (r: seq<string>)
    ensures SortedBy(r, LexOrder())
    ensures forall w :: w in r <==> w in keys
    ensures |r| == |keys|
  {
    LexOrderTotal();
    r := [];
    var todo := keys;
    ghost var done: set<string> := {};
    while todo != {}
      invariant done + todo == keys && done !! todo
      invariant SortedBy(r, LexOrder())
      invariant forall w :: w in r <==> w in done
      invariant |r| == |done|
      decreases todo
    {
      var k :| k in todo;
      InsertSorted(k, r, LexOrder());
      InsertMembers(k, r);
      r := Insert(k, r, LexOrder());
      todo, done := todo - {k}, done + {k};
    }
  }

  lemma InsertMembers(k: string, r: seq<string>)
    ensures forall w :: w in Insert(k, r, LexOrder()) <==> w in r || w == k
  {
    InsertPermutes(k, r, LexOrder());
    forall w ensures w in Insert(k, r, LexOrder()) <==> w in r || w == k {
      assert w in Insert(k, r, LexOrder()) <==> w in multiset(Insert(k, r, LexOrder()));
      assert w in r <==> w in multiset(r);
    }
  }

  /** A sorted list whose length is the size of its set of elements has no repeats. */
  lemma SortedKeysDistinct(r: seq<string>, keys: set<string>)
    requires forall w :: w in r <==> w in keys
    requires |r| == |keys|
    ensures Distinct(r)
  {
    if !Distinct(r) {
      var i, j :| 0 <= i < j < |r| && r[i] == r[j];
      var rest := r[..j] + r[j + 1..];
      assert forall w :: w in r ==> w in rest by {
        forall w | w in r ensures w in rest {
          var k :| 0 <= k < |r| && r[k] == w;
          if k < j { assert rest[k] == w; }
          else if k == j { assert rest[i] == w; }
          else { assert rest[k - 1] == w; }
        }
      }
      SetOfSeqBound(rest, keys);
      assert false;
    }
  }

  /** A list that holds every element of a set is at least as long as the set. */
  lemma {:induction false} SetOfSeqBound(s: seq<string>, keys: set<string>)
    requires forall w :: w in keys ==> w in s
    ensures |keys| <= |s|
  {
    if s != [] {
      var rest := keys - {s[0]};
      forall w | w in rest ensures w in s[1..] {
        var k :| 0 <= k < |s| && s[k] == w;
        assert k != 0;
        assert s[1..][k - 1] == w;
      }
      SetOfSeqBound(s[1..], rest);
    } else {
      assert keys == {};
    }
  }

  function RowOf(created: map<string, nat>, resolved: map<string, nat>): string -> VelocityRow {
    w => VelocityRow(w, Get(created, w), Get(resolved, w), Get(resolved, w) as int - Get(created, w) as int)
  }

  /** The tallying pass of `get_remediation_velocity`: both weekly dictionaries in one loop. */
  method TallyWeeks(findings: seq<WeekStamps>) returns (weeklyCreated: map<string, nat>, weeklyResolved: map<string, nat>)
    ensures weeklyCreated == Tally(MapSeq(findings, CreatedWeekOf))
    ensures weeklyResolved == Tally(MapSeq(findings, ResolvedWeekOf))
  {
    weeklyCreated, weeklyResolved := map[], map[];
    for i := 0 to |findings|
      invariant weeklyCreated == Tally(MapSeq(findings[..i], CreatedWeekOf))
      invariant weeklyResolved == Tally(MapSeq(findings[..i], ResolvedWeekOf))
    {
      var f := findings[i];
      MapSeqStep(findings, CreatedWeekOf, i);
      MapSeqStep(findings, ResolvedWeekOf, i);
      TallySnoc(MapSeq(findings[..i], CreatedWeekOf), f.createdWeek);
      TallySnoc(MapSeq(findings[..i], ResolvedWeekOf), f.resolvedWeek);
      hide *;
      if f.createdWeek.Some? {
        var weekKey := f.createdWeek.value;
        weeklyCreated := weeklyCreated[weekKey := Get(weeklyCreated, weekKey) + 1];
      }
      if f.resolvedWeek.Some? {
        var weekKey := f.resolvedWeek.value;
        weeklyResolved := weeklyResolved[weekKey := Get(weeklyResolved, weekKey) + 1];
      }
    }
    assert findings[..|findings|] == findings;
  }

  /** The rows of `get_remediation_velocity`, one per week in the given order. */
  method WeeklyRows(weeks: seq<string>, weeklyCreated: map<string, nat>, weeklyResolved: map<string, nat>) returns (rows: seq<VelocityRow>)
    ensures rows == MapSeq(weeks, RowOf(weeklyCreated, weeklyResolved))
  {
    rows := [];
    for i := 0 to |weeks|
      invariant |rows| == i
      invariant forall k :: 0 <= k < i ==> rows[k] == RowOf(weeklyCreated, weeklyResolved)(weeks[k])
    {
      var week := weeks[i];
      var created, resolved := Get(weeklyCreated, week), Get(weeklyResolved, week);
      rows := rows + [VelocityRow(week, created, resolved, resolved as int - created as int)];
    }
  }

  /**
   * `get_remediation_velocity`, with each finding's week keys given. The rows follow the
   * sorted union of the two dictionaries' keys, each row's net change is its resolved
   * count less its created count, and the totals count every dated finding exactly once.
   */
  method RemediationVelocity(findings: seq<WeekStamps>) returns (v: Velocity)
    ensures VelocityMeets(findings, v)
  {
    hide *;
    var weeklyCreated, weeklyResolved := TallyWeeks(findings);
    var allWeeks := SortedKeys(weeklyCreated.Keys + weeklyResolved.Keys);
    var velocity := WeeklyRows(allWeeks, weeklyCreated, weeklyResolved);
    var totalCreated, totalResolved := TallySum(allWeeks, weeklyCreated), TallySum(allWeeks, weeklyResolved);
    v := Velocity(velocity, totalCreated, totalResolved, totalResolved as int - totalCreated as int);
    VelocityFacts(findings, allWeeks, v);
  }

  /**
   * What `get_remediation_velocity` returns: rows in strictly increasing week order, one for
   * each week in which some finding was created or resolved, each with its net change,
   * and totals that count every dated creation and resolution exactly once.
   */
  ghost predicate VelocityMeets(findings: seq<WeekStamps>, v: Velocity) {
    var createdWeeks, resolvedWeeks := MapSeq(findings, CreatedWeekOf), MapSeq(findings, ResolvedWeekOf);
    (forall i :: 0 <= i < |v.weeklyData| ==> v.weeklyData[i].net == v.weeklyData[i].resolved - v.weeklyData[i].created) &&
    (forall i, j :: 0 <= i < j < |v.weeklyData| ==> LexLess(v.weeklyData[i].week, v.weeklyData[j].week)) &&
    RowWeeks(v.weeklyData) == WeeksIn(createdWeeks) + WeeksIn(resolvedWeeks) &&
    v.totalCreated == Count(createdWeeks, Dated) &&
    v.totalResolved == Count(resolvedWeeks, Dated) &&
    v.netChange == v.totalResolved - v.totalCreated
  }

  /** The velocity built from the tallies over their sorted weeks meets `VelocityMeets`. */
  lemma VelocityFacts(findings: seq<WeekStamps>, allWeeks: seq<string>, v: Velocity)
    requires var created, resolved := Tally(MapSeq(findings, CreatedWeekOf)), Tally(MapSeq(findings, ResolvedWeekOf));
      SortedBy(allWeeks, LexOrder()) && (forall w :: w in allWeeks <==> w in created.Keys + resolved.Keys) &&
      |allWeeks| == |created.Keys + resolved.Keys| &&
      v == Velocity(MapSeq(allWeeks, RowOf(created, resolved)), TallySum(allWeeks, created), TallySum(allWeeks, resolved),
        TallySum(allWeeks, resolved) as int - TallySum(allWeeks, created) as int)
    ensures VelocityMeets(findings, v)
  {
    var createdWeeks, resolvedWeeks := MapSeq(findings, CreatedWeekOf), MapSeq(findings, ResolvedWeekOf);
    var created, resolved := Tally(createdWeeks), Tally(resolvedWeeks);
    TallyKeys(createdWeeks);
    TallyKeys(resolvedWeeks);
    hide LexLe, LexLess, Tally, TallySum, MapSeq, WeeksIn, Count, SortedBy, Distinct, RowOf, RowWeeks;
    SortedKeysDistinct(allWeeks, created.Keys + resolved.Keys);
    VelocityRowsFacts(allWeeks, created.Keys + resolved.Keys, created, resolved, v.weeklyData);
    TallySumCounts(allWeeks, createdWeeks);
    TallySumCounts(allWeeks, resolvedWeeks);
  }

  /** The weeks that have a row. */
  function RowWeeks(rows: seq<VelocityRow>): set<string> {
    set r | r in rows :: r.week
  }

  /** Rows built over sorted, distinct weeks are in strictly increasing week order, one per week. */
  lemma VelocityRowsFacts(weeks: seq<string>, keys: set<string>, created: map<string, nat>, resolved: map<string, nat>, rows: seq<VelocityRow>)
    requires SortedBy(weeks, LexOrder()) && Distinct(weeks)
    requires forall w :: w in weeks <==> w in keys
    requires rows == MapSeq(weeks, RowOf(created, resolved))
    ensures forall i :: 0 <= i < |rows| ==> rows[i].net == rows[i].resolved - rows[i].created
    ensures forall i, j :: 0 <= i < j < |rows| ==> LexLess(rows[i].week, rows[j].week)
    ensures RowWeeks(rows) == keys
  {
    hide LexLe;
    forall i, j | 0 <= i < j < |rows| ensures LexLess(rows[i].week, rows[j].week) {
      assert LexLe(weeks[i], weeks[j]);
      assert weeks[i] != weeks[j];
    }
    forall w | w in keys ensures w in RowWeeks(rows) {
      var i :| 0 <= i < |weeks| && weeks[i] == w;
      assert rows[i] in rows;
    }
  }

  // ------------------------------------------------------------------ accountability score

  /** MTTR points: lower is better, falling by a point per day beyond 30 down to 0. */
  function MttrPoints(days: real): (p: real)
    ensures 0.0 <= p <= 100.0
  {
    if days <= 7.0 then 100.0
    else if days <= 14.0 then 80.0
    else if days <= 30.0 then 60.0
    else Max(40.0 - (days - 30.0), 0.0)
  }

  /** A slower remediation never earns more points. */
  lemma MttrPointsMonotone(a: real, b: real)
    requires a <= b
    ensures MttrPoints(b) <= MttrPoints(a)
  {
  }

  /** The grade of the accountability score: A from 80, B from 70, C from 60, else D. */
  function AccountabilityGrade(score: real): (g: string)
    ensures g == "A" <==> score >= 80.0
    ensures g == "B" <==> 70.0 <= score < 80.0
    ensures g == "C" <==> 60.0 <= score < 70.0
    ensures g == "D" <==> score < 60.0
  {
    if score >= 80.0 then "A" else if score >= 70.0 then "B" else if score >= 60.0 then "C" else "D"
  }

  datatype ScoreComponents = ScoreComponents(slaScore: real, ageScore: real, mttrScore: real)

  datatype AccountabilityScore = AccountabilityScore(score: real, grade: string, components: ScoreComponents)

  function SlaScore(sla: PatchSla): real
    requires sla.targetPercent != 0.0
  {
    Min(sla.compliancePercent / sla.targetPercent * 100.0, 100.0)
  }

  /** 100 less the share of open findings older than 90 days; 100 with nothing open. */
  function AgeScore(age: AgeBuckets): real {
    if age.totalOpen > 0 then (1.0 - age.age90Plus as real / age.totalOpen as real) * 100.0 else 100.0
  }

  /**
   * `_calculate_accountability_score`: 40% SLA, 30% age, 30% MTTR, the grade taken from the
   * unrounded sum. `None` stands for the `ZeroDivisionError` a zero target raises.
   */
  function AccountabilityScoreOf(sla: PatchSla, age: AgeBuckets, mttr: Mttr): Option<AccountabilityScore> {
    if sla.targetPercent == 0.0 then None
    else
      var slaScore, ageScore, mttrScore := SlaScore(sla), AgeScore(age), MttrPoints(mttr.mttrDays);
      var score := slaScore * 0.4 + ageScore * 0.3 + mttrScore * 0.3;
      Some(AccountabilityScore(Round1(score), AccountabilityGrade(score), ScoreComponents(Round1(slaScore), Round1(ageScore), Round1(mttrScore))))
  }

  method CalculateAccountabilityScore(sla: PatchSla, age: AgeBuckets, mttr: Mttr) returns (r: Option<AccountabilityScore>)
    ensures r == AccountabilityScoreOf(sla, age, mttr)
  {
    if sla.targetPercent == 0.0 {
      return None;
    }
    var score := 0.0;
    var slaScore := Min(sla.compliancePercent / sla.targetPercent * 100.0, 100.0);
    score := score + slaScore * 0.4;
    var ageScore := 100.0;
    if age.totalOpen > 0 {
      var oldRatio := age.age90Plus as real / age.totalOpen as real;
      ageScore := (1.0 - oldRatio) * 100.0;
    }
    score := score + ageScore * 0.3;
    var mttrScore := MttrPoints(mttr.mttrDays);
    score := score + mttrScore * 0.3;
    r := Some(AccountabilityScore(Round1(score), AccountabilityGrade(score), ScoreComponents(Round1(slaScore), Round1(ageScore), Round1(mttrScore))));
  }

  /**
   * With a positive target, a non-negative compliance and no more old findings than open
   * ones, every component and the score lie in 0..100; a zero target gives no score.
   */
  lemma AccountabilityScoreBounds(sla: PatchSla, age: AgeBuckets, mttr: Mttr)
    requires sla.targetPercent > 0.0 && sla.compliancePercent >= 0.0
    requires age.age90Plus <= age.totalOpen
    ensures var r := AccountabilityScoreOf(sla, age, mttr);
      r.Some? && 0.0 <= r.value.score <= 100.0 &&
      0.0 <= r.value.components.slaScore <= 100.0 && 0.0 <= r.value.components.ageScore <= 100.0
  {
    var slaScore, ageScore, mttrScore := SlaScore(sla), AgeScore(age), MttrPoints(mttr.mttrDays);
    assert 0.0 <= slaScore <= 100.0 by {
      assert sla.compliancePercent / sla.targetPercent >= 0.0;
    }
    assert 0.0 <= ageScore <= 100.0 by {
      if age.totalOpen > 0 {
        assert age.age90Plus as real / age.totalOpen as real <= 1.0;
      }
    }
    Round1Percent(slaScore);
    Round1Percent(ageScore);
    Round1Percent(slaScore * 0.4 + ageScore * 0.3 + mttrScore * 0.3);
  }

  lemma AccountabilityNeedsTarget(sla: PatchSla, age: AgeBuckets, mttr: Mttr)
    ensures AccountabilityScoreOf(sla, age, mttr).None? <==> sla.targetPercent == 0.0
  {
  }
}
