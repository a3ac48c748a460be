/**
 * The comparison engine: the score deltas between two assessments, the three-way diff
 * of their findings by signature (resolved, new, persistent), the compliance deltas and
 * the trend summary built from them.
 */
module Comparison {
  import opened Wrappers
  import opened Seqs
  import opened Numeric

  // ------------------------------------------------------------------ documents

  /** The `scores` object of a manifest; an absent number reads as `None`, an absent dictionary as empty. */
  datatype ScoresDoc = ScoresDoc(
    overallScore: Option<real>,
    overallGrade: Option<string>,
    secureScore: Option<real>,
    categories: map<string, real>,
    compliance: map<string, real>)

  /**
   * A loaded `manifest.json`, as far as the comparison reads it. `instant` is the
   * assessment date in seconds, `None` when the date is missing or does not parse.
   */
  datatype ManifestDoc = ManifestDoc(scores: ScoresDoc, instant: Option<int>)

  /** `{}`: what the engine holds before a manifest is loaded. */
  const EmptyManifest := ManifestDoc(ScoresDoc(None, None, None, map[], map[]), None)

  /** One entry of `findings.json`, each key possibly absent. */
  datatype FindingDoc = FindingDoc(
    title: Option<string>,
    severity: Option<string>,
    category: Option<string>,
    recommendation: Option<string>)

  /** An assessment directory: each file's parsed contents, `None` when the file does not exist. */
  datatype AssessmentDir = AssessmentDir(manifest: Option<ManifestDoc>, findings: Option<seq<FindingDoc>>)

  // ------------------------------------------------------------------ score deltas

  datatype Direction = Improved | Declined | Unchanged

  function DirectionOf(change: real): (d: Direction)
    ensures d == Improved <==> change > 0.0
    ensures d == Declined <==> change < 0.0
  {
    if change > 0.0 then Improved else if change < 0.0 then Declined else Unchanged
  }

  datatype ScoreDelta = ScoreDelta(current: real, previous: real, change: real, changePercent: real, direction: Direction)

  /** `score_diff`: the change rounded to a tenth, the relative change only against a positive baseline. */
  function ScoreDiff(current: real, previous: real): (d: ScoreDelta)
    ensures d.current == current && d.previous == previous
    ensures d.direction == Improved <==> current > previous
    ensures d.direction == Declined <==> current < previous
    ensures current - previous - 0.05 < d.change <= current - previous + 0.05
    ensures previous <= 0.0 ==> d.changePercent == 0.0
    ensures previous > 0.0 ==>
      (current - previous) / previous * 100.0 - 0.05 < d.changePercent <= (current - previous) / previous * 100.0 + 0.05
  {
    var change := current - previous;
    Round1Close(change);
    Round1Tenths(0);
    var percent := if previous > 0.0 then change / previous * 100.0 else 0.0;
    Round1Close(percent);
    ScoreDelta(current, previous, Round1(change), Round1(percent), DirectionOf(change))
  }

  /** `d.get(k, 0)`. */
  function Get0(m: map<string, real>, k: string): real {
    if k in m then m[k] else 0.0
  }

  /** One delta per key of either side, a side that lacks the key counting as 0. */
  function KeyedDiffs(cur: map<string, real>, prev: map<string, real>): (m: map<string, ScoreDelta>)
    ensures m.Keys == cur.Keys + prev.Keys
    ensures forall k :: k in m ==> m[k].current == Get0(cur, k) && m[k].previous == Get0(prev, k)
  {
    MapOver(cur.Keys + prev.Keys, DiffOf(cur, prev))
  }

  /** `score_diff` of one key, each side read with a default of 0. */
  function DiffOf(cur: map<string, real>, prev: map<string, real>): string -> ScoreDelta {
    k => ScoreDiff(Get0(cur, k), Get0(prev, k))
  }

  /** The loop over `set(current) | set(previous)` that fills a delta dictionary. */
  method DiffScores(cur: map<string, real>, prev: map<string, real>) returns (m: map<string, ScoreDelta>)
    ensures m == KeyedDiffs(cur, prev)
  {
    hide ScoreDiff;
    m := map[];
    var todo := cur.Keys + prev.Keys;
    ghost var done: set<string> := {};
    while todo != {}
      invariant done + todo == cur.Keys + prev.Keys
      invariant m == MapOver(done, DiffOf(cur, prev))
      decreases todo
    {
      var k :| k in todo;
      MapOverStep(done, k, DiffOf(cur, prev));
      m := m[k := ScoreDiff(Get0(cur, k), Get0(prev, k))];
      todo, done := todo - {k}, done + {k};
    }
  }

  datatype GradePair = GradePair(current: string, previous: string)

  datatype ScoreComparison = ScoreComparison(
    overall: ScoreDelta,
    grade: GradePair,
    secureScore: ScoreDelta,
    categories: map<string, ScoreDelta>,
    compliance: map<string, ScoreDelta>)

  /** `_compare_scores`: absent scores read as 0, an absent grade as `"?"`. */
  function ScoreComparisonOf(cur: ScoresDoc, prev: ScoresDoc): ScoreComparison {
    ScoreComparison(
      ScoreDiff(cur.overallScore.GetOr(0.0), prev.overallScore.GetOr(0.0)),
      GradePair(cur.overallGrade.GetOr("?"), prev.overallGrade.GetOr("?")),
      ScoreDiff(cur.secureScore.GetOr(0.0), prev.secureScore.GetOr(0.0)),
      KeyedDiffs(cur.categories, prev.categories),
      KeyedDiffs(cur.compliance, prev.compliance))
  }

  /** Comparing the other way round flips every improvement into a decline, over the same keys. */
  lemma ScoreComparisonSwap(a: ScoresDoc, b: ScoresDoc)
    ensures var ab, ba := ScoreComparisonOf(a, b), ScoreComparisonOf(b, a);
      (ab.overall.direction == Improved <==> ba.overall.direction == Declined) &&
      (ab.secureScore.direction == Improved <==> ba.secureScore.direction == Declined) &&
      ab.categories.Keys == ba.categories.Keys &&
      (forall k :: k in ab.categories ==> (ab.categories[k].direction == Improved <==> ba.categories[k].direction == Declined)) &&
      ab.compliance.Keys == ba.compliance.Keys &&
      (forall k :: k in ab.compliance ==> (ab.compliance[k].direction == Improved <==> ba.compliance[k].direction == Declined))
  {
    KeyedDiffsSwap(a.categories, b.categories);
    KeyedDiffsSwap(a.compliance, b.compliance);
    hide ScoreDiff, KeyedDiffs;
  }

  lemma KeyedDiffsSwap(cur: map<string, real>, prev: map<string, real>)
    ensures var ab, ba := KeyedDiffs(cur, prev), KeyedDiffs(prev, cur);
      ab.Keys == ba.Keys && forall k :: k in ab ==> (ab[k].direction == Improved <==> ba[k].direction == Declined)
  {
    var ab, ba := KeyedDiffs(cur, prev), KeyedDiffs(prev, cur);
    forall k | k in ab ensures ab[k].direction == Improved <==> ba[k].direction == Declined {
      assert ab[k] == ScoreDiff(Get0(cur, k), Get0(prev, k));
      assert ba[k] == ScoreDiff(Get0(prev, k), Get0(cur, k));
    }
  }

  // ------------------------------------------------------------------ compliance deltas

  datatype ComplianceDelta = ComplianceDelta(current: real, previous: real, change: real, direction: Direction)

  /** `_compare_compliance`: one row per framework of either side, without a relative change. */
  function ComplianceDeltas(cur: map<string, real>, prev: map<string, real>): (m: map<string, ComplianceDelta>)
    ensures m.Keys == cur.Keys + prev.Keys
  {
    MapOver(cur.Keys + prev.Keys, RowOf(cur, prev))
  }

  function RowOf(cur: map<string, real>, prev: map<string, real>): string -> ComplianceDelta {
    k => ComplianceRow(Get0(cur, k), Get0(prev, k))
  }

  /** One framework's row: both sides, the change rounded to a tenth and its direction. */
  function ComplianceRow(current: real, previous: real): (r: ComplianceDelta)
    ensures r.current == current && r.previous == previous && r.direction == DirectionOf(current - previous)
    ensures current - previous - 0.05 < r.change <= current - previous + 0.05
  {
    Round1Close(current - previous);
    ComplianceDelta(current, previous, Round1(current - previous), DirectionOf(current - previous))
  }

  /** The compliance section agrees, framework by framework, with the compliance part of the score comparison. */
  lemma ComplianceMatchesScores(cur: ScoresDoc, prev: ScoresDoc)
    ensures var rows, deltas := ComplianceDeltas(cur.compliance, prev.compliance), ScoreComparisonOf(cur, prev).compliance;
      rows.Keys == deltas.Keys &&
      forall k :: k in rows ==>
        rows[k].current == deltas[k].current && rows[k].previous == deltas[k].previous &&
        rows[k].change == deltas[k].change && rows[k].direction == deltas[k].direction
  {
  }

  // ------------------------------------------------------------------ findings diff

  /** `finding_signature`: title and category joined by `|`, an absent key contributing nothing. */
  function Signature(f: FindingDoc): string {
    f.title.GetOr("") + "|" + f.category.GetOr("")
  }

  function SignatureSet(fs: seq<FindingDoc>): set<string> {
    set f | f in fs :: Signature(f)
  }

  /** A dictionary keyed by signature, in insertion order. */
  type SigTable = seq<(string, FindingDoc)>

  function EntryKey(e: (string, FindingDoc)): string { e.0 }

  function KeysOf(t: SigTable): seq<string> {
    MapSeq(t, EntryKey)
  }

  /** `d[k] = v`: a present key keeps its place and takes the new value, a new key goes last. */
  function Put(t: SigTable, k: string, v: FindingDoc): SigTable {
    if t == [] then [(k, v)]
    else if t[0].0 == k then [(k, v)] + t[1..]
    else [t[0]] + Put(t[1..], k, v)
  }

  /** `{finding_signature(f): f for f in fs}`: a later finding replaces an earlier one with its signature. */
  function Index(fs: seq<FindingDoc>): SigTable {
    if fs == [] then []
    else Put(Index(fs[..|fs| - 1]), Signature(fs[|fs| - 1]), fs[|fs| - 1])
  }

  lemma {:induction false} PutShape(t: SigTable, k: string, v: FindingDoc)
    ensures KeysOf(Put(t, k, v)) == if k in KeysOf(t) then KeysOf(t) else KeysOf(t) + [k]
    ensures forall e :: e in Put(t, k, v) ==> e == (k, v) || e in t
  {
    if t != [] {
      PutShape(t[1..], k, v);
      assert t == [t[0]] + t[1..];
      MapSeqConcat([t[0]], t[1..], EntryKey);
      if t[0].0 == k {
        MapSeqConcat([(k, v)], t[1..], EntryKey);
      } else {
        MapSeqConcat([t[0]], Put(t[1..], k, v), EntryKey);
      }
    }
  }

  /** The dictionary has one key per distinct signature, and every value is a finding carrying its key. */
  lemma {:induction false} IndexShape(fs: seq<FindingDoc>)
    ensures Distinct(KeysOf(Index(fs)))
    ensures forall k :: k in KeysOf(Index(fs)) <==> k in SignatureSet(fs)
    ensures forall e :: e in Index(fs) ==> e.1 in fs && Signature(e.1) == e.0
  {
    if fs != [] {
      var init, last := fs[..|fs| - 1], fs[|fs| - 1];
      assert fs == init + [last];
      IndexShape(init);
      var t := Index(init);
      PutShape(t, Signature(last), last);
      if Signature(last) !in KeysOf(t) {
        DistinctSnoc(KeysOf(t), Signature(last));
      }
      assert SignatureSet(fs) == SignatureSet(init) + {Signature(last)};
    }
  }

  datatype ResolvedEntry = ResolvedEntry(title: Option<string>, severity: Option<string>, category: Option<string>)

  datatype NewEntry = NewEntry(title: Option<string>, severity: Option<string>, category: Option<string>, recommendation: Option<string>)

  datatype PersistentEntry = PersistentEntry(title: Option<string>, severity: Option<string>, category: Option<string>, daysOpen: int)

  function ResolvedOf(e: (string, FindingDoc)): ResolvedEntry {
    ResolvedEntry(e.1.title, e.1.severity, e.1.category)
  }

  function NewOf(e: (string, FindingDoc)): NewEntry {
    NewEntry(e.1.title, e.1.severity, e.1.category, e.1.recommendation)
  }

  function PersistentOf(days: int): ((string, FindingDoc)) -> PersistentEntry {
    (e: (string, FindingDoc)) => PersistentEntry(e.1.title, e.1.severity, e.1.category, days)
  }

  /** `sig not in other`. */
  function Unmatched(other: seq<string>): ((string, FindingDoc)) -> bool {
    (e: (string, FindingDoc)) => e.0 !in other
  }

  /** `sig in other`. */
  function Matched(other: seq<string>): ((string, FindingDoc)) -> bool {
    (e: (string, FindingDoc)) => e.0 in other
  }

  function ResolvedList(cur: SigTable, prev: SigTable): seq<ResolvedEntry> {
    MapSeq(Filter(prev, Unmatched(KeysOf(cur))), ResolvedOf)
  }

  function NewList(cur: SigTable, prev: SigTable): seq<NewEntry> {
    MapSeq(Filter(cur, Unmatched(KeysOf(prev))), NewOf)
  }

  function PersistentList(cur: SigTable, prev: SigTable, days: int): seq<PersistentEntry> {
    MapSeq(Filter(cur, Matched(KeysOf(prev))), PersistentOf(days))
  }

  /** The filters above, counted on a dictionary, count the distinct keys that pass. */
  lemma KeyFilterCount(t: SigTable, p: ((string, FindingDoc)) -> bool, q: string -> bool)
    requires Distinct(KeysOf(t))
    requires forall e :: p(e) == q(e.0)
    ensures |Filter(t, p)| == |Passing(KeysOf(t), q)|
  {
    FilterThroughMap(t, p, EntryKey, q);
    DistinctFilterCard(KeysOf(t), q);
    assert |Filter(t, p)| == |MapSeq(Filter(t, p), EntryKey)|;
  }

  // ------------------------------------------------------------------ counts by severity

  datatype SeverityHistogram = SeverityHistogram(critical: nat, high: nat, medium: nat, low: nat) {
    function Total(): nat { critical + high + medium + low }
  }

  function SeverityIs(level: string): Option<string> -> bool {
    s => s == Some(level)
  }

  /** A severity that has a counter: one of the four levels, present. */
  function Tallied(s: Option<string>): bool {
    s == Some("critical") || s == Some("high") || s == Some("medium") || s == Some("low")
  }

  function HistogramOf(sevs: seq<Option<string>>): SeverityHistogram {
    SeverityHistogram(
      Count(sevs, SeverityIs("critical")), Count(sevs, SeverityIs("high")),
      Count(sevs, SeverityIs("medium")), Count(sevs, SeverityIs("low")))
  }

  /**
   * The four counters add up to the entries whose severity has a counter; so an entry
   * whose severity is absent or unknown (`"informational"`) is counted nowhere.
   */
  lemma HistogramTotal(sevs: seq<Option<string>>)
    ensures HistogramOf(sevs).Total() == Count(sevs, Tallied) <= |sevs|
    ensures (exists s :: s in sevs && !Tallied(s)) ==> HistogramOf(sevs).Total() < |sevs|
  {
    var ch := (s: Option<string>) => s == Some("critical") || s == Some("high");
    var chm := (s: Option<string>) => ch(s) || s == Some("medium");
    CountDisjoint(sevs, SeverityIs("critical"), SeverityIs("high"), ch);
    CountDisjoint(sevs, ch, SeverityIs("medium"), chm);
    CountDisjoint(sevs, chm, SeverityIs("low"), Tallied);
    var untallied := (s: Option<string>) => !Tallied(s);
    CountComplement(sevs, Tallied, untallied);
    if s :| s in sevs && !Tallied(s) {
      FilterMembers(sevs, untallied, s);
    }
  }

  /** `count_by_severity`: each entry's severity bumps its counter, if it has one. */
  method CountBySeverity(sevs: seq<Option<string>>) returns (counts: SeverityHistogram)
    ensures counts == HistogramOf(sevs)
  {
    var critical, high, medium, low := 0, 0, 0, 0;
    for i := 0 to |sevs|
      invariant critical == Count(sevs[..i], SeverityIs("critical"))
      invariant high == Count(sevs[..i], SeverityIs("high"))
      invariant medium == Count(sevs[..i], SeverityIs("medium"))
      invariant low == Count(sevs[..i], SeverityIs("low"))
    {
      CountStep(sevs, SeverityIs("critical"), i);
      CountStep(sevs, SeverityIs("high"), i);
      CountStep(sevs, SeverityIs("medium"), i);
      CountStep(sevs, SeverityIs("low"), i);
      var sev := sevs[i];
      if sev == Some("critical") {
        critical := critical + 1;
      } else if sev == Some("high") {
        high := high + 1;
      } else if sev == Some("medium") {
        medium := medium + 1;
      } else if sev == Some("low") {
        low := low + 1;
      }
    }
    assert sevs[..|sevs|] == sevs;
    counts := SeverityHistogram(critical, high, medium, low);
  }

  function ResolvedSeverity(e: ResolvedEntry): Option<string> { e.severity }
  function NewSeverity(e: NewEntry): Option<string> { e.severity }
  function PersistentSeverity(e: PersistentEntry): Option<string> { e.severity }

  // ------------------------------------------------------------------ findings comparison

  datatype FindingsComparison = FindingsComparison(
    resolvedCount: nat,
    newCount: nat,
    persistentCount: nat,
    netChange: int,
    resolved: seq<ResolvedEntry>,
    resolvedBySeverity: SeverityHistogram,
    newFindings: seq<NewEntry>,
    newBySeverity: SeverityHistogram,
    persistent: seq<PersistentEntry>,
    persistentBySeverity: SeverityHistogram)

  /** `_compare_findings`, with `days` the value of `_calculate_days_open`. */
  function FindingsComparisonOf(current: seq<FindingDoc>, previous: seq<FindingDoc>, days: int): FindingsComparison {
    var cur, prev := Index(current), Index(previous);
    var resolved, added, persistent := ResolvedList(cur, prev), NewList(cur, prev), PersistentList(cur, prev, days);
    FindingsComparison(
      |resolved|, |added|, |persistent|, |resolved| - |added|,
      resolved, HistogramOf(MapSeq(resolved, ResolvedSeverity)),
      added, HistogramOf(MapSeq(added, NewSeverity)),
      persistent, HistogramOf(MapSeq(persistent, PersistentSeverity)))
  }

  /**
   * The three counts measure the signature sets: resolved signatures are the previous
   * ones gone from the current assessment, new ones the reverse, persistent ones shared.
   */
  lemma FindingsCounts(current: seq<FindingDoc>, previous: seq<FindingDoc>, days: int)
    ensures var c, cs, ps := FindingsComparisonOf(current, previous, days), SignatureSet(current), SignatureSet(previous);
      c.resolvedCount == |ps - cs| && c.newCount == |cs - ps| && c.persistentCount == |cs * ps| &&
      c.netChange == |ps - cs| - |cs - ps|
  {
    var cs, ps := SignatureSet(current), SignatureSet(previous);
    IndexShape(current);
    IndexShape(previous);
    var ck, pk := KeysOf(Index(current)), KeysOf(Index(previous));
    TableCount(previous, Unmatched(ck), (k: string) => k !in ck, ps - cs);
    TableCount(current, Unmatched(pk), (k: string) => k !in pk, cs - ps);
    TableCount(current, Matched(pk), (k: string) => k in pk, cs * ps);
  }

  /** A filter of a signature dictionary by key counts the signatures of a set that pass. */
  lemma TableCount(fs: seq<FindingDoc>, p: ((string, FindingDoc)) -> bool, q: string -> bool, passing: set<string>)
    requires forall e :: p(e) == q(e.0)
    requires forall k :: k in passing <==> k in SignatureSet(fs) && q(k)
    ensures |Filter(Index(fs), p)| == |passing|
  {
    IndexShape(fs);
    KeyFilterCount(Index(fs), p, q);
    assert Passing(KeysOf(Index(fs)), q) == passing;
  }

  /** Every signature counts once: resolved and persistent make up the previous set, new and persistent the current one. */
  lemma FindingsPartition(current: seq<FindingDoc>, previous: seq<FindingDoc>, days: int)
    ensures var c := FindingsComparisonOf(current, previous, days);
      c.resolvedCount + c.persistentCount == |SignatureSet(previous)| &&
      c.newCount + c.persistentCount == |SignatureSet(current)|
  {
    FindingsCounts(current, previous, days);
    hide *;
    var cs, ps := SignatureSet(current), SignatureSet(previous);
    assert ps == (ps - cs) + (cs * ps) && (ps - cs) !! (cs * ps);
    assert cs == (cs - ps) + (cs * ps) && (cs - ps) !! (cs * ps);
  }

  /** Swapping the two assessments swaps resolved and new, keeps the persistent count and negates the net change. */
  lemma FindingsSwap(current: seq<FindingDoc>, previous: seq<FindingDoc>, days: int, days': int)
    ensures var ab, ba := FindingsComparisonOf(current, previous, days), FindingsComparisonOf(previous, current, days');
      ab.resolvedCount == ba.newCount && ab.newCount == ba.resolvedCount &&
      ab.persistentCount == ba.persistentCount && ab.netChange == -ba.netChange
  {
    FindingsCounts(current, previous, days);
    FindingsCounts(previous, current, days');
    hide *;
    var cs, ps := SignatureSet(current), SignatureSet(previous);
    assert cs * ps == ps * cs;
  }

  /** Each listed entry is a finding of the right assessment, and its signature is (or is not) in the other one. */
  lemma FindingsMembers(current: seq<FindingDoc>, previous: seq<FindingDoc>, days: int)
    ensures var c, cs, ps := FindingsComparisonOf(current, previous, days), SignatureSet(current), SignatureSet(previous);
      (forall e :: e in c.resolved ==> exists f :: f in previous && Signature(f) !in cs && e == ResolvedEntry(f.title, f.severity, f.category)) &&
      (forall e :: e in c.newFindings ==> exists f :: f in current && Signature(f) !in ps && e == NewEntry(f.title, f.severity, f.category, f.recommendation)) &&
      (forall e :: e in c.persistent ==> e.daysOpen == days && exists f :: f in current && Signature(f) in ps && e == PersistentEntry(f.title, f.severity, f.category, days))
  {
    var cur, prev := Index(current), Index(previous);
    IndexShape(current);
    IndexShape(previous);
    var c := FindingsComparisonOf(current, previous, days);
    forall e | e in c.resolved
      ensures exists f :: f in previous && Signature(f) !in SignatureSet(current) && e == ResolvedEntry(f.title, f.severity, f.category)
    {
      FilterMapMembers(prev, Unmatched(KeysOf(cur)), ResolvedOf, e);
      var x :| x in prev && Unmatched(KeysOf(cur))(x) && e == ResolvedOf(x);
      assert x.1 in previous;
    }
    forall e | e in c.newFindings
      ensures exists f :: f in current && Signature(f) !in SignatureSet(previous) && e == NewEntry(f.title, f.severity, f.category, f.recommendation)
    {
      FilterMapMembers(cur, Unmatched(KeysOf(prev)), NewOf, e);
      var x :| x in cur && Unmatched(KeysOf(prev))(x) && e == NewOf(x);
      assert x.1 in current;
    }
    forall e | e in c.persistent
      ensures e.daysOpen == days && exists f :: f in current && Signature(f) in SignatureSet(previous) && e == PersistentEntry(f.title, f.severity, f.category, days)
    {
      FilterMapMembers(cur, Matched(KeysOf(prev)), PersistentOf(days), e);
      var x :| x in cur && Matched(KeysOf(prev))(x) && e == PersistentOf(days)(x);
      assert x.1 in current;
    }
  }

  // ------------------------------------------------------------------ summary

  datatype Trend = SignificantImprovement | Improvement | Regression | Stable

  /** The trend chain of `_generate_summary`, the first matching rule winning. */
  function TrendOf(scoreChange: real, netChange: int): (t: Trend)
    ensures t == SignificantImprovement <==> scoreChange > 5.0 && netChange > 0
    ensures t == Improvement <==> (scoreChange > 0.0 || netChange > 0) && !(scoreChange > 5.0 && netChange > 0)
    ensures t == Regression <==> scoreChange <= 0.0 && netChange <= 0 && (scoreChange < -5.0 || netChange < -3)
    ensures t == Stable <==> -5.0 <= scoreChange <= 0.0 && -3 <= netChange <= 0
  {
    if scoreChange > 5.0 && netChange > 0 then SignificantImprovement
    else if scoreChange > 0.0 || netChange > 0 then Improvement
    else if scoreChange < -5.0 || netChange < -3 then Regression
    else Stable
  }

  /** The trends from worst to best. */
  function TrendRank(t: Trend): nat {
    match t
    case Regression => 0
    case Stable => 1
    case Improvement => 2
    case SignificantImprovement => 3
  }

  /** A larger score gain and a larger net reduction of findings never give a worse trend. */
  lemma TrendMonotone(s1: real, n1: int, s2: real, n2: int)
    requires s1 <= s2 && n1 <= n2
    ensures TrendRank(TrendOf(s1, n1)) <= TrendRank(TrendOf(s2, n2))
  {
  }

  function TrendDescription(t: Trend): string {
    match t
    case SignificantImprovement => "Significant security improvement observed"
    case Improvement => "Security posture has improved"
    case Regression => "Security posture has declined"
    case Stable => "Security posture remains stable"
  }

  /** One line of the highlights, kept as the values the message is formatted from. */
  datatype Highlight =
    | ScoreMoved(improved: bool, points: real)
    | FindingsResolved(count: nat)
    | NewCritical(count: nat)
    | GradeChanged(from: string, to: string)

  datatype Summary = Summary(
    trend: Trend,
    trendDescription: string,
    scoreChange: real,
    findingsResolved: nat,
    newFindings: nat,
    highlights: seq<Highlight>)

  function Abs(x: real): real { if x < 0.0 then -x else x }

  function HighlightsOf(s: ScoreComparison, f: FindingsComparison): seq<Highlight> {
    var change := s.overall.change;
    (if change != 0.0 then [ScoreMoved(change > 0.0, Abs(change))] else []) +
    (if f.resolvedCount > 0 then [FindingsResolved(f.resolvedCount)] else []) +
    (if f.newBySeverity.critical > 0 then [NewCritical(f.newBySeverity.critical)] else []) +
    (if s.grade.current != s.grade.previous then [GradeChanged(s.grade.previous, s.grade.current)] else [])
  }

  /** `_generate_summary`: the trend of the rounded overall change and the net change of findings. */
  function SummaryOf(s: ScoreComparison, f: FindingsComparison): Summary {
    var trend := TrendOf(s.overall.change, f.netChange);
    Summary(trend, TrendDescription(trend), s.overall.change, f.resolvedCount, f.newCount, HighlightsOf(s, f))
  }

  /** Each highlight appears exactly when its condition holds. */
  lemma HighlightsIff(s: ScoreComparison, f: FindingsComparison)
    ensures var hs, change, critical := HighlightsOf(s, f), s.overall.change, f.newBySeverity.critical;
      (ScoreMoved(change > 0.0, Abs(change)) in hs <==> change != 0.0) &&
      (FindingsResolved(f.resolvedCount) in hs <==> f.resolvedCount > 0) &&
      (NewCritical(critical) in hs <==> critical > 0) &&
      (GradeChanged(s.grade.previous, s.grade.current) in hs <==> s.grade.current != s.grade.previous)
  {
    HighlightsParts(s, f);
  }

  /** Nothing else is highlighted, so there are at most four lines. */
  lemma HighlightsOnly(s: ScoreComparison, f: FindingsComparison)
    ensures var hs, change, critical := HighlightsOf(s, f), s.overall.change, f.newBySeverity.critical;
      (forall h :: h in hs ==>
        h == ScoreMoved(change > 0.0, Abs(change)) || h == FindingsResolved(f.resolvedCount) ||
        h == NewCritical(critical) || h == GradeChanged(s.grade.previous, s.grade.current)) &&
      |hs| <= 4
  {
    HighlightsParts(s, f);
  }

  lemma HighlightsParts(s: ScoreComparison, f: FindingsComparison)
    ensures var change := s.overall.change;
      HighlightsOf(s, f) ==
        (if change != 0.0 then [ScoreMoved(change > 0.0, Abs(change))] else []) +
        (if f.resolvedCount > 0 then [FindingsResolved(f.resolvedCount)] else []) +
        (if f.newBySeverity.critical > 0 then [NewCritical(f.newBySeverity.critical)] else []) +
        (if s.grade.current != s.grade.previous then [GradeChanged(s.grade.previous, s.grade.current)] else [])
  {
  }

  datatype Comparison = Comparison(
    scores: ScoreComparison,
    findings: FindingsComparison,
    compliance: map<string, ComplianceDelta>,
    summary: Summary)

  // ------------------------------------------------------------------ the engine

  class ComparisonEngine {
    var currentManifest: ManifestDoc
    var previousManifest: ManifestDoc
    var currentFindings: seq<FindingDoc>
    var previousFindings: seq<FindingDoc>

    /** The state `__init__` sets up before loading. */
    constructor ()
      ensures currentManifest == EmptyManifest && previousManifest == EmptyManifest
      ensures currentFindings == [] && previousFindings == []
    {
      currentManifest, previousManifest := EmptyManifest, EmptyManifest;
      currentFindings, previousFindings := [], [];
    }

    /**
     * `_load_assessments`: the current files that exist are loaded, then a missing previous
     * manifest ends the load (`FileNotFoundError`, reported as `false`) before the previous
     * findings are read.
     */
    method LoadAssessments(current: AssessmentDir, previous: AssessmentDir) returns (loaded: bool)
      modifies this
      ensures loaded <==> previous.manifest.Some?
      ensures currentManifest == (if current.manifest.Some? then current.manifest.value else old(currentManifest))
      ensures currentFindings == (if current.findings.Some? then current.findings.value else old(currentFindings))
      ensures previousManifest == (if previous.manifest.Some? then previous.manifest.value else old(previousManifest))
      ensures previousFindings == (if loaded && previous.findings.Some? then previous.findings.value else old(previousFindings))
    {
      if current.manifest.Some? {
        currentManifest := current.manifest.value;
      }
      if current.findings.Some? {
        currentFindings := current.findings.value;
      }
      if previous.manifest.None? {
        return false;
      }
      previousManifest := previous.manifest.value;
      if previous.findings.Some? {
        previousFindings := previous.findings.value;
      }
      return true;
    }

    /** `_calculate_days_open`: the whole days between the two assessment dates, 0 when either does not parse. */
    function CalculateDaysOpen(finding: FindingDoc): (days: int)
      reads this
      ensures currentManifest.instant.None? || previousManifest.instant.None? ==> days == 0
      ensures currentManifest.instant.Some? && previousManifest.instant.Some? ==>
        days * 86400 <= currentManifest.instant.value - previousManifest.instant.value < (days + 1) * 86400
    {
      if currentManifest.instant.Some? && previousManifest.instant.Some? then
        DaysBetween(currentManifest.instant.value, previousManifest.instant.value)
      else 0
    }

    method CompareScores() returns (c: ScoreComparison)
      ensures c == ScoreComparisonOf(currentManifest.scores, previousManifest.scores)
    {
      var cur, prev := currentManifest.scores, previousManifest.scores;
      var categories := DiffScores(cur.categories, prev.categories);
      var compliance := DiffScores(cur.compliance, prev.compliance);
      c := ScoreComparison(
        ScoreDiff(cur.overallScore.GetOr(0.0), prev.overallScore.GetOr(0.0)),
        GradePair(cur.overallGrade.GetOr("?"), prev.overallGrade.GetOr("?")),
        ScoreDiff(cur.secureScore.GetOr(0.0), prev.secureScore.GetOr(0.0)),
        categories, compliance);
    }

    /** `_compare_findings`: the three loops over the signature dictionaries, then the severity counts. */
    method CompareFindings() returns (c: FindingsComparison)
      ensures c == FindingsComparisonOf(currentFindings, previousFindings, CalculateDaysOpen(FindingDoc(None, None, None, None)))
    {
      hide Filter, MapSeq, Index, Put;
      var currentSigs, previousSigs := Index(currentFindings), Index(previousFindings);
      var currentKeys, previousKeys := KeysOf(currentSigs), KeysOf(previousSigs);

      var resolved := [];
      for i := 0 to |previousSigs|
        invariant resolved == MapSeq(Filter(previousSigs[..i], Unmatched(currentKeys)), ResolvedOf)
      {
        FilterMapStep(previousSigs, Unmatched(currentKeys), ResolvedOf, i);
        if previousSigs[i].0 !in currentKeys {
          resolved := resolved + [ResolvedOf(previousSigs[i])];
        }
      }
      assert previousSigs[..|previousSigs|] == previousSigs;

      var added := [];
      for i := 0 to |currentSigs|
        invariant added == MapSeq(Filter(currentSigs[..i], Unmatched(previousKeys)), NewOf)
      {
        FilterMapStep(currentSigs, Unmatched(previousKeys), NewOf, i);
        if currentSigs[i].0 !in previousKeys {
          added := added + [NewOf(currentSigs[i])];
        }
      }

      var days := CalculateDaysOpen(FindingDoc(None, None, None, None));
      var persistent := [];
      for i := 0 to |currentSigs|
        invariant persistent == MapSeq(Filter(currentSigs[..i], Matched(previousKeys)), PersistentOf(days))
      {
        FilterMapStep(currentSigs, Matched(previousKeys), PersistentOf(days), i);
        if currentSigs[i].0 in previousKeys {
          persistent := persistent + [PersistentEntry(currentSigs[i].1.title, currentSigs[i].1.severity, currentSigs[i].1.category,
                                                      CalculateDaysOpen(previousSigs[IndexOfKey(previousSigs, currentSigs[i].0)].1))];
        }
      }
      assert currentSigs[..|currentSigs|] == currentSigs;

      var resolvedCounts := CountBySeverity(MapSeq(resolved, ResolvedSeverity));
      var newCounts := CountBySeverity(MapSeq(added, NewSeverity));
      var persistentCounts := CountBySeverity(MapSeq(persistent, PersistentSeverity));
      c := FindingsComparison(
        |resolved|, |added|, |persistent|, |resolved| - |added|,
        resolved, resolvedCounts, added, newCounts, persistent, persistentCounts);
    }

    method CompareCompliance() returns (m: map<string, ComplianceDelta>)
      ensures m == ComplianceDeltas(currentManifest.scores.compliance, previousManifest.scores.compliance)
    {
      var cur, prev := currentManifest.scores.compliance, previousManifest.scores.compliance;
      hide ComplianceRow;
      m := map[];
      var todo := cur.Keys + prev.Keys;
      ghost var done: set<string> := {};
      while todo != {}
        invariant done + todo == cur.Keys + prev.Keys
        invariant m == MapOver(done, RowOf(cur, prev))
        decreases todo
      {
        var framework :| framework in todo;
        MapOverStep(done, framework, RowOf(cur, prev));
        var current, previous := Get0(cur, framework), Get0(prev, framework);
        m := m[framework := ComplianceRow(current, previous)];
        todo, done := todo - {framework}, done + {framework};
      }
    }

    /** `generate_comparison`, without the metadata block and the file it writes. */
    method GenerateComparison() returns (c: Comparison)
      ensures c.scores == ScoreComparisonOf(currentManifest.scores, previousManifest.scores)
      ensures c.findings == FindingsComparisonOf(currentFindings, previousFindings, CalculateDaysOpen(FindingDoc(None, None, None, None)))
      ensures c.compliance == ComplianceDeltas(currentManifest.scores.compliance, previousManifest.scores.compliance)
      ensures c.summary == SummaryOf(c.scores, c.findings)
    {
      var scores := CompareScores();
      var findings := CompareFindings();
      var compliance := CompareCompliance();
      c := Comparison(scores, findings, compliance, SummaryOf(scores, findings));
    }
  }

  /** The position of a key known to be in the dictionary. */
  function IndexOfKey(t: SigTable, k: string): (i: nat)
    requires k in KeysOf(t)
    ensures i < |t| && t[i].0 == k
  {
    if t[0].0 == k then 0
    else
      assert KeysOf(t) == [t[0].0] + KeysOf(t[1..]);
      1 + IndexOfKey(t[1..], k)
  }

  /** The engine a constructor call returns, or `None` when it raises for a missing previous manifest. */
  method Open(current: AssessmentDir, previous: AssessmentDir) returns (engine: Option<ComparisonEngine>)
    ensures engine.None? <==> previous.manifest.None?
    ensures engine.Some? ==> fresh(engine.value)
    ensures engine.Some? ==> engine.value.currentManifest == current.manifest.GetOr(EmptyManifest)
    ensures engine.Some? ==> engine.value.currentFindings == current.findings.GetOr([])
    ensures engine.Some? ==> engine.value.previousManifest == previous.manifest.value
    ensures engine.Some? ==> engine.value.previousFindings == previous.findings.GetOr([])
  {
    var e := new ComparisonEngine();
    var loaded := e.LoadAssessments(current, previous);
    if loaded {
      return Some(e);
    }
    return None;
  }
}
