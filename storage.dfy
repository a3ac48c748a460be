/**
 * The file-backed storage service: the findings file a tenant's findings are upserted
 * into and read back from, and the dated snapshot files whose recent history is read
 * back newest first.
 */
module Storage {
  import opened Wrappers
  import opened Seqs
  import opened Text
  import opened Sorting

  /** A stored JSON object, with its values as text. */
  type Record = map<string, string>

  /** A tenant's `findings.json`: absent, present but unreadable, or a parsed list. */
  datatype FindingsFile = Missing | Unreadable | Stored(findings: seq<Record>)

  /** The findings a load sees: an absent or unreadable file reads as the empty list. */
  function FindingsIn(files: map<string, FindingsFile>, tenant: string): seq<Record> {
    if tenant in files && files[tenant].Stored? then files[tenant].findings else []
  }

  // ------------------------------------------------------------------ upsert

  /** `f.get("id") == finding_id`. */
  predicate HasId(r: Record, id: string) {
    "id" in r && r["id"] == id
  }

  /** `finding.get("id")` is truthy. */
  predicate HasOwnId(finding: Record) {
    "id" in finding && finding["id"] != ""
  }

  /** The index the `for i, f in enumerate(findings)` loop stops at, if any. */
  function FirstWithId(s: seq<Record>, id: string): (r: Option<nat>)
    ensures r.None? <==> forall j :: 0 <= j < |s| ==> !HasId(s[j], id)
    ensures r.Some? ==> r.value < |s| && HasId(s[r.value], id) && forall j :: 0 <= j < r.value ==> !HasId(s[j], id)
  {
    if s == [] then None
    else if HasId(s[0], id) then Some(0)
    else match FirstWithId(s[1..], id)
      case None => None
      case Some(i) => Some(i + 1)
  }

  /** `{**f, **finding, "_updated": now}`. */
  function Merged(stored: Record, finding: Record, now: string): Record {
    (stored + finding)["_updated" := now]
  }

  /** `f"finding_{tenant_id}_{timestamp}"`. */
  function GeneratedId(tenant: string, stamp: string): string {
    "finding_" + tenant + "_" + stamp
  }

  /** The entry a save appends: the argument with its generated id when it had none, and `_created`. */
  function Created(finding: Record, tenant: string, now: string, stamp: string): Record {
    var withId := if HasOwnId(finding) then finding else finding["id" := GeneratedId(tenant, stamp)];
    withId["_created" := now]
  }

  /** The findings list `save_finding` writes back, for the loaded list `s`. */
  function Upserted(s: seq<Record>, finding: Record, tenant: string, now: string, stamp: string): seq<Record> {
    if HasOwnId(finding) then
      match FirstWithId(s, finding["id"])
        case Some(i) => s[i := Merged(s[i], finding, now)]
        case None => s + [Created(finding, tenant, now, stamp)]
    else s + [Created(finding, tenant, now, stamp)]
  }

  /** The caller's dictionary after the call: only an appended finding is written into. */
  function CallerFinding(s: seq<Record>, finding: Record, tenant: string, now: string, stamp: string): Record {
    if HasOwnId(finding) && FirstWithId(s, finding["id"]).Some? then finding else Created(finding, tenant, now, stamp)
  }

  /**
   * A finding whose id first matches entry `i` replaces that entry alone: the list keeps
   * its length, every other entry is untouched, and the new entry holds every key of
   * the old one and of the finding, the finding's values winning, plus `_updated`.
   */
  lemma UpsertReplacesFirstMatch(s: seq<Record>, finding: Record, tenant: string, now: string, stamp: string, i: nat)
    requires HasOwnId(finding) && i < |s| && HasId(s[i], finding["id"])
    requires forall j :: 0 <= j < i ==> !HasId(s[j], finding["id"])
    ensures var r := Upserted(s, finding, tenant, now, stamp);
      |r| == |s| &&
      (forall j :: 0 <= j < |s| && j != i ==> r[j] == s[j]) &&
      r[i].Keys == s[i].Keys + finding.Keys + {"_updated"} &&
      r[i]["_updated"] == now && HasId(r[i], finding["id"]) &&
      (forall k :: k in finding && k != "_updated" ==> r[i][k] == finding[k]) &&
      (forall k :: k in s[i] && k !in finding && k != "_updated" ==> r[i][k] == s[i][k])
  {
    assert FirstWithId(s, finding["id"]) == Some(i);
  }

  /**
   * A finding without an id, or whose id no entry has, is appended as exactly one new
   * entry: every key of the finding, its id (generated when it had none) and `_created`.
   */
  lemma UpsertAppends(s: seq<Record>, finding: Record, tenant: string, now: string, stamp: string)
    requires !HasOwnId(finding) || forall j :: 0 <= j < |s| ==> !HasId(s[j], finding["id"])
    ensures var r := Upserted(s, finding, tenant, now, stamp);
      |r| == |s| + 1 && r[..|s|] == s &&
      r[|s|].Keys == finding.Keys + {"id", "_created"} &&
      r[|s|]["_created"] == now &&
      r[|s|]["id"] == (if HasOwnId(finding) then finding["id"] else GeneratedId(tenant, stamp)) &&
      (forall k :: k in finding && k != "id" && k != "_created" ==> r[|s|][k] == finding[k]) &&
      r[|s|] == CallerFinding(s, finding, tenant, now, stamp)
  {
    var r := Upserted(s, finding, tenant, now, stamp);
    assert r == s + [Created(finding, tenant, now, stamp)];
    assert r[..|s|] == s;
  }

  /** After a save, some entry carries the id the saved finding ends up with. */
  lemma UpsertFindable(s: seq<Record>, finding: Record, tenant: string, now: string, stamp: string)
    ensures var id := CallerFinding(s, finding, tenant, now, stamp)["id"];
      "id" in CallerFinding(s, finding, tenant, now, stamp) &&
      FirstWithId(Upserted(s, finding, tenant, now, stamp), id).Some?
  {
    var r := Upserted(s, finding, tenant, now, stamp);
    var id := CallerFinding(s, finding, tenant, now, stamp)["id"];
    if HasOwnId(finding) && FirstWithId(s, finding["id"]).Some? {
      var i := FirstWithId(s, finding["id"]).value;
      assert HasId(r[i], id);
    } else {
      assert HasId(r[|s|], id);
    }
  }

  /** Saving a finding with an id a second time updates in place: the list does not grow again. */
  lemma SaveTwiceUpdates(s: seq<Record>, finding: Record, tenant: string, now: string, later: string, stamp: string)
    requires HasOwnId(finding)
    ensures var once := Upserted(s, finding, tenant, now, stamp);
      |Upserted(once, finding, tenant, later, stamp)| == |once|
  {
    UpsertFindable(s, finding, tenant, now, stamp);
  }

  // ------------------------------------------------------------------ open findings

  /** `f.get("status", "open") == "open"`. */
  function IsOpen(r: Record): bool {
    (if "status" in r then r["status"] else "open") == "open"
  }

  /** `f.get("severity") == severity`. */
  function SeverityMatches(severity: string): Record -> bool {
    (r: Record) => "severity" in r && r["severity"] == severity
  }

  /** `if severity:`, an unset or empty severity does not filter. */
  predicate FiltersSeverity(severity: Option<string>) {
    severity.Some? && severity.value != ""
  }

  /** `get_open_findings` over a loaded list. */
  function OpenIn(findings: seq<Record>, severity: Option<string>): seq<Record> {
    var open := Filter(findings, IsOpen);
    if FiltersSeverity(severity) then Filter(open, SeverityMatches(severity.value)) else open
  }

  /** What an open-findings read keeps, as one test. */
  function Wanted(severity: Option<string>): Record -> bool {
    (r: Record) => IsOpen(r) && (FiltersSeverity(severity) ==> SeverityMatches(severity.value)(r))
  }

  lemma {:induction false} FilterFilter<T>(s: seq<T>, p: T -> bool, q: T -> bool, both: T -> bool)
    requires forall x :: both(x) == (p(x) && q(x))
    ensures Filter(Filter(s, p), q) == Filter(s, both)
  {
    if s != [] {
      FilterFilter(s[1..], p, q, both);
      FilterAppend(if p(s[0]) then [s[0]] else [], Filter(s[1..], p), q);
    }
  }

  /**
   * The open findings are the stored entries, in stored order, that are open (a missing
   * status counts as open) and, when a severity is given, have that severity.
   */
  lemma OpenFindingsFacts(findings: seq<Record>, severity: Option<string>)
    ensures OpenIn(findings, severity) == Filter(findings, Wanted(severity))
    ensures forall r :: r in OpenIn(findings, severity) <==>
      r in findings && IsOpen(r) && (FiltersSeverity(severity) ==> "severity" in r && r["severity"] == severity.value)
    ensures |OpenIn(findings, severity)| == Count(findings, Wanted(severity))
  {
    if FiltersSeverity(severity) {
      FilterFilter(findings, IsOpen, SeverityMatches(severity.value), Wanted(severity));
    } else {
      var all := (r: Record) => true;
      FilterFilter(findings, IsOpen, all, Wanted(severity));
      FilterAll(Filter(findings, IsOpen), all);
    }
    forall r ensures r in Filter(findings, Wanted(severity)) <==> r in findings && Wanted(severity)(r) {
      FilterMembers(findings, Wanted(severity), r);
    }
  }

  /** A saved finding that is new and open is listed last among the open findings. */
  lemma NewOpenFindingListed(s: seq<Record>, finding: Record, tenant: string, now: string, stamp: string)
    requires !HasOwnId(finding) || forall j :: 0 <= j < |s| ==> !HasId(s[j], finding["id"])
    requires "status" !in finding || finding["status"] == "open"
    ensures OpenIn(Upserted(s, finding, tenant, now, stamp), None) == OpenIn(s, None) + [Created(finding, tenant, now, stamp)]
  {
    var e := Created(finding, tenant, now, stamp);
    assert Upserted(s, finding, tenant, now, stamp) == s + [e];
    FilterAppend(s, [e], IsOpen);
    assert IsOpen(e);
    assert Filter([e], IsOpen) == [e] + Filter([], IsOpen);
  }

  // ------------------------------------------------------------------ dated snapshots

  /** A calendar date as `datetime` holds it. */
  datatype Date = Date(year: nat, month: nat, day: nat)

  predicate ValidDate(d: Date) {
    1 <= d.year <= 9999 && 1 <= d.month <= 12 && 1 <= d.day <= 31
  }

  /** Calendar order. */
  predicate DateBefore(a: Date, b: Date) {
    a.year < b.year || (a.year == b.year && (a.month < b.month || (a.month == b.month && a.day < b.day)))
  }

  /** The last `w` decimal digits of `n`, zero-padded: `%0wd` of `n` below `10^w`. */
  function Fixed(n: nat, w: nat): string {
    if w == 0 then [] else Fixed(n / 10, w - 1) + [DigitChar(n % 10)]
  }

  lemma MulZero(k: int, d: int)
    requires d > 0 && -d < k * d < d
    ensures k == 0
  {
  }

  /** Euclidean division has one quotient and remainder. */
  lemma ModUnique(n: int, d: int, a: int, m: int)
    requires d > 0 && n == a * d + m && 0 <= m < d
    ensures n % d == m && n / d == a
  {
    var q, r := n / d, n % d;
    assert (a - q) * d == r - m;
    MulZero(a - q, d);
  }

  lemma DivMod(x: int, d: int)
    requires d > 0
    ensures x == (x / d) * d + x % d && 0 <= x % d < d
  {
  }

  lemma Regroup(n: int, q: int, r: int, p: int, a: int, b: int)
    requires n == 10 * q + r && q == a * p + b
    ensures n == a * (10 * p) + (10 * b + r)
  {
  }

  /** `Fixed(n, w)` is `w` digits denoting `n` modulo `10^w`. */
  lemma {:induction false} FixedFacts(n: nat, w: nat)
    ensures |Fixed(n, w)| == w && AllDigits(Fixed(n, w))
    ensures DigitsValue(Fixed(n, w)) == n % Pow10(w)
  {
    if w > 0 {
      var q, r := n / 10, n % 10;
      var p := Pow10(w - 1);
      var head := Fixed(q, w - 1);
      assert Fixed(n, w) == head + [DigitChar(r)];
      assert Pow10(w) == 10 * p;
      FixedFacts(q, w - 1);
      DigitsValueSnoc(head, DigitChar(r));
      var a, b := q / p, q % p;
      DivMod(q, p);
      Regroup(n, q, r, p, a, b);
      ModUnique(n, 10 * p, a, 10 * b + r);
    }
  }

  /** `strftime("%Y%m%d")`. */
  function DateStamp(d: Date): string {
    Fixed(d.year, 4) + Fixed(d.month, 2) + Fixed(d.day, 2)
  }

  lemma Shift(x: int, p: int, v: int, k: int)
    ensures 10 * (x * p + v) + k == x * (10 * p) + (10 * v + k)
  {
  }

  lemma {:induction false} DigitsValueConcat(a: string, b: string)
    requires AllDigits(a) && AllDigits(b)
    ensures AllDigits(a + b)
    ensures DigitsValue(a + b) == DigitsValue(a) * Pow10(|b|) + DigitsValue(b)
    decreases |b|
  {
    if b == [] {
      assert a + b == a;
    } else {
      var init, last := b[..|b| - 1], b[|b| - 1];
      assert b == init + [last];
      assert a + b == (a + init) + [last];
      DigitsValueConcat(a, init);
      DigitsValueSnoc(a + init, last);
      DigitsValueSnoc(init, last);
      assert Pow10(|b|) == 10 * Pow10(|init|);
      hide *;
      Shift(DigitsValue(a), Pow10(|init|), DigitsValue(init), last as int - '0' as int);
    }
  }

  /** The stamp of a valid date is eight digits denoting `yyyymmdd` and holds no `_`. */
  lemma DateStampFacts(d: Date)
    requires ValidDate(d)
    ensures var s := DateStamp(d);
      |s| == 8 && AllDigits(s) && '_' !in s &&
      DigitsValue(s) == d.year * 10000 + d.month * 100 + d.day
  {
    FixedFacts(d.year, 4);
    FixedFacts(d.month, 2);
    FixedFacts(d.day, 2);
    var y, m, dd := Fixed(d.year, 4), Fixed(d.month, 2), Fixed(d.day, 2);
    assert Pow10(2) == 100 && Pow10(4) == 10000;
    ModUnique(d.year, 10000, 0, d.year);
    ModUnique(d.month, 100, 0, d.month);
    ModUnique(d.day, 100, 0, d.day);
    DigitsValueConcat(y, m);
    DigitsValueConcat(y + m, dd);
    assert y + m + dd == DateStamp(d);
    var s := DateStamp(d);
    forall i | 0 <= i < |s| ensures s[i] != '_' {
      assert IsDigit(s[i]);
    }
  }

  /** Comparing stamps as strings, as the history reads do, is comparing the dates. */
  lemma DateStampOrder(a: Date, b: Date)
    requires ValidDate(a) && ValidDate(b)
    ensures LexLess(DateStamp(a), DateStamp(b)) <==> DateBefore(a, b)
  {
    DateStampFacts(a);
    DateStampFacts(b);
    DigitsLexOrder(DateStamp(a), DateStamp(b));
  }

  /** What follows the last separator of `p + [c] + t` is `t`, when `t` holds no separator. */
  lemma {:induction false} LastPartAfter(p: string, c: char, t: string)
    requires c !in t
    ensures LastPart(p + [c] + t, c) == t
    decreases |p|
  {
    var s := p + [c] + t;
    assert s[|p|] == c;
    var i := IndexOf(s, c).value;
    assert s[..|p|] == p;
    if i == |p| {
      assert s[i + 1..] == t;
      assert Split(s, c) == [s[..i]] + [t];
    } else {
      assert i < |p|;
      assert s[i + 1..] == p[i + 1..] + [c] + t;
      LastPartAfter(p[i + 1..], c, t);
      var rest := Split(s[i + 1..], c);
      assert Split(s, c) == [s[..i]] + rest;
    }
  }

  /** A file of the snapshot directory: its name without `.json`, and its content unless it cannot be read. */
  datatype SnapshotFile = SnapshotFile(stem: string, content: Option<Record>)

  /** `filepath.stem.split("_")[-1]`. */
  function DatePart(f: SnapshotFile): string {
    LastPart(f.stem, '_')
  }

  /** The glob `prefix*.json`. */
  function Matches(prefix: string): SnapshotFile -> bool {
    (f: SnapshotFile) => StartsWith(f.stem, prefix)
  }

  /** The file's full name, `stem.json`. */
  function FileName(f: SnapshotFile): string {
    f.stem + ".json"
  }

  /** `sorted(..., reverse=True)` on the file names. */
  function NewestFirst(): (SnapshotFile, SnapshotFile) -> bool {
    (a: SnapshotFile, b: SnapshotFile) => LexLe(FileName(b), FileName(a))
  }

  /** Not older than the cutoff, and readable. */
  function Kept(cutoff: string): SnapshotFile -> bool {
    (f: SnapshotFile) => !LexLess(DatePart(f), cutoff) && f.content.Some?
  }

  function ContentOf(f: SnapshotFile): Record {
    f.content.GetOr(map[])
  }

  function DashboardPrefix(dashboardType: string): string {
    "dashboard_" + dashboardType + "_"
  }

  const ScoresPrefix := "scores_"

  /** The files a history read returns, in the order it returns them. */
  function HistoryFiles(dir: seq<SnapshotFile>, prefix: string, cutoff: string): seq<SnapshotFile> {
    Filter(SortBy(Filter(dir, Matches(prefix)), NewestFirst()), Kept(cutoff))
  }

  /** `get_dashboard_history` / `get_security_score_history` over a directory listing. */
  function History(dir: seq<SnapshotFile>, prefix: string, cutoff: string): seq<Record> {
    MapSeq(HistoryFiles(dir, prefix, cutoff), ContentOf)
  }

  lemma NewestFirstTotal()
    ensures TotalPreorder(NewestFirst())
  {
    forall a: SnapshotFile, b: SnapshotFile ensures NewestFirst()(a, b) || NewestFirst()(b, a) {
      LexTotal(FileName(a), FileName(b));
    }
    forall a: SnapshotFile, b: SnapshotFile, c: SnapshotFile | NewestFirst()(a, b) && NewestFirst()(b, c)
      ensures NewestFirst()(a, c)
    {
      LexTransitive(FileName(c), FileName(b), FileName(a));
    }
  }

  /** Filtering a sorted list leaves it sorted. */
  lemma {:induction false} FilterSorted<T>(s: seq<T>, p: T -> bool, le: (T, T) -> bool)
    requires SortedBy(s, le)
    ensures SortedBy(Filter(s, p), le)
  {
    if s != [] {
      var rest := Filter(s[1..], p);
      assert SortedBy(s[1..], le) by {
        forall i, j | 0 <= i < j < |s[1..]| ensures le(s[1..][i], s[1..][j]) {
          assert le(s[i + 1], s[j + 1]);
        }
      }
      FilterSorted(s[1..], p, le);
      if p(s[0]) {
        var r := [s[0]] + rest;
        forall i, j | 0 <= i < j < |r| ensures le(r[i], r[j]) {
          if i == 0 {
            FilterMembers(s[1..], p, r[j]);
            var k :| 0 <= k < |s[1..]| && s[1..][k] == r[j];
            assert le(s[0], s[k + 1]);
          } else {
            assert r[i] == rest[i - 1] && r[j] == rest[j - 1];
          }
        }
      }
    }
  }

  /**
   * A history read returns exactly the readable files of the prefix that are not older
   * than the cutoff, newest name first, each file's content in its place.
   */
  lemma HistoryFacts(dir: seq<SnapshotFile>, prefix: string, cutoff: string)
    ensures var kept := HistoryFiles(dir, prefix, cutoff);
      var h := History(dir, prefix, cutoff);
      (forall f :: f in kept <==>
        f in dir && StartsWith(f.stem, prefix) && !LexLess(DatePart(f), cutoff) && f.content.Some?) &&
      (forall i, j :: 0 <= i < j < |kept| ==> LexLe(FileName(kept[j]), FileName(kept[i]))) &&
      |h| == |kept| && (forall i :: 0 <= i < |h| ==> kept[i].content == Some(h[i]))
  {
    var matching := Filter(dir, Matches(prefix));
    var sorted := SortBy(matching, NewestFirst());
    var kept := HistoryFiles(dir, prefix, cutoff);
    forall f ensures f in kept <==> f in dir && StartsWith(f.stem, prefix) && !LexLess(DatePart(f), cutoff) && f.content.Some? {
      FilterMembers(sorted, Kept(cutoff), f);
      SortMembers(matching, NewestFirst(), f);
      FilterMembers(dir, Matches(prefix), f);
    }
    NewestFirstTotal();
    SortSorted(matching, NewestFirst());
    FilterSorted(sorted, Kept(cutoff), NewestFirst());
    forall i, j | 0 <= i < j < |kept| ensures LexLe(FileName(kept[j]), FileName(kept[i])) {
      assert NewestFirst()(kept[i], kept[j]);
    }
    forall i | 0 <= i < |kept| ensures kept[i].content.Some? {
      FilterMembers(sorted, Kept(cutoff), kept[i]);
    }
  }

  /**
   * For a file named after a valid date, under a prefix ending in `_`, the cutoff test on
   * the name's suffix is the calendar test: it is kept iff readable and not before the
   * cutoff date.
   */
  lemma KeptByDate(f: SnapshotFile, prefix: string, d: Date, cutoff: Date)
    requires ValidDate(d) && ValidDate(cutoff)
    requires |prefix| > 0 && prefix[|prefix| - 1] == '_' && f.stem == prefix + DateStamp(d)
    ensures Kept(DateStamp(cutoff))(f) <==> f.content.Some? && !DateBefore(d, cutoff)
  {
    DateStampFacts(d);
    var p := prefix[..|prefix| - 1];
    assert prefix == p + ['_'];
    assert f.stem == p + ['_'] + DateStamp(d);
    LastPartAfter(p, '_', DateStamp(d));
    DateStampOrder(d, cutoff);
  }

  /** The read loop: skip what is older than the cutoff or cannot be read, keep the rest in order. */
  method LoadSnapshots(files: seq<SnapshotFile>, cutoff: string) returns (snapshots: seq<Record>)
    ensures snapshots == MapSeq(Filter(files, Kept(cutoff)), ContentOf)
  {
    snapshots := [];
    for i := 0 to |files|
      invariant snapshots == MapSeq(Filter(files[..i], Kept(cutoff)), ContentOf)
    {
      FilterMapStep(files, Kept(cutoff), ContentOf, i);
      var datePart := LastPart(files[i].stem, '_');
      if LexLess(datePart, cutoff) {
        continue;
      }
      match files[i].content {
        case None =>
        case Some(snapshot) => snapshots := snapshots + [snapshot];
      }
    }
    assert files[..|files|] == files;
  }

  // ------------------------------------------------------------------ the service

  /** `LocalStorageService`, with each tenant directory's files held in memory. */
  class LocalStorageService {
    /** Each tenant's `findings.json`. */
    var findingsFiles: map<string, FindingsFile>
    /** Each tenant's dated snapshot files, in directory order. */
    var snapshotDirs: map<string, seq<SnapshotFile>>

    constructor ()
      ensures findingsFiles == map[] && snapshotDirs == map[]
    {
      findingsFiles, snapshotDirs := map[], map[];
    }

    function DirOf(tenant: string): seq<SnapshotFile>
      reads this
    {
      if tenant in snapshotDirs then snapshotDirs[tenant] else []
    }

    /**
     * `save_finding`: load the tenant's findings, replace the first entry with the same id
     * or append, and write the list back; `now` and `stamp` are the clock's ISO time and
     * timestamp. Returns the caller's dictionary, which an append writes into.
     */
    method SaveFinding(tenant: string, finding: Record, now: string, stamp: string) returns (callerFinding: Record)
      modifies this`findingsFiles
      ensures findingsFiles == old(findingsFiles)[tenant := Stored(Upserted(FindingsIn(old(findingsFiles), tenant), finding, tenant, now, stamp))]
      ensures callerFinding == CallerFinding(FindingsIn(old(findingsFiles), tenant), finding, tenant, now, stamp)
    {
      var findings := FindingsIn(findingsFiles, tenant);
      ghost var loaded := findings;
      callerFinding := finding;
      if "id" in finding && finding["id"] != "" {
        var findingId := finding["id"];
        var updated := false;
        var i := 0;
        while i < |findings|
          invariant 0 <= i <= |findings|
          invariant !updated ==> findings == loaded && forall j :: 0 <= j < i ==> !HasId(loaded[j], findingId)
          invariant updated ==> findings == Upserted(loaded, finding, tenant, now, stamp)
          decreases |findings| - i, !updated
        {
          if "id" in findings[i] && findings[i]["id"] == findingId {
            assert FirstWithId(loaded, findingId) == Some(i);
            findings := findings[i := (findings[i] + finding)["_updated" := now]];
            updated := true;
            break;
          }
          i := i + 1;
        }
        if !updated {
          callerFinding := finding["_created" := now];
          findings := findings + [callerFinding];
        }
      } else {
        callerFinding := finding["id" := "finding_" + tenant + "_" + stamp];
        callerFinding := callerFinding["_created" := now];
        findings := findings + [callerFinding];
      }
      findingsFiles := findingsFiles[tenant := Stored(findings)];
    }

    /** `get_open_findings`. */
    function OpenFindings(tenant: string, severity: Option<string>): seq<Record>
      reads this
    {
      OpenIn(FindingsIn(findingsFiles, tenant), severity)
    }

    /** `get_dashboard_history`; `cutoff` is today's date less `days`, from the clock. */
    method GetDashboardHistory(tenant: string, dashboardType: string, cutoff: Date) returns (snapshots: seq<Record>)
      ensures snapshots == History(DirOf(tenant), DashboardPrefix(dashboardType), DateStamp(cutoff))
    {
      var cutoffStr := DateStamp(cutoff);
      var files := SortBy(Filter(DirOf(tenant), Matches("dashboard_" + dashboardType + "_")), NewestFirst());
      snapshots := LoadSnapshots(files, cutoffStr);
    }

    /** `get_security_score_history`. */
    method GetSecurityScoreHistory(tenant: string, cutoff: Date) returns (scores: seq<Record>)
      ensures scores == History(DirOf(tenant), ScoresPrefix, DateStamp(cutoff))
    {
      var cutoffStr := DateStamp(cutoff);
      var files := SortBy(Filter(DirOf(tenant), Matches("scores_")), NewestFirst());
      scores := LoadSnapshots(files, cutoffStr);
    }
  }

  /** With no readable findings file the open findings are empty, whatever the severity. */
  lemma NoFileNoFindings(storage: LocalStorageService, tenant: string, severity: Option<string>)
    requires tenant !in storage.findingsFiles || !storage.findingsFiles[tenant].Stored?
    ensures storage.OpenFindings(tenant, severity) == []
  {
  }
}
