/**
 * The threat collector's derivations over the security-alert listing: the severity
 * summary of active alerts, the active-alert list ordered by severity, the blocked-threat
 * estimate and the per-category counts.
 */
module Threats {
  import opened Wrappers
  import opened Seqs
  import opened Numeric
  import opened Text
  import opened Sorting

  /**
   * A security alert as the directory client lists it: severity and status are always
   * text ("informational" and "unknown" when unset); the category may be unset.
   */
  datatype Alert = Alert(id: Option<string>, title: string, description: Option<string>, severity: string, status: string,
                         category: Option<string>, serviceSource: string, createdAt: Option<string>, lastUpdated: Option<string>)

  /** Neither resolved nor dismissed. */
  function IsActive(a: Alert): bool {
    a.status !in ["resolved", "dismissed"]
  }

  function SeverityIs(level: string): Alert -> bool {
    (a: Alert) => a.severity == level
  }

  /** A "high" alert whose title mentions "critical" counts as critical. */
  function IsCriticalHigh(a: Alert): bool {
    a.severity == "high" && Contains(Lower(a.title), "critical")
  }

  function IsLowOrInformational(a: Alert): bool {
    a.severity in ["low", "informational"]
  }

  // ------------------------------------------------------------------ alert summary

  datatype AlertSummary = AlertSummary(criticalCount: nat, highCount: int, mediumCount: nat, lowCount: nat, totalActive: nat)

  /** `collect_alert_summary` (without its cache). */
  function AlertSummaryOf(alerts: seq<Alert>): AlertSummary {
    var active := Filter(alerts, IsActive);
    var critical := Count(active, IsCriticalHigh);
    AlertSummary(critical, Count(active, SeverityIs("high")) - critical, Count(active, SeverityIs("medium")),
      Count(active, IsLowOrInformational), |active|)
  }

  /**
   * Critical alerts are a subset of the active "high" ones, so the high count is never
   * negative and critical + high is the number of active "high" alerts; every active
   * alert has at most one severity, so the four counts add up to at most the active
   * total, which counts the alerts neither resolved nor dismissed.
   */
  lemma AlertSummaryFacts(alerts: seq<Alert>)
    ensures var s := AlertSummaryOf(alerts);
      s.highCount >= 0 &&
      s.criticalCount + s.highCount == Count(Filter(alerts, IsActive), SeverityIs("high")) &&
      s.criticalCount + s.highCount + s.mediumCount + s.lowCount <= s.totalActive &&
      s.totalActive == Count(alerts, IsActive) <= |alerts|
  {
    hide Contains, Lower;
    var active := Filter(alerts, IsActive);
    CountMono(active, IsCriticalHigh, SeverityIs("high"));
    SeverityCountsBound(active);
  }

  /** An alert has one severity, so the per-severity counts add up to at most the number of alerts. */
  lemma SeverityCountsBound(active: seq<Alert>)
    ensures Count(active, SeverityIs("high")) + Count(active, SeverityIs("medium")) + Count(active, IsLowOrInformational) <= |active|
  {
    var hm := (a: Alert) => SeverityIs("high")(a) || SeverityIs("medium")(a);
    var hml := (a: Alert) => hm(a) || IsLowOrInformational(a);
    CountDisjoint(active, SeverityIs("high"), SeverityIs("medium"), hm);
    CountDisjoint(active, hm, IsLowOrInformational, hml);
  }

  // ------------------------------------------------------------------ active alerts

  /** A row of `get_active_alerts`. */
  datatype ActiveAlert = ActiveAlert(id: Option<string>, title: string, description: Option<string>, severity: string,
                                     status: string, category: Option<string>, source: string,
                                     createdAt: Option<string>, lastUpdated: Option<string>)

  function ActiveRow(a: Alert): ActiveAlert {
    ActiveAlert(a.id, a.title, a.description, a.severity, a.status, a.category, a.serviceSource, a.createdAt, a.lastUpdated)
  }

  /** `severity_order.get(severity, 4)`: high 0, medium 1, low 2, informational 3, anything else 4. */
  function SeverityRank(severity: string): (r: nat)
    ensures r <= 4
  {
    if severity == "high" then 0
    else if severity == "medium" then 1
    else if severity == "low" then 2
    else if severity == "informational" then 3
    else 4
  }

  function RowRank(r: ActiveAlert): real { SeverityRank(r.severity) as real }

  function ByRank(): (ActiveAlert, ActiveAlert) -> bool { ByKey(RowRank) }

  /** `get_active_alerts`: keep the active alerts as rows, then sort them stably by severity rank. */
  method GetActiveAlerts(alerts: seq<Alert>) returns (active: seq<ActiveAlert>)
    ensures active == SortBy(MapSeq(Filter(alerts, IsActive), ActiveRow), ByRank())
  {
    active := [];
    for i := 0 to |alerts|
      invariant active == MapSeq(Filter(alerts[..i], IsActive), ActiveRow)
    {
      FilterMapStep(alerts, IsActive, ActiveRow, i);
      var alert := alerts[i];
      if alert.status !in ["resolved", "dismissed"] {
        active := active + [ActiveAlert(alert.id, alert.title, alert.description, alert.severity, alert.status,
          alert.category, alert.serviceSource, alert.createdAt, alert.lastUpdated)];
      }
    }
    assert alerts[..|alerts|] == alerts;
    active := SortBy(active, ByRank());
  }

  /**
   * The list holds exactly the rows of the active alerts, each as often as it occurs, in
   * non-decreasing severity rank, and alerts of equal rank keep their listing order.
   */
  lemma ActiveAlertsFacts(alerts: seq<Alert>)
    ensures var rows := MapSeq(Filter(alerts, IsActive), ActiveRow);
      var sorted := SortBy(rows, ByRank());
      multiset(sorted) == multiset(rows) &&
      |sorted| == AlertSummaryOf(alerts).totalActive &&
      (forall i, j :: 0 <= i < j < |sorted| ==> SeverityRank(sorted[i].severity) <= SeverityRank(sorted[j].severity)) &&
      (forall e :: SameRank(sorted, e, ByRank()) == SameRank(rows, e, ByRank())) &&
      (forall a :: a in alerts && IsActive(a) ==> ActiveRow(a) in sorted) &&
      (forall k :: 0 <= k < |sorted| ==> sorted[k].status !in ["resolved", "dismissed"])
  {
    var kept := Filter(alerts, IsActive);
    var rows := MapSeq(kept, ActiveRow);
    var sorted := SortBy(rows, ByRank());
    RankSorted(rows);
    forall a | a in alerts && IsActive(a) ensures ActiveRow(a) in sorted {
      FilterMembers(alerts, IsActive, a);
      var k :| 0 <= k < |kept| && kept[k] == a;
      assert rows[k] == ActiveRow(a);
      SortMembers(rows, ByRank(), ActiveRow(a));
    }
    forall k | 0 <= k < |sorted| ensures sorted[k].status !in ["resolved", "dismissed"] {
      SortMembers(rows, ByRank(), sorted[k]);
      var j :| 0 <= j < |rows| && rows[j] == sorted[k];
      FilterMembers(alerts, IsActive, kept[j]);
    }
  }

  /** Sorting by rank permutes the rows, orders them by rank and keeps ties in order. */
  lemma RankSorted(rows: seq<ActiveAlert>)
    ensures var sorted := SortBy(rows, ByRank());
      multiset(sorted) == multiset(rows) &&
      (forall i, j :: 0 <= i < j < |sorted| ==> SeverityRank(sorted[i].severity) <= SeverityRank(sorted[j].severity)) &&
      (forall e :: SameRank(sorted, e, ByRank()) == SameRank(rows, e, ByRank()))
  {
    var sorted := SortBy(rows, ByRank());
    ByKeyTotal(RowRank);
    SortPermutes(rows, ByRank());
    SortSorted(rows, ByRank());
    forall i, j | 0 <= i < j < |sorted| ensures SeverityRank(sorted[i].severity) <= SeverityRank(sorted[j].severity) {
      assert SortedBy(sorted, ByRank());
      assert ByRank()(sorted[i], sorted[j]);
      assert RowRank(sorted[i]) <= RowRank(sorted[j]);
    }
    forall e ensures SameRank(sorted, e, ByRank()) == SameRank(rows, e, ByRank()) {
      SortStable(rows, e, ByRank());
    }
  }

  // ------------------------------------------------------------------ blocked threats

  /** `(title + category).lower()`, with an unset category read as empty. */
  function SearchText(a: Alert): string {
    Lower(a.title + a.category.GetOr(""))
  }

  function MentionsPhish(a: Alert): bool { Contains(SearchText(a), "phish") }
  function MentionsMalware(a: Alert): bool { Contains(SearchText(a), "malware") }

  datatype BlockedThreats = BlockedThreats(phishingBlocked: nat, malwareBlocked: nat, spamBlocked: nat, totalBlocked: nat, period: string)

  /** `collect_blocked_threats` (without its cache): fixed multipliers on the matching alert counts. */
  function BlockedThreatsOf(alerts: seq<Alert>): BlockedThreats {
    var phishing, malware := Count(alerts, MentionsPhish), Count(alerts, MentionsMalware);
    BlockedThreats(phishing * 10, malware * 5, 0, phishing * 10 + malware * 5, "30d")
  }

  /**
   * The total is the sum of the phishing and malware estimates, a multiple of five,
   * at most fifteen per alert, and zero exactly when no alert mentions either.
   */
  lemma BlockedThreatsFacts(alerts: seq<Alert>)
    ensures var b := BlockedThreatsOf(alerts);
      b.totalBlocked == b.phishingBlocked + b.malwareBlocked + b.spamBlocked &&
      b.phishingBlocked % 10 == 0 && b.malwareBlocked % 5 == 0 && b.totalBlocked % 5 == 0 &&
      b.totalBlocked <= 15 * |alerts| &&
      (b.totalBlocked == 0 <==> forall a :: a in alerts ==> !MentionsPhish(a) && !MentionsMalware(a))
  {
    hide Contains, Lower, SearchText;
    if forall a :: a in alerts ==> !MentionsPhish(a) && !MentionsMalware(a) {
      CountNone(alerts, MentionsPhish);
      CountNone(alerts, MentionsMalware);
    } else {
      var a :| a in alerts && (MentionsPhish(a) || MentionsMalware(a));
      FilterMembers(alerts, MentionsPhish, a);
      FilterMembers(alerts, MentionsMalware, a);
    }
  }

  /**
   * `(a.get("title", "") + a.get("category", "")).lower()` as written: the listing always
   * holds a `category` key, so an unset category comes back as `None` and the
   * concatenation raises.
   */
  function SearchTextAsWritten(a: Alert): Result<string> {
    if a.category.None? then Failure("can only concatenate str (not \"NoneType\") to str")
    else Ok(Lower(a.title + a.category.value))
  }

  /** `len([a for a in alerts if needle in ...])` as written: the first unset category raises. */
  function MentionCountAsWritten(alerts: seq<Alert>, needle: string): Result<nat> {
    if alerts == [] then Ok(0)
    else match (SearchTextAsWritten(alerts[0]), MentionCountAsWritten(alerts[1..], needle))
      case (Failure(e), _) => Failure(e)
      case (_, Failure(e)) => Failure(e)
      case (Ok(text), Ok(n)) => Ok((if Contains(text, needle) then 1 else 0) + n)
  }

  /** `collect_blocked_threats` as written: it raises unless every alert has a category. */
  function BlockedThreatsAsWritten(alerts: seq<Alert>): Result<BlockedThreats> {
    match MentionCountAsWritten(alerts, "phish")
      case Failure(e) => Failure(e)
      case Ok(phishing) =>
        match MentionCountAsWritten(alerts, "malware")
          case Failure(e) => Failure(e)
          case Ok(malware) => Ok(BlockedThreats(phishing * 10, malware * 5, 0, phishing * 10 + malware * 5, "30d"))
  }

  /** The count as written succeeds exactly when every category is set, and then agrees with the corrected count. */
  lemma {:induction false} MentionCountAsWrittenFacts(alerts: seq<Alert>, needle: string, p: Alert -> bool)
    requires forall a :: p(a) == Contains(SearchText(a), needle)
    ensures MentionCountAsWritten(alerts, needle).Ok? <==> forall a :: a in alerts ==> a.category.Some?
    ensures MentionCountAsWritten(alerts, needle).Ok? ==> MentionCountAsWritten(alerts, needle).value == Count(alerts, p)
  {
    if alerts != [] {
      MentionCountAsWrittenFacts(alerts[1..], needle, p);
      assert alerts == [alerts[0]] + alerts[1..];
      assert forall a :: a in alerts <==> a == alerts[0] || a in alerts[1..];
    }
  }

  /**
   * `collect_blocked_threats` as written returns the corrected estimate exactly when every
   * alert has a category, and raises otherwise.
   */
  lemma BlockedThreatsAsWrittenFacts(alerts: seq<Alert>)
    ensures BlockedThreatsAsWritten(alerts).Ok? <==> forall a :: a in alerts ==> a.category.Some?
    ensures BlockedThreatsAsWritten(alerts).Ok? ==> BlockedThreatsAsWritten(alerts).value == BlockedThreatsOf(alerts)
  {
    MentionCountAsWrittenFacts(alerts, "phish", MentionsPhish);
    MentionCountAsWrittenFacts(alerts, "malware", MentionsMalware);
  }

  /** A phishing alert without a category makes the collection raise, while the corrected estimate counts it. */
  lemma UnsetCategoryRaises()
    ensures var a := Alert(None, "phish", None, "high", "new", None, "", None, None);
      BlockedThreatsAsWritten([a]).Failure? && BlockedThreatsOf([a]).phishingBlocked == 10
  {
    var a := Alert(None, "phish", None, "high", "new", None, "", None, None);
    LowerNoCapitals("phish");
    ContainsSelf("phish");
    assert SearchText(a) == "phish";
    assert [a][1..] == [];
    assert Filter([a], MentionsPhish) == [a];
  }

  // ------------------------------------------------------------------ alerts by category

  function CategoryOf(a: Alert): Option<string> { a.category }

  /** `get_alerts_by_category`: one pass bumping each alert's category count. */
  method AlertsByCategory(alerts: seq<Alert>) returns (categories: map<Option<string>, nat>)
    ensures categories == TallyBy(alerts, CategoryOf)
  {
    categories := map[];
    for i := 0 to |alerts|
      invariant categories == TallyBy(alerts[..i], CategoryOf)
    {
      TallyByStep(alerts, CategoryOf, i);
      hide *;
      categories := Bumped(categories, alerts[i].category);
    }
    assert alerts[..|alerts|] == alerts;
  }

  /**
   * The categories are exactly those of the alerts, each counted at least once, and
   * summed over any list of distinct categories covering them they give the number of
   * alerts.
   */
  lemma AlertsByCategoryFacts(alerts: seq<Alert>, categories: seq<Option<string>>)
    requires Distinct(categories) && forall a :: a in alerts ==> a.category in categories
    ensures TallyBy(alerts, CategoryOf).Keys == (set a | a in alerts :: a.category)
    ensures forall c :: c in TallyBy(alerts, CategoryOf) ==> TallyBy(alerts, CategoryOf)[c] > 0
    ensures SumAt(categories, TallyBy(alerts, CategoryOf)) == |alerts|
  {
    TallyByPositive(alerts, CategoryOf);
    TallyBySum(alerts, CategoryOf, categories);
  }
}
