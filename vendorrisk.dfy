/**
 * The vendor-risk collector's derivations: the guest inventory with its staleness flag,
 * the guest summary with its top domains, the apps holding high-risk permissions and the
 * overall vendor risk score.
 */
module VendorRisk {
  import opened Wrappers
  import opened Seqs
  import opened Numeric
  import opened Text
  import opened Sorting

  // ------------------------------------------------------------------ guest inventory

  /**
   * A guest user as the directory client lists it. `signInAgeDays` is the whole number of
   * days from the recorded last sign-in to now, or `None` when that timestamp does not parse.
   */
  datatype Guest = Guest(id: Option<string>, displayName: Option<string>, email: string, userType: Option<string>,
                         createdAt: Option<string>, lastSignIn: Option<string>, signInAgeDays: Option<int>)

  /** A row of `get_guest_user_inventory`. */
  datatype GuestRow = GuestRow(userId: Option<string>, displayName: Option<string>, email: string, userType: Option<string>,
                               createdAt: Option<string>, lastSignIn: Option<string>, daysInactive: Option<int>,
                               isStale: bool, source: string, accessLevel: string)

  /** The age is only computed for a recorded (non-empty) sign-in. */
  function DaysInactive(g: Guest): Option<int> {
    if g.lastSignIn.Some? && g.lastSignIn.value != "" then g.signInAgeDays else None
  }

  function GuestRowOf(g: Guest): GuestRow {
    var days := DaysInactive(g);
    GuestRow(g.id, g.displayName, g.email, g.userType, g.createdAt, g.lastSignIn, days,
      days.Some? && days.value > 90, "Azure AD B2B", "Guest")
  }

  /** `get_guest_user_inventory` (without its cache): one row per guest, in listing order. */
  method GetGuestUserInventory(guests: seq<Guest>) returns (inventory: seq<GuestRow>)
    ensures inventory == MapSeq(guests, GuestRowOf)
  {
    inventory := [];
    for i := 0 to |guests|
      invariant inventory == MapSeq(guests[..i], GuestRowOf)
    {
      MapSeqStep(guests, GuestRowOf, i);
      var guest := guests[i];
      var daysInactive: Option<int> := None;
      if guest.lastSignIn.Some? && guest.lastSignIn.value != "" {
        daysInactive := guest.signInAgeDays;
      }
      inventory := inventory + [GuestRow(guest.id, guest.displayName, guest.email, guest.userType, guest.createdAt,
        guest.lastSignIn, daysInactive, daysInactive.Some? && daysInactive.value > 90, "Azure AD B2B", "Guest")];
    }
    assert guests[..|guests|] == guests;
  }

  /**
   * One row per guest with its identity copied; a guest is stale exactly when it has a
   * recorded sign-in whose age is known and over 90 days, so a stale guest has signed in.
   */
  lemma GuestInventoryFacts(guests: seq<Guest>)
    ensures var inventory := MapSeq(guests, GuestRowOf);
      |inventory| == |guests| &&
      forall k :: 0 <= k < |guests| ==>
        var g, r := guests[k], inventory[k];
        r.userId == g.id && r.email == g.email && r.lastSignIn == g.lastSignIn &&
        (r.isStale <==> g.lastSignIn.Some? && g.lastSignIn.value != "" && g.signInAgeDays.Some? && g.signInAgeDays.value > 90) &&
        (r.isStale ==> r.lastSignIn.Some? && r.daysInactive.Some?) &&
        (g.lastSignIn.None? ==> r.daysInactive.None? && !r.isStale) &&
        r.source == "Azure AD B2B" && r.accessLevel == "Guest"
  {
  }

  // ------------------------------------------------------------------ guest summary

  predicate StaleRow(r: GuestRow) { r.isStale }
  predicate NeverSignedIn(r: GuestRow) { r.lastSignIn.None? }
  predicate StaleOrNever(r: GuestRow) { StaleRow(r) || NeverSignedIn(r) }
  predicate ActiveRow(r: GuestRow) { !StaleOrNever(r) }
  predicate HasDomain(r: GuestRow) { '@' in r.email }

  /** `email.split("@")[1].lower()`: what follows the first '@' up to the next one, lower-cased. */
  function EmailDomain(email: string): string {
    if '@' in email then SplitTwo(email, '@'); Lower(Split(email, '@')[1]) else ""
  }

  function RowDomain(r: GuestRow): string { EmailDomain(r.email) }

  /** A single '@' separates the mailbox from the domain. */
  lemma EmailDomainOf(mailbox: string, domain: string)
    requires '@' !in mailbox && '@' !in domain
    ensures EmailDomain(mailbox + "@" + domain) == Lower(domain)
  {
    SplitFirst(mailbox, '@', domain);
    assert IndexOf(domain, '@').None?;
  }

  /** The rows whose email holds an '@', which the domain loop counts. */
  function DomainRows(inventory: seq<GuestRow>): seq<GuestRow> { Filter(inventory, HasDomain) }

  /** The `domains` dict: guests per domain. */
  function DomainCounts(inventory: seq<GuestRow>): map<string, nat> { TallyBy(DomainRows(inventory), RowDomain) }

  /** The number of guests whose email is at `domain`. */
  function DomainCount(inventory: seq<GuestRow>, domain: string): nat {
    Count(DomainRows(inventory), HasKey(RowDomain, domain))
  }

  function ItemOf(counts: map<string, nat>): string -> (string, nat) {
    (d: string) => (d, CountAt(counts, d))
  }

  /** `domains.items()`, in the order the domains were first met. */
  function DomainItems(inventory: seq<GuestRow>): seq<(string, nat)> {
    MapSeq(FirstKeys(DomainRows(inventory), RowDomain), ItemOf(DomainCounts(inventory)))
  }

  function ItemCount(e: (string, nat)): real { e.1 as real }

  /** `sorted(key=count, reverse=True)`. */
  function ByCountDesc(): ((string, nat), (string, nat)) -> bool { ByKeyDesc(ItemCount) }

  function TopDomains(inventory: seq<GuestRow>): seq<(string, nat)> {
    Take(SortBy(DomainItems(inventory), ByCountDesc()), 10)
  }

  /** The top-ten list is the first ten of the sorted domain counts. */
  lemma TopDomainsUnfold(inventory: seq<GuestRow>)
    ensures TopDomains(inventory) == Take(SortBy(DomainItems(inventory), ByCountDesc()), 10)
  {
  }

  datatype GuestSummary = GuestSummary(totalGuests: nat, staleGuests: nat, neverSignedIn: nat, activeGuests: int,
                                       topDomains: seq<(string, nat)>)

  function GuestSummaryOf(inventory: seq<GuestRow>): GuestSummary {
    var stale, never := Count(inventory, StaleRow), Count(inventory, NeverSignedIn);
    GuestSummary(|inventory|, stale, never, |inventory| - stale - never, TopDomains(inventory))
  }

  /** `get_guest_user_summary` over the inventory: the counts, then one pass filling the domain dict. */
  method GetGuestUserSummary(inventory: seq<GuestRow>) returns (summary: GuestSummary)
    ensures summary == GuestSummaryOf(inventory)
  {
    var total := |inventory|;
    var stale := Count(inventory, StaleRow);
    var never := Count(inventory, NeverSignedIn);
    var domains: map<string, nat> := map[];
    var order: seq<string> := [];
    for i := 0 to |inventory|
      invariant domains == TallyBy(Filter(inventory[..i], HasDomain), RowDomain)
      invariant order == FirstKeys(Filter(inventory[..i], HasDomain), RowDomain)
    {
      DomainStep(inventory, i);
      hide *;
      var email := inventory[i].email;
      if '@' in email {
        var domain := EmailDomain(email);
        if domain !in order {
          order := order + [domain];
        }
        domains := Bumped(domains, domain);
      }
    }
    assert inventory[..|inventory|] == inventory;
    var items := MapSeq(order, ItemOf(domains));
    summary := GuestSummary(total, stale, never, total - stale - never, Take(SortBy(items, ByCountDesc()), 10));
  }

  /** One more row of the domain loop: a row with an '@' bumps its domain and adds it to the order if new. */
  lemma DomainStep(inventory: seq<GuestRow>, i: nat)
    requires i < |inventory|
    ensures var prefix, x := Filter(inventory[..i], HasDomain), inventory[i];
      TallyBy(Filter(inventory[..i + 1], HasDomain), RowDomain) ==
        (if '@' in x.email then Bumped(TallyBy(prefix, RowDomain), EmailDomain(x.email)) else TallyBy(prefix, RowDomain)) &&
      FirstKeys(Filter(inventory[..i + 1], HasDomain), RowDomain) ==
        (if '@' in x.email && EmailDomain(x.email) !in FirstKeys(prefix, RowDomain)
         then FirstKeys(prefix, RowDomain) + [EmailDomain(x.email)] else FirstKeys(prefix, RowDomain))
  {
    var prefix, x := Filter(inventory[..i], HasDomain), inventory[i];
    FilterStep(inventory, HasDomain, i);
    if '@' in x.email {
      assert HasDomain(x) && RowDomain(x) == EmailDomain(x.email);
      assert Filter(inventory[..i + 1], HasDomain) == prefix + [x];
      TallyBySnoc(prefix, x, RowDomain);
      FirstKeysSnoc(prefix, x, RowDomain);
      hide *;
    } else {
      assert !HasDomain(x);
      assert Filter(inventory[..i + 1], HasDomain) == prefix;
      hide *;
    }
  }

  /**
   * Over an inventory built from the listing, a stale guest has signed in, so the stale
   * and never-signed-in counts are disjoint: together they are at most the total, and the
   * active count is the number of remaining guests, never negative.
   */
  lemma GuestSummaryCounts(guests: seq<Guest>)
    ensures var s := GuestSummaryOf(MapSeq(guests, GuestRowOf));
      s.totalGuests == |guests| &&
      s.staleGuests + s.neverSignedIn <= s.totalGuests &&
      s.activeGuests == Count(MapSeq(guests, GuestRowOf), ActiveRow) >= 0
  {
    var inventory := MapSeq(guests, GuestRowOf);
    forall x | x in inventory ensures !(StaleRow(x) && NeverSignedIn(x)) {
      var k :| 0 <= k < |inventory| && inventory[k] == x;
      StaleNeedsSignIn(guests[k]);
    }
    hide TopDomains, GuestRowOf;
    CountDisjoint(inventory, StaleRow, NeverSignedIn, StaleOrNever);
    CountComplement(inventory, StaleOrNever, ActiveRow);
  }

  /** A guest who never signed in has no inactivity age, so is never stale. */
  lemma StaleNeedsSignIn(g: Guest)
    ensures !(GuestRowOf(g).isStale && GuestRowOf(g).lastSignIn.None?)
  {
  }

  /** Each domain item is a domain of the guests with its guest count, which is positive. */
  lemma DomainItemsEntries(inventory: seq<GuestRow>)
    ensures var items, domains := DomainItems(inventory), KeySetOf(DomainRows(inventory), RowDomain);
      forall k :: 0 <= k < |items| ==> items[k].0 in domains && items[k].1 == DomainCount(inventory, items[k].0) > 0
  {
    var rows := DomainRows(inventory);
    FirstKeysFacts(rows, RowDomain);
    TallyByPositive(rows, RowDomain);
  }

  /** Every domain has its item, and there are as many items as domains. */
  lemma DomainItemsCover(inventory: seq<GuestRow>)
    ensures var items, domains := DomainItems(inventory), KeySetOf(DomainRows(inventory), RowDomain);
      |items| == |domains| && forall d :: d in domains ==> (d, DomainCount(inventory, d)) in items
  {
    var rows := DomainRows(inventory);
    var order := FirstKeys(rows, RowDomain);
    var counts := DomainCounts(inventory);
    FirstKeysFacts(rows, RowDomain);
    DistinctCard(order);
    assert (set x | x in order) == KeySetOf(rows, RowDomain);
    forall d | d in KeySetOf(rows, RowDomain) ensures (d, DomainCount(inventory, d)) in DomainItems(inventory) {
      var j :| 0 <= j < |order| && order[j] == d;
      assert DomainItems(inventory)[j] == (d, counts[d]);
    }
  }

  /** Sorting the items by count, largest first, permutes them and orders them. */
  lemma CountSorted(items: seq<(string, nat)>)
    ensures var sorted := SortBy(items, ByCountDesc());
      multiset(sorted) == multiset(items) &&
      forall i, j :: 0 <= i < j < |sorted| ==> sorted[i].1 >= sorted[j].1
  {
    var sorted := SortBy(items, ByCountDesc());
    ByKeyTotal(ItemCount);
    SortPermutes(items, ByCountDesc());
    SortSorted(items, ByCountDesc());
    forall i, j | 0 <= i < j < |sorted| ensures sorted[i].1 >= sorted[j].1 {
      assert SortedBy(sorted, ByCountDesc());
      assert ByCountDesc()(sorted[i], sorted[j]);
      assert ItemCount(sorted[j]) <= ItemCount(sorted[i]);
    }
  }

  /** The first ten of the items sorted by count, largest first: as many as there are up to ten, all items, counts never increasing. */
  lemma TopOfItems(items: seq<(string, nat)>)
    ensures var top := Take(SortBy(items, ByCountDesc()), 10);
      |top| == MinInt(10, |items|) &&
      (forall k :: 0 <= k < |top| ==> top[k] in items) &&
      (forall i, j :: 0 <= i < j < |top| ==> top[i].1 >= top[j].1)
  {
    var sorted := SortBy(items, ByCountDesc());
    var top := Take(sorted, 10);
    CountSorted(items);
    assert |sorted| == |items| by {
      assert |multiset(sorted)| == |multiset(items)|;
    }
    forall k | 0 <= k < |top| ensures top[k] in items {
      assert top[k] == sorted[k] && sorted[k] in multiset(items);
    }
  }

  /** An item left out of the first ten has no larger count than any kept one, and none is left out when there are at most ten. */
  lemma TopOfItemsLeftOut(items: seq<(string, nat)>)
    ensures var top := Take(SortBy(items, ByCountDesc()), 10);
      (forall x :: x in items && x !in top ==> |items| > 10 && forall k :: 0 <= k < |top| ==> top[k].1 >= x.1) &&
      (|items| <= 10 ==> forall x :: x in items ==> x in top)
  {
    var sorted := SortBy(items, ByCountDesc());
    var top := Take(sorted, 10);
    CountSorted(items);
    assert |sorted| == |items| by {
      assert |multiset(sorted)| == |multiset(items)|;
    }
    forall x | x in items ensures x in sorted {
      assert x in multiset(items);
    }
    forall x | x in items && x !in top ensures |items| > 10 && forall k :: 0 <= k < |top| ==> top[k].1 >= x.1 {
      var m :| 0 <= m < |sorted| && sorted[m] == x;
      assert m >= |top|;
    }
  }

  /**
   * The top domains are at most ten of the guests' domains, as many as there are up to
   * ten, each with its guest count, and counts never increase along the list.
   */
  lemma TopDomainsFacts(inventory: seq<GuestRow>)
    ensures var top, domains := TopDomains(inventory), KeySetOf(DomainRows(inventory), RowDomain);
      |top| == MinInt(10, |domains|) &&
      (forall k :: 0 <= k < |top| ==> top[k].0 in domains && top[k].1 == DomainCount(inventory, top[k].0) > 0) &&
      (forall i, j :: 0 <= i < j < |top| ==> top[i].1 >= top[j].1)
  {
    var items := DomainItems(inventory);
    DomainItemsEntries(inventory);
    DomainItemsCover(inventory);
    TopOfItems(items);
    hide *;
    var top := TopDomains(inventory);
    TopDomainsUnfold(inventory);
    forall k | 0 <= k < |top| ensures top[k].0 in KeySetOf(DomainRows(inventory), RowDomain) && top[k].1 == DomainCount(inventory, top[k].0) > 0 {
      var j :| 0 <= j < |items| && items[j] == top[k];
    }
  }

  /** A domain left out of the top ten has no more guests than any listed one, and none is left out when there are at most ten. */
  lemma TopDomainsLeftOut(inventory: seq<GuestRow>)
    ensures var top, domains := TopDomains(inventory), KeySetOf(DomainRows(inventory), RowDomain);
      (forall d :: d in domains && (forall k :: 0 <= k < |top| ==> top[k].0 != d) ==>
        |domains| > 10 && forall k :: 0 <= k < |top| ==> top[k].1 >= DomainCount(inventory, d)) &&
      (|domains| <= 10 ==> forall d :: d in domains ==> (d, DomainCount(inventory, d)) in top)
  {
    var items := DomainItems(inventory);
    DomainItemsCover(inventory);
    TopOfItemsLeftOut(items);
    hide *;
    var top, domains := TopDomains(inventory), KeySetOf(DomainRows(inventory), RowDomain);
    TopDomainsUnfold(inventory);
    forall d | d in domains && (forall k :: 0 <= k < |top| ==> top[k].0 != d)
      ensures |domains| > 10 && forall k :: 0 <= k < |top| ==> top[k].1 >= DomainCount(inventory, d)
    {
      var x := (d, DomainCount(inventory, d));
      assert x in items;
    }
  }

  // ------------------------------------------------------------------ high-risk apps

  /** A third-party app with admin consent. */
  datatype ThirdPartyApp = ThirdPartyApp(appId: string, displayName: string, publisher: string, permissions: seq<string>,
                                         permissionCount: nat, consentType: string, consentedBy: string,
                                         consentedAt: string, riskLevel: string)

  /** A copy of an app, marked high risk, with the high-risk permissions it holds. */
  datatype HighRiskApp = HighRiskApp(app: ThirdPartyApp, highRiskPermissions: set<string>)

  const HighRiskPermissions: set<string> := {
    "Mail.ReadWrite", "Mail.Send", "Mail.ReadWrite.All",
    "Files.ReadWrite.All", "Sites.ReadWrite.All",
    "Directory.ReadWrite.All", "User.ReadWrite.All",
    "RoleManagement.ReadWrite.Directory"
  }

  /** `set(permissions) & high_risk_permissions`. */
  function RiskyPermissions(a: ThirdPartyApp): set<string> {
    (set p | p in a.permissions) * HighRiskPermissions
  }

  predicate HasRiskyPermissions(a: ThirdPartyApp) { RiskyPermissions(a) != {} }

  function HighRiskRow(a: ThirdPartyApp): HighRiskApp {
    HighRiskApp(a.(riskLevel := "high"), RiskyPermissions(a))
  }

  /** `get_high_risk_apps`: copy each app holding a high-risk permission, mark it high and list what it holds. */
  method GetHighRiskApps(apps: seq<ThirdPartyApp>) returns (highRisk: seq<HighRiskApp>)
    ensures highRisk == MapSeq(Filter(apps, HasRiskyPermissions), HighRiskRow)
  {
    highRisk := [];
    for i := 0 to |apps|
      invariant highRisk == MapSeq(Filter(apps[..i], HasRiskyPermissions), HighRiskRow)
    {
      FilterMapStep(apps, HasRiskyPermissions, HighRiskRow, i);
      var app := apps[i];
      var riskyPerms := (set p | p in app.permissions) * HighRiskPermissions;
      if riskyPerms != {} {
        highRisk := highRisk + [HighRiskApp(app.(riskLevel := "high"), riskyPerms)];
      }
    }
    assert apps[..|apps|] == apps;
  }

  /**
   * The result holds a marked copy of exactly the apps that hold a high-risk permission;
   * each copy agrees with its app on every field but the risk level, which is "high", and
   * lists exactly the high-risk permissions the app holds, at least one.
   */
  lemma HighRiskAppsFacts(apps: seq<ThirdPartyApp>)
    ensures var highRisk := MapSeq(Filter(apps, HasRiskyPermissions), HighRiskRow);
      (forall a :: a in apps && HasRiskyPermissions(a) ==> HighRiskRow(a) in highRisk) &&
      (forall a :: a in apps && !HasRiskyPermissions(a) ==> forall r :: r in highRisk ==> r.app != a.(riskLevel := "high")) &&
      (forall r :: r in highRisk ==> exists a :: a in apps && r.app == a.(riskLevel := "high")) &&
      (forall r :: r in highRisk ==>
        r.app.riskLevel == "high" && r.highRiskPermissions != {} && r.highRiskPermissions <= HighRiskPermissions &&
        forall p :: p in r.highRiskPermissions <==> p in r.app.permissions && p in HighRiskPermissions)
  {
    var highRisk := MapSeq(Filter(apps, HasRiskyPermissions), HighRiskRow);
    forall a | a in apps && HasRiskyPermissions(a) ensures HighRiskRow(a) in highRisk {
      FilterMapMembers(apps, HasRiskyPermissions, HighRiskRow, HighRiskRow(a));
    }
    forall r | r in highRisk
      ensures (exists a :: a in apps && r.app == a.(riskLevel := "high")) &&
        r.app.riskLevel == "high" && r.highRiskPermissions != {} && r.highRiskPermissions <= HighRiskPermissions &&
        forall p :: p in r.highRiskPermissions <==> p in r.app.permissions && p in HighRiskPermissions
    {
      FilterMapMembers(apps, HasRiskyPermissions, HighRiskRow, r);
    }
    forall a, r | a in apps && !HasRiskyPermissions(a) && r in highRisk ensures r.app != a.(riskLevel := "high") {
      FilterMapMembers(apps, HasRiskyPermissions, HighRiskRow, r);
      var b :| b in apps && HasRiskyPermissions(b) && r == HighRiskRow(b);
    }
  }

  // ------------------------------------------------------------------ vendor risk score

  /** The external-sharing statistics the score reads. */
  datatype SharingStats = SharingStats(totalExternalShares: nat, filesSharedExternally: nat, foldersSharedExternally: nat,
                                       sitesWithExternalAccess: nat, sharesWithoutExpiry: nat,
                                       sharesOlderThan90Days: nat, anonymousLinks: nat)

  /** The fixed figures `get_external_sharing_stats` returns in place of a SharePoint query. */
  const PlaceholderSharing: SharingStats := SharingStats(156, 89, 23, 5, 34, 45, 12)

  /** `stale / max(total, 1)`: with no guests the divisor is one. */
  function StaleRatio(staleGuests: nat, totalGuests: nat): real {
    staleGuests as real / MaxInt(totalGuests, 1) as real
  }

  /** The unrounded score: 100 less the four capped deductions, floored at 0. */
  function RawVendorScore(staleGuests: nat, totalGuests: nat, highRiskApps: nat, anonymousLinks: nat, sharesWithoutExpiry: nat): real {
    var score := 100.0 - Min(StaleRatio(staleGuests, totalGuests) * 20.0, 20.0) - (highRiskApps * 5) as real
      - Min((anonymousLinks * 2) as real, 15.0) - Min(sharesWithoutExpiry as real * 0.5, 10.0);
    Max(score, 0.0)
  }

  /** The level is read off the unrounded score. */
  function RiskLevel(score: real): string {
    if score >= 80.0 then "low" else if score >= 60.0 then "medium" else "high"
  }

  datatype VendorRiskScore = VendorRiskScore(score: real, riskLevel: string, maxScore: nat)

  function VendorRiskScoreOf(guests: GuestSummary, highRiskApps: nat, sharing: SharingStats): VendorRiskScore {
    var raw := RawVendorScore(guests.staleGuests, guests.totalGuests, highRiskApps, sharing.anonymousLinks, sharing.sharesWithoutExpiry);
    VendorRiskScore(Round1(raw), RiskLevel(raw), 100)
  }

  /** `_calculate_vendor_risk_score`: start at 100 and take off each deduction in turn. */
  method CalculateVendorRiskScore(guests: GuestSummary, highRisk: seq<HighRiskApp>, sharing: SharingStats) returns (r: VendorRiskScore)
    ensures r == VendorRiskScoreOf(guests, |highRisk|, sharing)
  {
    var score := 100.0;
    var staleRatio := guests.staleGuests as real / (if guests.totalGuests >= 1 then guests.totalGuests else 1) as real;
    score := score - Min(staleRatio * 20.0, 20.0);
    score := score - (|highRisk| * 5) as real;
    score := score - Min((sharing.anonymousLinks * 2) as real, 15.0);
    score := score - Min(sharing.sharesWithoutExpiry as real * 0.5, 10.0);
    score := Max(score, 0.0);
    var riskLevel := if score >= 80.0 then "low" else if score >= 60.0 then "medium" else "high";
    r := VendorRiskScore(Round1(score), riskLevel, 100);
  }

  /**
   * The score lies in 0..100 before and after rounding, is 100 with nothing to deduct,
   * and each deduction is capped: the stale, anonymous-link and expiry deductions take at
   * most 45 points together. The level is low from 80, medium from 60, high below.
   */
  lemma VendorRiskFacts(staleGuests: nat, totalGuests: nat, highRiskApps: nat, anonymousLinks: nat, sharesWithoutExpiry: nat)
    ensures var raw := RawVendorScore(staleGuests, totalGuests, highRiskApps, anonymousLinks, sharesWithoutExpiry);
      0.0 <= raw <= 100.0 && 0.0 <= Round1(raw) <= 100.0 &&
      (staleGuests == 0 && highRiskApps == 0 && anonymousLinks == 0 && sharesWithoutExpiry == 0 ==> raw == 100.0) &&
      raw >= 55.0 - (5 * highRiskApps) as real &&
      (RiskLevel(raw) == "low" <==> raw >= 80.0) &&
      (RiskLevel(raw) == "medium" <==> 60.0 <= raw < 80.0) &&
      (RiskLevel(raw) == "high" <==> raw < 60.0)
  {
    Round1Percent(RawVendorScore(staleGuests, totalGuests, highRiskApps, anonymousLinks, sharesWithoutExpiry));
    assert StaleRatio(0, totalGuests) == 0.0;
  }

  /** More of any risk never raises the score. */
  lemma VendorRiskMonotone(stale: nat, total: nat, apps: nat, anon: nat, noExpiry: nat,
                           stale': nat, apps': nat, anon': nat, noExpiry': nat)
    requires stale <= stale' && apps <= apps' && anon <= anon' && noExpiry <= noExpiry'
    ensures RawVendorScore(stale', total, apps', anon', noExpiry') <= RawVendorScore(stale, total, apps, anon, noExpiry)
  {
    var d := MaxInt(total, 1) as real;
    assert stale as real / d <= stale' as real / d;
  }

  /**
   * With the placeholder sharing figures the anonymous-link and expiry deductions are
   * both at their caps, so the score is at most 75 and the level is never "low".
   */
  lemma PlaceholderSharingCapsScore(guests: GuestSummary, highRiskApps: nat)
    ensures VendorRiskScoreOf(guests, highRiskApps, PlaceholderSharing).riskLevel != "low"
    ensures RawVendorScore(guests.staleGuests, guests.totalGuests, highRiskApps, 12, 34) <= 75.0
  {
    assert StaleRatio(guests.staleGuests, guests.totalGuests) >= 0.0;
  }
}
