/**
 * The identity collector's derivations over fetched directory data: MFA coverage, the
 * users without MFA, privileged-account counts, the per-user privileged-role detail and
 * the risky-user counts.
 */
module Identity {
  import opened Wrappers
  import opened Seqs
  import opened Numeric

  /** A user's MFA registration record; the directory client fills both flags, `False` when unset. */
  datatype MfaRecord = MfaRecord(userId: Option<string>, displayName: Option<string>, email: Option<string>,
                                 isMfaRegistered: bool, isAdmin: bool)

  // ------------------------------------------------------------------ MFA coverage

  function Registered(u: MfaRecord): bool { u.isMfaRegistered }
  function Unregistered(u: MfaRecord): bool { !u.isMfaRegistered }
  function IsAdmin(u: MfaRecord): bool { u.isAdmin }
  function RegisteredAdmin(u: MfaRecord): bool { u.isAdmin && u.isMfaRegistered }

  datatype MfaCoverage = MfaCoverage(adminCoveragePercent: real, userCoveragePercent: real,
                                     totalAdmins: nat, adminsWithMfa: nat, totalUsers: nat, usersWithMfa: nat)

  /** `collect_mfa_coverage` (without its cache): coverage of the admins and of all users. */
  function MfaCoverageOf(details: seq<MfaRecord>): MfaCoverage {
    var totalUsers, usersWithMfa := |details|, Count(details, Registered);
    var admins := Filter(details, IsAdmin);
    var totalAdmins, adminsWithMfa := |admins|, Count(admins, Registered);
    MfaCoverage(
      Round1(if totalAdmins > 0 then Percent(adminsWithMfa, totalAdmins) else 100.0),
      Round1(if totalUsers > 0 then Percent(usersWithMfa, totalUsers) else 0.0),
      totalAdmins, adminsWithMfa, totalUsers, usersWithMfa)
  }

  /** Counting registered admins among the admins is counting registered admins among everyone. */
  lemma {:induction false} AdminCount(details: seq<MfaRecord>)
    ensures Count(Filter(details, IsAdmin), Registered) == Count(details, RegisteredAdmin)
  {
    if details != [] {
      AdminCount(details[1..]);
      assert Filter(details, IsAdmin) == (if IsAdmin(details[0]) then [details[0]] else []) + Filter(details[1..], IsAdmin);
      FilterAppend(if IsAdmin(details[0]) then [details[0]] else [], Filter(details[1..], IsAdmin), Registered);
      assert Filter(details, RegisteredAdmin) == (if RegisteredAdmin(details[0]) then [details[0]] else []) + Filter(details[1..], RegisteredAdmin);
    }
  }

  /**
   * The counts nest (registered admins, admins, users; registered users, users), both
   * coverages lie in 0..100, admin coverage is 100 without admins and user coverage 0
   * without users, and each is 100 when everyone it covers is registered.
   */
  lemma MfaCoverageFacts(details: seq<MfaRecord>)
    ensures var c := MfaCoverageOf(details);
      c.adminsWithMfa <= c.totalAdmins <= c.totalUsers && c.usersWithMfa <= c.totalUsers &&
      c.adminsWithMfa <= c.usersWithMfa &&
      0.0 <= c.adminCoveragePercent <= 100.0 && 0.0 <= c.userCoveragePercent <= 100.0 &&
      (c.totalAdmins == 0 ==> c.adminCoveragePercent == 100.0) &&
      (c.totalUsers == 0 ==> c.userCoveragePercent == 0.0) &&
      (c.usersWithMfa == c.totalUsers ==> c.adminsWithMfa == c.totalAdmins) &&
      (c.adminsWithMfa == c.totalAdmins ==> c.adminCoveragePercent == 100.0) &&
      (c.usersWithMfa == c.totalUsers && c.totalUsers > 0 ==> c.userCoveragePercent == 100.0)
  {
    var admins := Filter(details, IsAdmin);
    var totalAdmins, adminsWithMfa := |admins|, Count(admins, Registered);
    var usersWithMfa := Count(details, Registered);
    AdminCount(details);
    CountMono(details, RegisteredAdmin, Registered);
    CountComplement(details, Registered, Unregistered);
    CountComplement(admins, Registered, Unregistered);
    if usersWithMfa == |details| {
      // every user registered leaves no unregistered admin
      CountZeroNone(details, Unregistered);
      forall u | u in admins ensures !Unregistered(u) {
        FilterMembers(details, IsAdmin, u);
      }
      CountNone(admins, Unregistered);
    }
    Round1Tenths(0);
    Round1Tenths(1000);
    if totalAdmins > 0 {
      PercentBounds(adminsWithMfa, totalAdmins);
      Round1Percent(Percent(adminsWithMfa, totalAdmins));
      if adminsWithMfa == totalAdmins { PercentWhole(totalAdmins); }
    }
    if |details| > 0 {
      PercentBounds(usersWithMfa, |details|);
      Round1Percent(Percent(usersWithMfa, |details|));
      if usersWithMfa == |details| { PercentWhole(|details|); }
    }
  }

  /** A count of zero means no element passes. */
  lemma CountZeroNone(s: seq<MfaRecord>, p: MfaRecord -> bool)
    requires Count(s, p) == 0
    ensures forall x :: x in s ==> !p(x)
  {
    forall x | x in s ensures !p(x) {
      FilterMembers(s, p, x);
      assert |Filter(s, p)| == 0;
    }
  }

  /** A row of `get_users_without_mfa`. */
  datatype UserWithoutMfa = UserWithoutMfa(userId: Option<string>, displayName: Option<string>, email: Option<string>, isAdmin: bool)

  function WithoutMfaRow(u: MfaRecord): UserWithoutMfa {
    UserWithoutMfa(u.userId, u.displayName, u.email, u.isAdmin)
  }

  /** `get_users_without_mfa`: one row per unregistered user, in listing order. */
  function UsersWithoutMfa(details: seq<MfaRecord>): seq<UserWithoutMfa> {
    MapSeq(Filter(details, Unregistered), WithoutMfaRow)
  }

  /** There are as many rows as users the coverage counts as unregistered, and a record of an unregistered user has its row. */
  lemma UsersWithoutMfaFacts(details: seq<MfaRecord>)
    ensures |UsersWithoutMfa(details)| == MfaCoverageOf(details).totalUsers - MfaCoverageOf(details).usersWithMfa
    ensures forall u :: u in details && !u.isMfaRegistered ==> WithoutMfaRow(u) in UsersWithoutMfa(details)
    ensures forall u :: u in details && Registered(u) ==> (WithoutMfaRow(u) in UsersWithoutMfa(details) <==>
      exists v :: v in details && Unregistered(v) && WithoutMfaRow(v) == WithoutMfaRow(u))
  {
    CountComplement(details, Registered, Unregistered);
    forall u | u in details
      ensures WithoutMfaRow(u) in UsersWithoutMfa(details) <==> exists v :: v in details && Unregistered(v) && WithoutMfaRow(v) == WithoutMfaRow(u)
    {
      FilterMapMembers(details, Unregistered, WithoutMfaRow, WithoutMfaRow(u));
    }
  }

  // ------------------------------------------------------------------ privileged accounts

  /** A directory role assignment. */
  datatype RoleAssignment = RoleAssignment(principalId: Option<string>, roleDefinitionId: Option<string>)

  const GlobalAdminRoleId: string := "62e90394-69f5-4237-9190-012177145e10"

  /** `PRIVILEGED_ROLES`: the ten built-in administrator roles by id. */
  const PrivilegedRoles: map<string, string> := map[
    GlobalAdminRoleId := "Global Administrator",
    "e8611ab8-c189-46e8-94e1-60213ab1f814" := "Privileged Role Administrator",
    "194ae4cb-b126-40b2-bd5b-6091b380977d" := "Security Administrator",
    "f28a1f50-f6e7-4571-818b-6a12f2af6b6c" := "SharePoint Administrator",
    "29232cdf-9323-42fd-ade2-1d097af3e4de" := "Exchange Administrator",
    "fe930be7-5e62-47db-91af-98c3a49a38b1" := "User Administrator",
    "9b895d92-2cd3-44c7-9d02-a6ac2d5ea5c3" := "Application Administrator",
    "158c047a-c907-4556-b7ef-446551a6b5f7" := "Cloud Application Administrator",
    "b0f54661-2d74-4c50-afa3-1ec803f12efe" := "Billing Administrator",
    "729827e3-9c14-49f7-bb1b-9608f156bbb8" := "Helpdesk Administrator"]

  function IsGlobalAdmin(a: RoleAssignment): bool {
    a.roleDefinitionId == Some(GlobalAdminRoleId)
  }

  function IsPrivileged(a: RoleAssignment): bool {
    a.roleDefinitionId.Some? && a.roleDefinitionId.value in PrivilegedRoles
  }

  /** `set(a.get("principal_id") for a in privileged_assignments)`; a missing principal counts once as `None`. */
  function PrivilegedPrincipals(assignments: seq<RoleAssignment>): set<Option<string>> {
    set a | a in assignments && IsPrivileged(a) :: a.principalId
  }

  datatype PrivilegedAccounts = PrivilegedAccounts(globalAdminCount: nat, privilegedRoleCount: nat, pimEligibleCount: nat, pimActiveCount: nat)

  /** `collect_privileged_accounts` (without its cache). */
  function PrivilegedAccountsOf(assignments: seq<RoleAssignment>): PrivilegedAccounts {
    var principals := PrivilegedPrincipals(assignments);
    PrivilegedAccounts(Count(assignments, IsGlobalAdmin), |principals|, 0, |principals|)
  }

  /** The principals of a list of assignments are at most as many as the assignments. */
  lemma {:induction false} PrincipalsBound(assignments: seq<RoleAssignment>)
    ensures |PrivilegedPrincipals(assignments)| <= Count(assignments, IsPrivileged)
  {
    hide IsPrivileged;
    if assignments != [] {
      var init, a := assignments[..|assignments| - 1], assignments[|assignments| - 1];
      assert assignments == init + [a];
      PrincipalsBound(init);
      PrincipalsSnoc(init, a);
      CountSnoc(init, a, IsPrivileged);
    }
  }

  lemma PrincipalsSnoc(init: seq<RoleAssignment>, a: RoleAssignment)
    ensures PrivilegedPrincipals(init + [a]) == PrivilegedPrincipals(init) + (if IsPrivileged(a) then {a.principalId} else {})
  {
  }

  /**
   * Global administrators are privileged, so any global-admin assignment makes the
   * privileged count positive; no principal is counted twice, so the privileged count is
   * at most the number of privileged assignments; and the active-PIM count equals it.
   */
  lemma PrivilegedAccountsFacts(assignments: seq<RoleAssignment>)
    ensures var p := PrivilegedAccountsOf(assignments);
      p.globalAdminCount <= Count(assignments, IsPrivileged) && p.privilegedRoleCount <= Count(assignments, IsPrivileged) &&
      (p.globalAdminCount > 0 ==> p.privilegedRoleCount > 0) &&
      p.pimActiveCount == p.privilegedRoleCount && p.pimEligibleCount == 0
  {
    PrincipalsBound(assignments);
    assert forall a :: IsGlobalAdmin(a) ==> IsPrivileged(a);
    CountMono(assignments, IsGlobalAdmin, IsPrivileged);
    if Count(assignments, IsGlobalAdmin) > 0 {
      var a := Filter(assignments, IsGlobalAdmin)[0];
      FilterMembers(assignments, IsGlobalAdmin, a);
      assert a.principalId in PrivilegedPrincipals(assignments);
    }
  }

  // ------------------------------------------------------------------ privileged users detail

  datatype DirectoryRole = DirectoryRole(id: Option<string>, displayName: Option<string>)
  datatype DirectoryUser = DirectoryUser(id: Option<string>, displayName: Option<string>, email: Option<string>)

  /** `{r["id"]: r["display_name"] for r in roles}`: a later role with the same id wins. */
  function RoleLookup(roles: seq<DirectoryRole>): map<Option<string>, Option<string>> {
    if roles == [] then map[] else RoleLookup(roles[..|roles| - 1])[roles[|roles| - 1].id := roles[|roles| - 1].displayName]
  }

  /** `{u["id"]: u for u in users}`. */
  function UserLookup(users: seq<DirectoryUser>): map<Option<string>, DirectoryUser> {
    if users == [] then map[] else UserLookup(users[..|users| - 1])[users[|users| - 1].id := users[|users| - 1]]
  }

  /** `{m["user_id"]: m.get("is_mfa_registered", False) for m in mfa_details}`. */
  function MfaLookup(details: seq<MfaRecord>): map<Option<string>, bool> {
    if details == [] then map[] else MfaLookup(details[..|details| - 1])[details[|details| - 1].userId := details[|details| - 1].isMfaRegistered]
  }

  /** The keys of the role lookup are the role ids that occur. */
  lemma {:induction false} RoleLookupKeys(roles: seq<DirectoryRole>)
    ensures RoleLookup(roles).Keys == set r | r in roles :: r.id
  {
    if roles != [] {
      RoleLookupKeys(roles[..|roles| - 1]);
      assert roles == roles[..|roles| - 1] + [roles[|roles| - 1]];
    }
  }

  /** The keys of the user lookup are the user ids that occur. */
  lemma {:induction false} UserLookupKeys(users: seq<DirectoryUser>)
    ensures UserLookup(users).Keys == set u | u in users :: u.id
  {
    if users != [] {
      UserLookupKeys(users[..|users| - 1]);
      assert users == users[..|users| - 1] + [users[|users| - 1]];
    }
  }

  /** Every entry of the MFA lookup comes from a registration record of that user with that flag. */
  lemma {:induction false} MfaLookupSound(details: seq<MfaRecord>)
    ensures MfaLookup(details).Keys == set m | m in details :: m.userId
    ensures forall u :: u in MfaLookup(details) ==> exists m :: m in details && m.userId == u && m.isMfaRegistered == MfaLookup(details)[u]
  {
    if details != [] {
      var init, m := details[..|details| - 1], details[|details| - 1];
      MfaLookupSound(init);
      assert details == init + [m];
      forall u | u in MfaLookup(details) ensures exists x :: x in details && x.userId == u && x.isMfaRegistered == MfaLookup(details)[u] {
        if u == m.userId {
          assert m in details;
        } else {
          var x :| x in init && x.userId == u && x.isMfaRegistered == MfaLookup(init)[u];
          assert x in details;
        }
      }
    }
  }

  /** `role_lookup.get(role_id, role_id)`. */
  function RoleNameOf(lookup: map<Option<string>, Option<string>>): RoleAssignment -> Option<string> {
    (a: RoleAssignment) => if a.roleDefinitionId in lookup then lookup[a.roleDefinitionId] else a.roleDefinitionId
  }

  function HeldBy(user: Option<string>): RoleAssignment -> bool {
    (a: RoleAssignment) => IsPrivileged(a) && a.principalId == user
  }

  /** The names of the privileged roles a principal holds, in assignment order. */
  function RolesHeld(assignments: seq<RoleAssignment>, user: Option<string>, lookup: map<Option<string>, Option<string>>): seq<Option<string>> {
    MapSeq(Filter(assignments, HeldBy(user)), RoleNameOf(lookup))
  }

  /** The `user_roles` dictionary: principals in order of first appearance, each with its role names. */
  type UserRoles = seq<(Option<string>, seq<Option<string>>)>

  function UserOf(e: (Option<string>, seq<Option<string>>)): Option<string> { e.0 }

  function UsersOf(t: UserRoles): seq<Option<string>> {
    MapSeq(t, UserOf)
  }

  /** The principals of the dictionary. */
  ghost function Keys(t: UserRoles): set<Option<string>> {
    set e | e in t :: e.0
  }

  ghost predicate KeysDistinct(t: UserRoles) {
    forall i, j :: 0 <= i < j < |t| ==> t[i].0 != t[j].0
  }

  /** `user_roles.setdefault(user_id, []).append(role_name)`. */
  function AddRole(t: UserRoles, user: Option<string>, role: Option<string>): UserRoles {
    if t == [] then [(user, [role])]
    else if t[0].0 == user then [(user, t[0].1 + [role])] + t[1..]
    else [t[0]] + AddRole(t[1..], user, role)
  }

  /** The spec of the grouping loop: each privileged assignment adds its role name under its principal. */
  function UserRolesOf(assignments: seq<RoleAssignment>, lookup: map<Option<string>, Option<string>>): UserRoles {
    if assignments == [] then []
    else
      var init, a := assignments[..|assignments| - 1], assignments[|assignments| - 1];
      if IsPrivileged(a) then AddRole(UserRolesOf(init, lookup), a.principalId, RoleNameOf(lookup)(a))
      else UserRolesOf(init, lookup)
  }

  /** A principal not yet in the dictionary gets a new last entry. */
  lemma {:induction false} AddRoleNew(t: UserRoles, user: Option<string>, role: Option<string>)
    requires user !in Keys(t)
    ensures AddRole(t, user, role) == t + [(user, [role])]
  {
    if t != [] {
      assert t[0] in t;
      assert Keys(t[1..]) <= Keys(t) by {
        forall e | e in t[1..] ensures e in t { }
      }
      AddRoleNew(t[1..], user, role);
      assert t == [t[0]] + t[1..];
    }
  }

  /** With distinct keys, adding under a present principal extends its entry alone. */
  lemma {:induction false} AddRoleExisting(t: UserRoles, user: Option<string>, role: Option<string>)
    requires KeysDistinct(t) && user in Keys(t)
    ensures |AddRole(t, user, role)| == |t|
    ensures forall i :: 0 <= i < |t| ==> AddRole(t, user, role)[i] == if t[i].0 == user then (user, t[i].1 + [role]) else t[i]
    decreases |t|
  {
    if t[0].0 == user {
      AddRoleAtHead(t, user, role);
    } else {
      var rest := t[1..];
      var e :| e in t && e.0 == user;
      assert t == [t[0]] + rest;
      assert e in rest;
      assert KeysDistinct(rest) by {
        forall i, j | 0 <= i < j < |rest| ensures rest[i].0 != rest[j].0 {
          assert rest[i] == t[i + 1] && rest[j] == t[j + 1];
        }
      }
      AddRoleExisting(rest, user, role);
      AddRoleBehind(t, user, role);
    }
  }

  /** Adding under the first principal extends the first entry alone. */
  lemma AddRoleAtHead(t: UserRoles, user: Option<string>, role: Option<string>)
    requires KeysDistinct(t) && t != [] && t[0].0 == user
    ensures |AddRole(t, user, role)| == |t|
    ensures forall i :: 0 <= i < |t| ==> AddRole(t, user, role)[i] == if t[i].0 == user then (user, t[i].1 + [role]) else t[i]
  {
    var r := AddRole(t, user, role);
    assert r == [(user, t[0].1 + [role])] + t[1..];
    hide AddRole;
    forall i | 0 <= i < |t| ensures r[i] == if t[i].0 == user then (user, t[i].1 + [role]) else t[i] {
      if i > 0 {
        assert r[i] == t[1..][i - 1] == t[i];
        assert t[0].0 != t[i].0;
      }
    }
  }

  /** Adding under a later principal keeps the first entry and adds in the rest. */
  lemma AddRoleBehind(t: UserRoles, user: Option<string>, role: Option<string>)
    requires t != [] && t[0].0 != user
    requires |AddRole(t[1..], user, role)| == |t| - 1
    requires forall i :: 0 <= i < |t| - 1 ==>
      AddRole(t[1..], user, role)[i] == if t[1..][i].0 == user then (user, t[1..][i].1 + [role]) else t[1..][i]
    ensures |AddRole(t, user, role)| == |t|
    ensures forall i :: 0 <= i < |t| ==> AddRole(t, user, role)[i] == if t[i].0 == user then (user, t[i].1 + [role]) else t[i]
  {
    var rest := t[1..];
    var r := AddRole(t, user, role);
    assert r == [t[0]] + AddRole(rest, user, role);
    hide AddRole;
    forall i | 0 <= i < |t| ensures r[i] == if t[i].0 == user then (user, t[i].1 + [role]) else t[i] {
      if i > 0 {
        assert r[i] == AddRole(rest, user, role)[i - 1] && t[i] == rest[i - 1];
      }
    }
  }

  /** The invariant of the grouping: distinct principals, exactly the privileged ones, each with its role names. */
  ghost predicate Grouped(t: UserRoles, assignments: seq<RoleAssignment>, lookup: map<Option<string>, Option<string>>) {
    KeysDistinct(t) &&
    Keys(t) == PrivilegedPrincipals(assignments) &&
    (forall i :: 0 <= i < |t| ==> t[i].1 == RolesHeld(assignments, t[i].0, lookup))
  }

  /** One more assignment keeps the grouping invariant. */
  lemma GroupedStep(t: UserRoles, init: seq<RoleAssignment>, a: RoleAssignment, lookup: map<Option<string>, Option<string>>)
    requires Grouped(t, init, lookup)
    ensures Grouped(if IsPrivileged(a) then AddRole(t, a.principalId, RoleNameOf(lookup)(a)) else t, init + [a], lookup)
  {
    hide IsPrivileged;
    PrincipalsSnoc(init, a);
    forall u ensures RolesHeld(init + [a], u, lookup) == RolesHeld(init, u, lookup) + (if HeldBy(u)(a) then [RoleNameOf(lookup)(a)] else []) {
      FilterMapSnoc(init, a, HeldBy(u), RoleNameOf(lookup));
    }
    if IsPrivileged(a) {
      if a.principalId in Keys(t) {
        GroupedExisting(t, init, a, lookup);
      } else {
        GroupedNew(t, init, a, lookup);
      }
    }
  }

  lemma GroupedExisting(t: UserRoles, init: seq<RoleAssignment>, a: RoleAssignment, lookup: map<Option<string>, Option<string>>)
    requires Grouped(t, init, lookup) && IsPrivileged(a) && a.principalId in Keys(t)
    requires forall u :: RolesHeld(init + [a], u, lookup) == RolesHeld(init, u, lookup) + (if HeldBy(u)(a) then [RoleNameOf(lookup)(a)] else [])
    requires PrivilegedPrincipals(init + [a]) == PrivilegedPrincipals(init) + {a.principalId}
    ensures Grouped(AddRole(t, a.principalId, RoleNameOf(lookup)(a)), init + [a], lookup)
  {
    hide IsPrivileged, RolesHeld, RoleNameOf, PrivilegedPrincipals;
    var user, role := a.principalId, RoleNameOf(lookup)(a);
    var r := AddRole(t, user, role);
    AddRoleExisting(t, user, role);
    forall i | 0 <= i < |r| ensures r[i].0 == t[i].0 && r[i].1 == RolesHeld(init + [a], r[i].0, lookup) {
      if t[i].0 == user {
        assert HeldBy(user)(a);
        assert r[i] == (user, t[i].1 + [role]);
      } else {
        assert !HeldBy(t[i].0)(a);
        assert r[i] == t[i];
      }
    }
    assert Keys(r) == Keys(t) by {
      forall e | e in r ensures e.0 in Keys(t) {
        var i :| 0 <= i < |r| && r[i] == e;
        assert t[i] in t;
      }
      forall e | e in t ensures e.0 in Keys(r) {
        var i :| 0 <= i < |t| && t[i] == e;
        assert r[i] in r;
      }
    }
    assert KeysDistinct(r);
  }

  lemma GroupedNew(t: UserRoles, init: seq<RoleAssignment>, a: RoleAssignment, lookup: map<Option<string>, Option<string>>)
    requires Grouped(t, init, lookup) && IsPrivileged(a) && a.principalId !in Keys(t)
    requires forall u :: RolesHeld(init + [a], u, lookup) == RolesHeld(init, u, lookup) + (if HeldBy(u)(a) then [RoleNameOf(lookup)(a)] else [])
    requires PrivilegedPrincipals(init + [a]) == PrivilegedPrincipals(init) + {a.principalId}
    ensures Grouped(AddRole(t, a.principalId, RoleNameOf(lookup)(a)), init + [a], lookup)
  {
    hide IsPrivileged, RoleNameOf;
    var user, role := a.principalId, RoleNameOf(lookup)(a);
    AddRoleNew(t, user, role);
    var r := t + [(user, [role])];
    assert RolesHeld(init, user, lookup) == [] by {
      NoneHeld(init, user);
    }
    hide RolesHeld, PrivilegedPrincipals;
    forall i | 0 <= i < |t| ensures t[i].0 != user && r[i] == t[i] {
      assert t[i] in t;
    }
    assert Keys(r) == Keys(t) + {user} by {
      forall e | e in r ensures e in t || e == (user, [role]) { }
      assert r[|t|] in r;
      forall e | e in t ensures e in r { }
    }
    forall i | 0 <= i < |r| ensures r[i].1 == RolesHeld(init + [a], r[i].0, lookup) {
      if i < |t| {
        assert !HeldBy(t[i].0)(a);
      } else {
        assert HeldBy(user)(a);
      }
    }
    assert KeysDistinct(r);
  }

  /** A principal without a privileged assignment holds no role. */
  lemma NoneHeld(assignments: seq<RoleAssignment>, user: Option<string>)
    requires user !in PrivilegedPrincipals(assignments)
    ensures Filter(assignments, HeldBy(user)) == []
  {
    forall x | x in assignments ensures !HeldBy(user)(x) {
      assert IsPrivileged(x) ==> x.principalId in PrivilegedPrincipals(assignments);
    }
    CountNone(assignments, HeldBy(user));
  }

  /** The grouping has one entry per distinct privileged principal, holding exactly its role names in assignment order. */
  lemma {:induction false} UserRolesShape(assignments: seq<RoleAssignment>, lookup: map<Option<string>, Option<string>>)
    ensures Grouped(UserRolesOf(assignments, lookup), assignments, lookup)
  {
    hide IsPrivileged;
    if assignments != [] {
      var init, a := assignments[..|assignments| - 1], assignments[|assignments| - 1];
      assert assignments == init + [a];
      UserRolesShape(init, lookup);
      GroupedStep(UserRolesOf(init, lookup), init, a, lookup);
    }
  }

  /** A row of `get_privileged_users_detail`. */
  datatype PrivilegedUser = PrivilegedUser(userId: Option<string>, displayName: Option<string>, email: Option<string>,
                                           roles: seq<Option<string>>, mfaEnabled: bool)

  /**
   * The row for one grouped principal. A principal missing from the user listing shows as
   * "Unknown" with an empty email; a listed user's own (possibly unset) fields are used.
   */
  function DetailRow(users: map<Option<string>, DirectoryUser>, mfa: map<Option<string>, bool>): ((Option<string>, seq<Option<string>>)) -> PrivilegedUser {
    (e: (Option<string>, seq<Option<string>>)) => PrivilegedUser(e.0,
      if e.0 in users then users[e.0].displayName else Some("Unknown"),
      if e.0 in users then users[e.0].email else Some(""),
      e.1,
      if e.0 in mfa then mfa[e.0] else false)
  }

  /** `get_privileged_users_detail`: group the privileged assignments by principal, then one row per principal. */
  method PrivilegedUsersDetail(assignments: seq<RoleAssignment>, roles: seq<DirectoryRole>, users: seq<DirectoryUser>, mfaDetails: seq<MfaRecord>)
    returns (result: seq<PrivilegedUser>)
    ensures result == MapSeq(UserRolesOf(assignments, RoleLookup(roles)), DetailRow(UserLookup(users), MfaLookup(mfaDetails)))
  {
    var roleLookup, userLookup, mfaLookup := RoleLookup(roles), UserLookup(users), MfaLookup(mfaDetails);
    var userRoles: UserRoles := [];
    for i := 0 to |assignments|
      invariant userRoles == UserRolesOf(assignments[..i], roleLookup)
    {
      var assignment := assignments[i];
      assert assignments[..i + 1][..i] == assignments[..i];
      var roleId := assignment.roleDefinitionId;
      if roleId.Some? && roleId.value in PrivilegedRoles {
        var userId := assignment.principalId;
        var roleName := if roleId in roleLookup then roleLookup[roleId] else roleId;
        userRoles := AddRole(userRoles, userId, roleName);
      }
    }
    assert assignments[..|assignments|] == assignments;
    result := [];
    for i := 0 to |userRoles|
      invariant |result| == i
      invariant forall k :: 0 <= k < i ==> result[k] == DetailRow(userLookup, mfaLookup)(userRoles[k])
    {
      var (userId, rolesList) := userRoles[i];
      var displayName := if userId in userLookup then userLookup[userId].displayName else Some("Unknown");
      var email := if userId in userLookup then userLookup[userId].email else Some("");
      var mfaEnabled := if userId in mfaLookup then mfaLookup[userId] else false;
      result := result + [PrivilegedUser(userId, displayName, email, rolesList, mfaEnabled)];
    }
  }

  /**
   * One row per distinct privileged principal, as many as the privileged count of
   * `collect_privileged_accounts`; each row lists that principal's role names in
   * assignment order, and MFA shows as enabled only for a principal whose registration
   * record is registered.
   */
  lemma PrivilegedUsersDetailFacts(assignments: seq<RoleAssignment>, roles: seq<DirectoryRole>, users: seq<DirectoryUser>, mfaDetails: seq<MfaRecord>)
    ensures var rows := MapSeq(UserRolesOf(assignments, RoleLookup(roles)), DetailRow(UserLookup(users), MfaLookup(mfaDetails)));
      |rows| == PrivilegedAccountsOf(assignments).privilegedRoleCount &&
      (forall i, j :: 0 <= i < j < |rows| ==> rows[i].userId != rows[j].userId) &&
      (forall u :: u in PrivilegedPrincipals(assignments) <==> exists i :: 0 <= i < |rows| && rows[i].userId == u) &&
      (forall i :: 0 <= i < |rows| ==> rows[i].roles == RolesHeld(assignments, rows[i].userId, RoleLookup(roles)) && rows[i].roles != []) &&
      (forall i :: 0 <= i < |rows| && rows[i].mfaEnabled ==> exists m :: m in mfaDetails && m.userId == rows[i].userId && m.isMfaRegistered)
  {
    hide IsPrivileged, RoleLookup, UserLookup, RolesHeld, RoleNameOf;
    var lookup := RoleLookup(roles);
    var t := UserRolesOf(assignments, lookup);
    var rows := MapSeq(t, DetailRow(UserLookup(users), MfaLookup(mfaDetails)));
    UserRolesShape(assignments, lookup);
    GroupedCount(t, assignments, lookup);
    forall i | 0 <= i < |rows| ensures rows[i].userId == t[i].0 && rows[i].roles == t[i].1 {
    }
    forall u | u in PrivilegedPrincipals(assignments) ensures exists i :: 0 <= i < |rows| && rows[i].userId == u {
      var e :| e in t && e.0 == u;
      var i :| 0 <= i < |t| && t[i] == e;
      assert rows[i].userId == u;
    }
    forall i | 0 <= i < |rows| ensures rows[i].roles != [] {
      GroupedNonEmpty(t, assignments, lookup, i);
    }
    MfaLookupSound(mfaDetails);
  }

  /** Distinct principals, exactly the privileged ones: as many entries as privileged principals. */
  lemma GroupedCount(t: UserRoles, assignments: seq<RoleAssignment>, lookup: map<Option<string>, Option<string>>)
    requires Grouped(t, assignments, lookup)
    ensures |t| == |PrivilegedPrincipals(assignments)|
  {
    hide IsPrivileged, RolesHeld;
    var users := UsersOf(t);
    forall i, j | 0 <= i < j < |users| ensures users[i] != users[j] {
      assert users[i] == t[i].0 && users[j] == t[j].0;
    }
    DistinctCard(users);
    assert (set x | x in users) == Keys(t) by {
      forall x | x in users ensures x in Keys(t) {
        var i :| 0 <= i < |users| && users[i] == x;
        assert t[i] in t;
      }
      forall e | e in t ensures e.0 in users {
        var i :| 0 <= i < |t| && t[i] == e;
        assert users[i] == e.0;
      }
    }
  }

  /** Every grouped principal holds at least one privileged role. */
  lemma GroupedNonEmpty(t: UserRoles, assignments: seq<RoleAssignment>, lookup: map<Option<string>, Option<string>>, i: nat)
    requires Grouped(t, assignments, lookup) && i < |t|
    ensures t[i].1 != []
  {
    hide IsPrivileged;
    var u := t[i].0;
    assert t[i] in t;
    assert u in PrivilegedPrincipals(assignments);
    var a :| a in assignments && IsPrivileged(a) && a.principalId == u;
    FilterMembers(assignments, HeldBy(u), a);
  }

  // ------------------------------------------------------------------ risky users

  /** A risky user; the directory client writes "none" for an unset level or state. */
  datatype RiskyUser = RiskyUser(riskLevel: string, riskState: string)

  function LevelIs(level: string): RiskyUser -> bool {
    (u: RiskyUser) => u.riskLevel == level
  }

  /** Still at risk: neither dismissed, remediated nor confirmed safe (`confirmedSafe`, exact spelling). */
  function NeedsInvestigation(u: RiskyUser): bool {
    u.riskState !in ["dismissed", "remediated", "confirmedSafe"]
  }

  datatype RiskyUsers = RiskyUsers(highRiskCount: nat, mediumRiskCount: nat, lowRiskCount: nat, requiresInvestigation: nat)

  /** `collect_risky_users` (without its cache). */
  function RiskyUsersOf(risky: seq<RiskyUser>): RiskyUsers {
    RiskyUsers(Count(risky, LevelIs("high")), Count(risky, LevelIs("medium")), Count(risky, LevelIs("low")), Count(risky, NeedsInvestigation))
  }

  /**
   * The levels are matched exactly, so a user has at most one of them and the three
   * counts add up to at most the number of users; no dismissed user needs investigation.
   */
  lemma RiskyUsersFacts(risky: seq<RiskyUser>)
    ensures var r := RiskyUsersOf(risky);
      r.highRiskCount + r.mediumRiskCount + r.lowRiskCount <= |risky| && r.requiresInvestigation <= |risky| &&
      ((forall u :: u in risky ==> u.riskState == "dismissed") ==> r.requiresInvestigation == 0) &&
      ((forall u :: u in risky ==> u.riskLevel == "none") ==> r.highRiskCount + r.mediumRiskCount + r.lowRiskCount == 0)
  {
    var hm := (u: RiskyUser) => LevelIs("high")(u) || LevelIs("medium")(u);
    var hml := (u: RiskyUser) => hm(u) || LevelIs("low")(u);
    CountDisjoint(risky, LevelIs("high"), LevelIs("medium"), hm);
    CountDisjoint(risky, hm, LevelIs("low"), hml);
    if forall u :: u in risky ==> u.riskState == "dismissed" {
      CountNone(risky, NeedsInvestigation);
    }
    if forall u :: u in risky ==> u.riskLevel == "none" {
      CountNone(risky, hml);
    }
  }
}
