/**
 * The dashboard's per-department analytics: directory users give each mailbox a
 * department, MFA registrations and managed devices are attributed to the department of
 * their user (or "Unknown"), and each department with users (devices) gets an MFA
 * (device) row, riskiest first.
 */
module DepartmentAnalytics {
  import opened Wrappers
  import opened Seqs
  import opened Numeric
  import opened Text
  import opened Sorting

  /** A directory user: the mailbox (mail, else the principal name) and the department, if any. */
  datatype DirectoryUser = DirectoryUser(email: string, department: Option<string>)

  /** An MFA registration record, keyed by the user's principal name. */
  datatype MfaDetail = MfaDetail(email: string, isMfaRegistered: bool)

  /** A managed device: its user may be unset (a shared or kiosk device). */
  datatype ManagedDevice = ManagedDevice(userPrincipalName: Option<string>, complianceState: string)

  /** The three listings the analytics read. */
  datatype Listings = Listings(users: seq<DirectoryUser>, mfaDetails: seq<MfaDetail>, devices: seq<ManagedDevice>)

  /** One department's counters. */
  datatype DeptStats = DeptStats(usersTotal: nat, usersMfaRegistered: nat, devicesTotal: nat,
                                 devicesCompliant: nat, devicesNonCompliant: nat)

  const NoStats := DeptStats(0, 0, 0, 0, 0)

  /**
   * The state the three passes build: mailbox to department, the counters per department,
   * and the departments in the order they were first met (the dictionary's iteration order).
   */
  datatype Tally = Tally(userDept: map<string, string>, stats: map<string, DeptStats>, order: seq<string>)

  /** An output row; for MFA rows `nonCompliant` is users minus registrations and can be negative. */
  datatype DeptRow = DeptRow(department: string, total: nat, compliant: nat, nonCompliant: int, percentage: real)

  datatype DeptAnalytics = DeptAnalytics(mfaByDepartment: seq<DeptRow>, devicesByDepartment: seq<DeptRow>, isLive: bool)

  const Unknown := "Unknown"

  // ------------------------------------------------------------------ attribution

  /** `u.get("department") or "Unknown"`: an unset or empty department is "Unknown". */
  function DeptOf(u: DirectoryUser): string {
    if u.department.Some? && u.department.value != "" then u.department.value else Unknown
  }

  /** `user_dept_map.get(upn, "Unknown")`. */
  function DeptFor(userDept: map<string, string>, upn: string): string {
    if upn in userDept then userDept[upn] else Unknown
  }

  function MfaDept(userDept: map<string, string>, m: MfaDetail): string {
    DeptFor(userDept, Lower(m.email))
  }

  /** The device's lower-cased user, an unset user read as "" (so it lands in "Unknown"). */
  function DeviceUpn(d: ManagedDevice): string {
    Lower(d.userPrincipalName.GetOr(""))
  }

  function DeviceDept(userDept: map<string, string>, d: ManagedDevice): string {
    DeptFor(userDept, DeviceUpn(d))
  }

  // ------------------------------------------------------------------ the three passes

  /** The counters begin at zero the first time a department is met. */
  function WithBucket(t: Tally, dept: string): (r: Tally)
    ensures dept in r.stats && r.userDept == t.userDept
    ensures dept in t.stats ==> r == t
    ensures dept !in t.stats ==> r.stats == t.stats[dept := NoStats] && r.order == t.order + [dept]
  {
    if dept in t.stats then t else t.(stats := t.stats[dept := NoStats], order := t.order + [dept])
  }

  function AddUser(t: Tally, u: DirectoryUser): Tally {
    var dept := DeptOf(u);
    var b := WithBucket(t.(userDept := t.userDept[Lower(u.email) := dept]), dept);
    b.(stats := b.stats[dept := b.stats[dept].(usersTotal := b.stats[dept].usersTotal + 1)])
  }

  function AddMfa(t: Tally, m: MfaDetail): Tally {
    var dept := MfaDept(t.userDept, m);
    var b := WithBucket(t, dept);
    if m.isMfaRegistered then
      b.(stats := b.stats[dept := b.stats[dept].(usersMfaRegistered := b.stats[dept].usersMfaRegistered + 1)])
    else b
  }

  function AddDevice(t: Tally, d: ManagedDevice): Tally {
    var dept := DeviceDept(t.userDept, d);
    var b := WithBucket(t, dept);
    var s := b.stats[dept];
    var s' := s.(devicesTotal := s.devicesTotal + 1,
                 devicesCompliant := if d.complianceState == "compliant" then s.devicesCompliant + 1 else s.devicesCompliant,
                 devicesNonCompliant := if d.complianceState == "noncompliant" then s.devicesNonCompliant + 1 else s.devicesNonCompliant);
    b.(stats := b.stats[dept := s'])
  }

  const EmptyTally := Tally(map[], map[], [])

  function UsersFold(users: seq<DirectoryUser>): Tally {
    if users == [] then EmptyTally else AddUser(UsersFold(users[..|users| - 1]), users[|users| - 1])
  }

  function MfaFold(t: Tally, mfa: seq<MfaDetail>): Tally {
    if mfa == [] then t else AddMfa(MfaFold(t, mfa[..|mfa| - 1]), mfa[|mfa| - 1])
  }

  function DevicesFold(t: Tally, devices: seq<ManagedDevice>): Tally {
    if devices == [] then t else AddDevice(DevicesFold(t, devices[..|devices| - 1]), devices[|devices| - 1])
  }

  /** The device pass over one more device. */
  lemma DevicesFoldStep(t0: Tally, devices: seq<ManagedDevice>, i: nat)
    requires i < |devices|
    ensures DevicesFold(t0, devices[..i + 1]) == AddDevice(DevicesFold(t0, devices[..i]), devices[i])
  {
    assert devices[..i + 1][..i] == devices[..i];
  }

  /** The state after the users, MFA and device passes. */
  function TallyOf(l: Listings): Tally {
    DevicesFold(MfaFold(UsersFold(l.users), l.mfaDetails), l.devices)
  }

  // ------------------------------------------------------------------ output

  function HasUsers(stats: map<string, DeptStats>): string -> bool {
    (d: string) => d in stats && stats[d].usersTotal > 0
  }

  function HasDevices(stats: map<string, DeptStats>): string -> bool {
    (d: string) => d in stats && stats[d].devicesTotal > 0
  }

  function MfaRowAt(stats: map<string, DeptStats>, d: string): DeptRow {
    if d in stats && stats[d].usersTotal > 0 then
      var s := stats[d];
      DeptRow(d, s.usersTotal, s.usersMfaRegistered, s.usersTotal - s.usersMfaRegistered,
        Round1(Percent(s.usersMfaRegistered, s.usersTotal)))
    else DeptRow(d, 0, 0, 0, 0.0)
  }

  function DeviceRowAt(stats: map<string, DeptStats>, d: string): DeptRow {
    if d in stats && stats[d].devicesTotal > 0 then
      var s := stats[d];
      DeptRow(d, s.devicesTotal, s.devicesCompliant, s.devicesNonCompliant,
        Round1(Percent(s.devicesCompliant, s.devicesTotal)))
    else DeptRow(d, 0, 0, 0, 0.0)
  }

  function MfaRow(stats: map<string, DeptStats>): string -> DeptRow {
    (d: string) => MfaRowAt(stats, d)
  }

  function DeviceRow(stats: map<string, DeptStats>): string -> DeptRow {
    (d: string) => DeviceRowAt(stats, d)
  }

  function RowPercentage(r: DeptRow): real { r.percentage }

  /** `sort(key=lambda x: x["percentage"])`: ascending, stable. */
  function ByPercentage(): (DeptRow, DeptRow) -> bool { ByKey(RowPercentage) }

  function MfaRows(t: Tally): seq<DeptRow> {
    SortBy(MapSeq(Filter(t.order, HasUsers(t.stats)), MfaRow(t.stats)), ByPercentage())
  }

  function DeviceRows(t: Tally): seq<DeptRow> {
    SortBy(MapSeq(Filter(t.order, HasDevices(t.stats)), DeviceRow(t.stats)), ByPercentage())
  }

  /**
   * `get_department_analytics` with a device's unset user read as "". `None` stands for
   * a missing directory client or a listing that failed; both give the empty, not-live answer.
   */
  function AnalyticsOf(fetched: Option<Listings>): DeptAnalytics {
    if fetched.None? then DeptAnalytics([], [], false)
    else
      var t := TallyOf(fetched.value);
      DeptAnalytics(MfaRows(t), DeviceRows(t), true)
  }

  predicate HasUserlessDevice(devices: seq<ManagedDevice>) {
    exists i :: 0 <= i < |devices| && devices[i].userPrincipalName.None?
  }

  /**
   * The analytics as written: `d.get("user_principal_name", "")` returns the unset value
   * itself, whose `.lower()` raises, and the handler turns the whole answer into the
   * empty, not-live one.
   */
  function AnalyticsAsWritten(fetched: Option<Listings>): DeptAnalytics {
    if fetched.Some? && HasUserlessDevice(fetched.value.devices) then DeptAnalytics([], [], false)
    else AnalyticsOf(fetched)
  }

  // ------------------------------------------------------------------ the method

  /** `get_department_analytics`, pass by pass (with a device's unset user read as ""). */
  method GetDepartmentAnalytics(fetched: Option<Listings>) returns (r: DeptAnalytics)
    ensures r == AnalyticsOf(fetched)
  {
    if fetched.None? {
      return DeptAnalytics([], [], false);
    }
    var userDept, stats, order := CountUsers(fetched.value.users);
    userDept, stats, order := CountMfa(userDept, stats, order, fetched.value.mfaDetails);
    userDept, stats, order := CountDevices(userDept, stats, order, fetched.value.devices);
    TallyWellFormed(fetched.value);
    var mfaRows, deviceRows := FormatRows(stats, order);
    r := DeptAnalytics(SortBy(mfaRows, ByPercentage()), SortBy(deviceRows, ByPercentage()), true);
  }

  /** The users pass: map each mailbox to its department and count the department's users. */
  method CountUsers(users: seq<DirectoryUser>) returns (userDept: map<string, string>, stats: map<string, DeptStats>, order: seq<string>)
    ensures Tally(userDept, stats, order) == UsersFold(users)
  {
    userDept, stats, order := map[], map[], [];
    for i := 0 to |users|
      invariant Tally(userDept, stats, order) == UsersFold(users[..i])
    {
      assert users[..i + 1][..i] == users[..i];
      var u := users[i];
      var upn := Lower(u.email);
      var dept := if u.department.Some? && u.department.value != "" then u.department.value else "Unknown";
      userDept := userDept[upn := dept];
      if dept !in stats {
        stats := stats[dept := DeptStats(0, 0, 0, 0, 0)];
        order := order + [dept];
      }
      stats := stats[dept := stats[dept].(usersTotal := stats[dept].usersTotal + 1)];
    }
    assert users[..|users|] == users;
  }

  /** The MFA pass: attribute each record to its user's department and count the registered ones. */
  method CountMfa(userDept: map<string, string>, stats0: map<string, DeptStats>, order0: seq<string>, mfaDetails: seq<MfaDetail>)
    returns (userDept': map<string, string>, stats: map<string, DeptStats>, order: seq<string>)
    ensures Tally(userDept', stats, order) == MfaFold(Tally(userDept, stats0, order0), mfaDetails)
  {
    userDept', stats, order := userDept, stats0, order0;
    for i := 0 to |mfaDetails|
      invariant Tally(userDept', stats, order) == MfaFold(Tally(userDept, stats0, order0), mfaDetails[..i])
    {
      assert mfaDetails[..i + 1][..i] == mfaDetails[..i];
      var m := mfaDetails[i];
      var upn := Lower(m.email);
      var dept := if upn in userDept' then userDept'[upn] else "Unknown";
      if dept !in stats {
        stats := stats[dept := DeptStats(0, 0, 0, 0, 0)];
        order := order + [dept];
      }
      if m.isMfaRegistered {
        stats := stats[dept := stats[dept].(usersMfaRegistered := stats[dept].usersMfaRegistered + 1)];
      }
    }
    assert mfaDetails[..|mfaDetails|] == mfaDetails;
  }

  /** The device pass: attribute each device to its user's department and count it by exact state. */
  method CountDevices(userDept: map<string, string>, stats0: map<string, DeptStats>, order0: seq<string>, devices: seq<ManagedDevice>)
    returns (userDept': map<string, string>, stats: map<string, DeptStats>, order: seq<string>)
    ensures Tally(userDept', stats, order) == DevicesFold(Tally(userDept, stats0, order0), devices)
  {
    userDept', stats, order := userDept, stats0, order0;
    for i := 0 to |devices|
      invariant Tally(userDept', stats, order) == DevicesFold(Tally(userDept, stats0, order0), devices[..i])
    {
      DevicesFoldStep(Tally(userDept, stats0, order0), devices, i);
      stats, order := CountDevice(userDept', stats, order, devices[i]);
    }
    assert devices[..|devices|] == devices;
  }

  /** The body of the device pass: count one device in its user's department, opening the bucket first. */
  method CountDevice(userDept: map<string, string>, stats0: map<string, DeptStats>, order0: seq<string>, d: ManagedDevice)
    returns (stats: map<string, DeptStats>, order: seq<string>)
    ensures Tally(userDept, stats, order) == AddDevice(Tally(userDept, stats0, order0), d)
  {
    stats, order := stats0, order0;
    var upn := Lower(d.userPrincipalName.GetOr(""));
    var dept := if upn in userDept then userDept[upn] else Unknown;
    assert dept == DeviceDept(userDept, d);
    if dept !in stats {
      stats := stats[dept := DeptStats(0, 0, 0, 0, 0)];
      order := order + [dept];
    }
    var s := stats[dept];
    var compliant := if d.complianceState == "compliant" then s.devicesCompliant + 1 else s.devicesCompliant;
    var nonCompliant := if d.complianceState == "noncompliant" then s.devicesNonCompliant + 1 else s.devicesNonCompliant;
    stats := stats[dept := s.(devicesTotal := s.devicesTotal + 1, devicesCompliant := compliant,
                              devicesNonCompliant := nonCompliant)];
  }

  /**
   * The output pass over the departments in the order they were met: the skip of an
   * empty "Unknown" bucket is kept as written, and provably drops no row.
   */
  method FormatRows(stats: map<string, DeptStats>, order: seq<string>) returns (mfaRows: seq<DeptRow>, deviceRows: seq<DeptRow>)
    requires forall d :: d in order ==> d in stats
    ensures mfaRows == MapSeq(Filter(order, HasUsers(stats)), MfaRow(stats))
    ensures deviceRows == MapSeq(Filter(order, HasDevices(stats)), DeviceRow(stats))
  {
    assert order[..|order|] == order;
    mfaRows, deviceRows := [], [];
    for i := 0 to |order|
      invariant mfaRows == MfaPrefix(stats, order, i)
      invariant deviceRows == DevicePrefix(stats, order, i)
    {
      var dept := order[i];
      var s := stats[dept];
      PrefixStep(stats, order, i);
      hide *;
      if dept == Unknown && s.usersTotal == 0 && s.devicesTotal == 0 {
        continue;
      }
      if s.usersTotal > 0 {
        mfaRows := mfaRows + [DeptRow(dept, s.usersTotal, s.usersMfaRegistered, s.usersTotal - s.usersMfaRegistered,
                                      Round1(Percent(s.usersMfaRegistered, s.usersTotal)))];
      }
      if s.devicesTotal > 0 {
        deviceRows := deviceRows + [DeptRow(dept, s.devicesTotal, s.devicesCompliant, s.devicesNonCompliant,
                                            Round1(Percent(s.devicesCompliant, s.devicesTotal)))];
      }
    }
  }

  ghost function MfaPrefix(stats: map<string, DeptStats>, order: seq<string>, i: nat): seq<DeptRow>
    requires i <= |order|
  {
    MapSeq(Filter(order[..i], HasUsers(stats)), MfaRow(stats))
  }

  ghost function DevicePrefix(stats: map<string, DeptStats>, order: seq<string>, i: nat): seq<DeptRow>
    requires i <= |order|
  {
    MapSeq(Filter(order[..i], HasDevices(stats)), DeviceRow(stats))
  }

  /** One more department adds its MFA row when it has users and its device row when it has devices. */
  lemma PrefixStep(stats: map<string, DeptStats>, order: seq<string>, i: nat)
    requires i < |order| && order[i] in stats
    ensures var d, s := order[i], stats[order[i]];
      MfaPrefix(stats, order, i + 1) == MfaPrefix(stats, order, i) +
        (if s.usersTotal > 0 then [DeptRow(d, s.usersTotal, s.usersMfaRegistered, s.usersTotal - s.usersMfaRegistered,
                                           Round1(Percent(s.usersMfaRegistered, s.usersTotal)))] else []) &&
      DevicePrefix(stats, order, i + 1) == DevicePrefix(stats, order, i) +
        (if s.devicesTotal > 0 then [DeptRow(d, s.devicesTotal, s.devicesCompliant, s.devicesNonCompliant,
                                             Round1(Percent(s.devicesCompliant, s.devicesTotal)))] else [])
  {
    FilterMapStep(order, HasUsers(stats), MfaRow(stats), i);
    FilterMapStep(order, HasDevices(stats), DeviceRow(stats), i);
    RowsAt(stats, order[i]);
  }

  /** What the output pass sees of one counted department. */
  lemma RowsAt(stats: map<string, DeptStats>, dept: string)
    requires dept in stats
    ensures var s := stats[dept];
      (HasUsers(stats)(dept) <==> s.usersTotal > 0) && (HasDevices(stats)(dept) <==> s.devicesTotal > 0) &&
      (s.usersTotal > 0 ==> MfaRow(stats)(dept) == DeptRow(dept, s.usersTotal, s.usersMfaRegistered,
        s.usersTotal - s.usersMfaRegistered, Round1(Percent(s.usersMfaRegistered, s.usersTotal)))) &&
      (s.devicesTotal > 0 ==> DeviceRow(stats)(dept) == DeptRow(dept, s.devicesTotal, s.devicesCompliant,
        s.devicesNonCompliant, Round1(Percent(s.devicesCompliant, s.devicesTotal))))
  {
  }

  // ------------------------------------------------------------------ well-formedness

  /** Every department is listed once, and the listed departments are the counted ones. */
  ghost predicate Wf(t: Tally) {
    Distinct(t.order) && forall d :: d in t.order <==> d in t.stats
  }

  lemma WithBucketWf(t: Tally, dept: string)
    requires Wf(t)
    ensures Wf(WithBucket(t, dept))
  {
    if dept !in t.stats {
      DistinctSnoc(t.order, dept);
    }
  }

  lemma {:induction false} UsersFoldWf(users: seq<DirectoryUser>)
    ensures Wf(UsersFold(users))
  {
    if users != [] {
      var t := UsersFold(users[..|users| - 1]);
      UsersFoldWf(users[..|users| - 1]);
      WithBucketWf(t.(userDept := t.userDept[Lower(users[|users| - 1].email) := DeptOf(users[|users| - 1])]), DeptOf(users[|users| - 1]));
    }
  }

  lemma {:induction false} MfaFoldWf(t: Tally, mfa: seq<MfaDetail>)
    requires Wf(t)
    ensures Wf(MfaFold(t, mfa))
  {
    if mfa != [] {
      var t' := MfaFold(t, mfa[..|mfa| - 1]);
      MfaFoldWf(t, mfa[..|mfa| - 1]);
      WithBucketWf(t', MfaDept(t'.userDept, mfa[|mfa| - 1]));
    }
  }

  lemma {:induction false} DevicesFoldWf(t: Tally, devices: seq<ManagedDevice>)
    requires Wf(t)
    ensures Wf(DevicesFold(t, devices))
  {
    if devices != [] {
      var t' := DevicesFold(t, devices[..|devices| - 1]);
      DevicesFoldWf(t, devices[..|devices| - 1]);
      WithBucketWf(t', DeviceDept(t'.userDept, devices[|devices| - 1]));
    }
  }

  /** The final state lists each counted department exactly once. */
  lemma TallyWellFormed(l: Listings)
    ensures Wf(TallyOf(l))
  {
    UsersFoldWf(l.users);
    MfaFoldWf(UsersFold(l.users), l.mfaDetails);
    DevicesFoldWf(MfaFold(UsersFold(l.users), l.mfaDetails), l.devices);
  }

  // ------------------------------------------------------------------ what the passes count

  function InDept(d: string): DirectoryUser -> bool {
    (u: DirectoryUser) => DeptOf(u) == d
  }

  function MfaIn(userDept: map<string, string>, d: string): MfaDetail -> bool {
    (m: MfaDetail) => MfaDept(userDept, m) == d
  }

  function RegisteredIn(userDept: map<string, string>, d: string): MfaDetail -> bool {
    (m: MfaDetail) => m.isMfaRegistered && MfaDept(userDept, m) == d
  }

  function DeviceIn(userDept: map<string, string>, d: string): ManagedDevice -> bool {
    (x: ManagedDevice) => DeviceDept(userDept, x) == d
  }

  function StateIn(userDept: map<string, string>, d: string, state: string): ManagedDevice -> bool {
    (x: ManagedDevice) => DeviceDept(userDept, x) == d && x.complianceState == state
  }

  /** A department's counters before a pass: zero when the pass is the first to meet it. */
  function Before(t: Tally, d: string): DeptStats {
    if d in t.stats then t.stats[d] else NoStats
  }

  /** What the users pass has done to one department `d` once it has read `users`. */
  ghost predicate UsersCountedAt(users: seq<DirectoryUser>, t: Tally, d: string) {
    (d in t.stats <==> Count(users, InDept(d)) > 0) &&
    (d in t.stats ==> t.stats[d] == NoStats.(usersTotal := Count(users, InDept(d))))
  }

  lemma UsersStepAt(prefix: seq<DirectoryUser>, t1: Tally, u: DirectoryUser, d: string)
    requires UsersCountedAt(prefix, t1, d)
    ensures UsersCountedAt(prefix + [u], AddUser(t1, u), d)
  {
    CountSnoc(prefix, u, InDept(d));
    var dept := DeptOf(u);
    var b := WithBucket(t1.(userDept := t1.userDept[Lower(u.email) := dept]), dept);
    var t := AddUser(t1, u);
    if d == dept {
      assert b.stats[d] == Before(t1, d);
      assert InDept(d)(u);
    } else {
      assert !InDept(d)(u);
      assert (d in t.stats <==> d in t1.stats) && (d in t.stats ==> t.stats[d] == t1.stats[d]);
    }
  }

  /** After the users pass, a department is counted exactly when a user has it, and counts its users. */
  lemma {:induction false} UsersFoldCounts(users: seq<DirectoryUser>)
    ensures forall d :: UsersCountedAt(users, UsersFold(users), d)
  {
    if users != [] {
      var prefix, u := users[..|users| - 1], users[|users| - 1];
      assert users == prefix + [u];
      UsersFoldCounts(prefix);
      forall d ensures UsersCountedAt(users, UsersFold(users), d) {
        UsersStepAt(prefix, UsersFold(prefix), u, d);
      }
    } else {
      forall d ensures UsersCountedAt(users, UsersFold(users), d) {
        CountNone(users, InDept(d));
      }
    }
  }

  /** What the MFA pass has done to one department `d` once it has read `mfa`, starting from `t0`. */
  ghost predicate MfaCountedAt(t0: Tally, mfa: seq<MfaDetail>, t: Tally, d: string) {
    var m := t0.userDept;
    (d in t.stats <==> d in t0.stats || Count(mfa, MfaIn(m, d)) > 0) &&
    (d in t.stats ==> t.stats[d] == Before(t0, d).(usersMfaRegistered := Before(t0, d).usersMfaRegistered + Count(mfa, RegisteredIn(m, d))))
  }

  ghost predicate MfaCounted(t0: Tally, mfa: seq<MfaDetail>, t: Tally) {
    t.userDept == t0.userDept && forall d :: MfaCountedAt(t0, mfa, t, d)
  }

  lemma MfaStepAt(t0: Tally, prefix: seq<MfaDetail>, t1: Tally, x: MfaDetail, d: string)
    requires t1.userDept == t0.userDept && MfaCountedAt(t0, prefix, t1, d)
    ensures MfaCountedAt(t0, prefix + [x], AddMfa(t1, x), d)
  {
    var m := t0.userDept;
    CountSnoc(prefix, x, MfaIn(m, d));
    CountSnoc(prefix, x, RegisteredIn(m, d));
    CountMono(prefix, RegisteredIn(m, d), MfaIn(m, d));
    var dept := MfaDept(m, x);
    var b := WithBucket(t1, dept);
    var t := AddMfa(t1, x);
    if d == dept {
      assert b.stats[d] == Before(t1, d);
      assert MfaIn(m, d)(x) && (RegisteredIn(m, d)(x) <==> x.isMfaRegistered);
    } else {
      assert MfaIn(m, d)(x) == false && RegisteredIn(m, d)(x) == false;
      assert (d in t.stats <==> d in t1.stats) && (d in t.stats ==> t.stats[d] == t1.stats[d]);
    }
  }

  /** The MFA pass adds the departments it meets and counts each department's registered records. */
  lemma {:induction false} MfaFoldCounts(t0: Tally, mfa: seq<MfaDetail>)
    ensures MfaCounted(t0, mfa, MfaFold(t0, mfa))
  {
    if mfa != [] {
      var prefix, x := mfa[..|mfa| - 1], mfa[|mfa| - 1];
      assert mfa == prefix + [x];
      MfaFoldCounts(t0, prefix);
      var t1 := MfaFold(t0, prefix);
      forall d ensures MfaCountedAt(t0, mfa, MfaFold(t0, mfa), d) {
        MfaStepAt(t0, prefix, t1, x, d);
      }
    } else {
      forall d ensures MfaCountedAt(t0, mfa, t0, d) {
        CountNone(mfa, MfaIn(t0.userDept, d));
        CountNone(mfa, RegisteredIn(t0.userDept, d));
      }
    }
  }

  /** What the device pass has done to one department `d` once it has read `devices`, starting from `t0`. */
  ghost predicate DevicesCountedAt(t0: Tally, devices: seq<ManagedDevice>, t: Tally, d: string) {
    var m := t0.userDept;
    (d in t.stats <==> d in t0.stats || Count(devices, DeviceIn(m, d)) > 0) &&
    (d in t.stats ==> t.stats[d] == Before(t0, d).(
      devicesTotal := Before(t0, d).devicesTotal + Count(devices, DeviceIn(m, d)),
      devicesCompliant := Before(t0, d).devicesCompliant + Count(devices, StateIn(m, d, "compliant")),
      devicesNonCompliant := Before(t0, d).devicesNonCompliant + Count(devices, StateIn(m, d, "noncompliant"))))
  }

  ghost predicate DevicesCounted(t0: Tally, devices: seq<ManagedDevice>, t: Tally) {
    t.userDept == t0.userDept && forall d :: DevicesCountedAt(t0, devices, t, d)
  }

  /** One more device that lands in department `d`. */
  lemma DevicesStepHere(t0: Tally, prefix: seq<ManagedDevice>, t1: Tally, x: ManagedDevice, d: string)
    requires t1.userDept == t0.userDept && DevicesCountedAt(t0, prefix, t1, d)
    requires DeviceDept(t0.userDept, x) == d
    ensures DevicesCountedAt(t0, prefix + [x], AddDevice(t1, x), d)
  {
    var m := t0.userDept;
    CountSnoc(prefix, x, DeviceIn(m, d));
    CountSnoc(prefix, x, StateIn(m, d, "compliant"));
    CountSnoc(prefix, x, StateIn(m, d, "noncompliant"));
    CountMono(prefix, StateIn(m, d, "compliant"), DeviceIn(m, d));
    CountMono(prefix, StateIn(m, d, "noncompliant"), DeviceIn(m, d));
    assert WithBucket(t1, d).stats[d] == Before(t1, d);
    assert DeviceIn(m, d)(x);
    assert StateIn(m, d, "compliant")(x) <==> x.complianceState == "compliant";
    assert StateIn(m, d, "noncompliant")(x) <==> x.complianceState == "noncompliant";
  }

  /** One more device that lands in another department leaves `d` as it was. */
  lemma DevicesStepElsewhere(t0: Tally, prefix: seq<ManagedDevice>, t1: Tally, x: ManagedDevice, d: string)
    requires t1.userDept == t0.userDept && DevicesCountedAt(t0, prefix, t1, d)
    requires DeviceDept(t0.userDept, x) != d
    ensures DevicesCountedAt(t0, prefix + [x], AddDevice(t1, x), d)
  {
    var m := t0.userDept;
    CountSnoc(prefix, x, DeviceIn(m, d));
    CountSnoc(prefix, x, StateIn(m, d, "compliant"));
    CountSnoc(prefix, x, StateIn(m, d, "noncompliant"));
    assert !DeviceIn(m, d)(x) && !StateIn(m, d, "compliant")(x) && !StateIn(m, d, "noncompliant")(x);
    var t := AddDevice(t1, x);
    assert (d in t.stats <==> d in t1.stats) && (d in t.stats ==> t.stats[d] == t1.stats[d]);
  }

  /** The device pass adds the departments it meets and counts each department's devices by exact state. */
  lemma {:induction false} DevicesFoldCounts(t0: Tally, devices: seq<ManagedDevice>)
    ensures DevicesCounted(t0, devices, DevicesFold(t0, devices))
  {
    if devices != [] {
      var prefix, x := devices[..|devices| - 1], devices[|devices| - 1];
      assert devices == prefix + [x];
      DevicesFoldCounts(t0, prefix);
      var t1 := DevicesFold(t0, prefix);
      forall d ensures DevicesCountedAt(t0, devices, DevicesFold(t0, devices), d) {
        if DeviceDept(t0.userDept, x) == d {
          DevicesStepHere(t0, prefix, t1, x, d);
        } else {
          DevicesStepElsewhere(t0, prefix, t1, x, d);
        }
      }
    } else {
      forall d ensures DevicesCountedAt(t0, devices, t0, d) {
        var m := t0.userDept;
        CountNone(devices, DeviceIn(m, d));
        CountNone(devices, StateIn(m, d, "compliant"));
        CountNone(devices, StateIn(m, d, "noncompliant"));
      }
    }
  }

  // ------------------------------------------------------------------ the counters, in closed form

  /** The mailbox-to-department map the users pass leaves for the other two passes. */
  function DeptMap(users: seq<DirectoryUser>): map<string, string> {
    UsersFold(users).userDept
  }

  /** What department `d` counts: its users, and the registrations and devices attributed to it. */
  ghost function StatsOf(l: Listings, d: string): DeptStats {
    var m := DeptMap(l.users);
    DeptStats(Count(l.users, InDept(d)), Count(l.mfaDetails, RegisteredIn(m, d)), Count(l.devices, DeviceIn(m, d)),
      Count(l.devices, StateIn(m, d, "compliant")), Count(l.devices, StateIn(m, d, "noncompliant")))
  }

  /** A department is met when a user has it or an MFA record or a device is attributed to it. */
  ghost predicate Met(l: Listings, d: string) {
    var m := DeptMap(l.users);
    Count(l.users, InDept(d)) > 0 || Count(l.mfaDetails, MfaIn(m, d)) > 0 || Count(l.devices, DeviceIn(m, d)) > 0
  }

  lemma TallyCountsAt(l: Listings, t1: Tally, t2: Tally, t3: Tally, d: string)
    requires t1.userDept == DeptMap(l.users) && UsersCountedAt(l.users, t1, d)
    requires MfaCountedAt(t1, l.mfaDetails, t2, d) && t2.userDept == t1.userDept && DevicesCountedAt(t2, l.devices, t3, d)
    ensures (d in t3.stats <==> Met(l, d)) && (d in t3.stats ==> t3.stats[d] == StatsOf(l, d))
  {
    var m := t1.userDept;
    CountMono(l.mfaDetails, RegisteredIn(m, d), MfaIn(m, d));
    CountMono(l.devices, StateIn(m, d, "compliant"), DeviceIn(m, d));
    CountMono(l.devices, StateIn(m, d, "noncompliant"), DeviceIn(m, d));
  }

  /**
   * After the three passes exactly the met departments have counters, and each holds its
   * users, its registered MFA records, and its devices in total and by exact state.
   */
  lemma TallyCounts(l: Listings)
    ensures forall d :: (d in TallyOf(l).stats <==> Met(l, d)) && (d in TallyOf(l).stats ==> TallyOf(l).stats[d] == StatsOf(l, d))
  {
    var t1 := UsersFold(l.users);
    var t2 := MfaFold(t1, l.mfaDetails);
    var t3 := DevicesFold(t2, l.devices);
    assert t3 == TallyOf(l);
    UsersFoldCounts(l.users);
    MfaFoldCounts(t1, l.mfaDetails);
    DevicesFoldCounts(t2, l.devices);
    hide UsersFold, MfaFold, DevicesFold, TallyOf, StatsOf, Met;
    forall d ensures (d in t3.stats <==> Met(l, d)) && (d in t3.stats ==> t3.stats[d] == StatsOf(l, d)) {
      TallyCountsAt(l, t1, t2, t3, d);
    }
  }

  // ------------------------------------------------------------------ the mailbox map

  /** The last directory user with a given mailbox decides its department: a later user overrides an earlier one. */
  ghost predicate LastWithMailbox(users: seq<DirectoryUser>, i: nat) {
    i < |users| && forall j :: i < j < |users| ==> Lower(users[j].email) != Lower(users[i].email)
  }

  /** A user overrides its mailbox's entry. */
  lemma DeptMapSnoc(prefix: seq<DirectoryUser>, u: DirectoryUser)
    ensures DeptMap(prefix + [u]) == DeptMap(prefix)[Lower(u.email) := DeptOf(u)]
  {
    assert (prefix + [u])[..|prefix|] == prefix;
  }

  /** The map holds exactly the users' lower-cased mailboxes. */
  lemma {:induction false} DeptMapKeys(users: seq<DirectoryUser>)
    ensures forall k :: k in DeptMap(users) <==> exists u :: u in users && Lower(u.email) == k
  {
    if users != [] {
      var prefix, u := users[..|users| - 1], users[|users| - 1];
      assert users == prefix + [u];
      DeptMapKeys(prefix);
      DeptMapSnoc(prefix, u);
      hide DeptMap;
      forall k ensures k in DeptMap(users) <==> exists v :: v in users && Lower(v.email) == k {
        if k != Lower(u.email) {
          if v :| v in users && Lower(v.email) == k {
            assert v in prefix;
          }
        }
      }
    }
  }

  /** Each mailbox maps to the department of the last user with that mailbox. */
  lemma {:induction false} DeptMapLast(users: seq<DirectoryUser>)
    ensures forall i :: 0 <= i < |users| && LastWithMailbox(users, i) ==>
      Lower(users[i].email) in DeptMap(users) && DeptMap(users)[Lower(users[i].email)] == DeptOf(users[i])
  {
    DeptMapKeys(users);
    if users != [] {
      var prefix, u := users[..|users| - 1], users[|users| - 1];
      assert users == prefix + [u];
      DeptMapLast(prefix);
      DeptMapSnoc(prefix, u);
      hide DeptMap;
      forall i | 0 <= i < |users| && LastWithMailbox(users, i) ensures DeptMap(users)[Lower(users[i].email)] == DeptOf(users[i]) {
        if i < |prefix| {
          assert users[i] == prefix[i];
          assert LastWithMailbox(prefix, i);
        }
      }
    }
  }

  // ------------------------------------------------------------------ what the rows hold

  /** The departments of the directory users. */
  ghost function UserDepartments(users: seq<DirectoryUser>): set<string> {
    set u | u in users :: DeptOf(u)
  }

  /** The departments the devices are attributed to. */
  ghost function DeviceDepartments(l: Listings): set<string> {
    set x | x in l.devices :: DeviceDept(DeptMap(l.users), x)
  }

  /** An MFA row counts its department's users and registrations, and may exceed 100 percent. */
  ghost predicate MfaRowCounts(l: Listings, r: DeptRow) {
    var s := StatsOf(l, r.department);
    r.total == s.usersTotal > 0 && r.compliant == s.usersMfaRegistered && r.nonCompliant == r.total - r.compliant &&
    r.percentage == Round1(Percent(r.compliant, r.total))
  }

  /** A device row counts its department's devices and the exactly "compliant" and "noncompliant" ones. */
  ghost predicate DeviceRowCounts(l: Listings, r: DeptRow) {
    var s := StatsOf(l, r.department);
    r.total == s.devicesTotal > 0 && r.compliant == s.devicesCompliant && r.nonCompliant == s.devicesNonCompliant &&
    r.compliant + r.nonCompliant <= r.total && 0.0 <= r.percentage <= 100.0 &&
    r.percentage == Round1(Percent(r.compliant, r.total))
  }

  /** A device is at most one of "compliant" and "noncompliant". */
  lemma DeviceStatesBound(l: Listings, d: string)
    ensures StatsOf(l, d).devicesCompliant + StatsOf(l, d).devicesNonCompliant <= StatsOf(l, d).devicesTotal
  {
    var m := DeptMap(l.users);
    var either := (x: ManagedDevice) => StateIn(m, d, "compliant")(x) || StateIn(m, d, "noncompliant")(x);
    CountDisjoint(l.devices, StateIn(m, d, "compliant"), StateIn(m, d, "noncompliant"), either);
    CountMono(l.devices, either, DeviceIn(m, d));
  }

  /**
   * Rows named after their departments, one per passing department of a list without
   * repeats, name exactly the passing departments, once each.
   */
  lemma RowsDepartments(order: seq<string>, p: string -> bool, f: string -> DeptRow)
    requires Distinct(order) && forall d :: f(d).department == d
    ensures var u := MapSeq(Filter(order, p), f);
      (set r | r in u :: r.department) == Passing(order, p) && |u| == |Passing(order, p)|
  {
    var g := Filter(order, p);
    var u := MapSeq(g, f);
    DistinctFilterCard(order, p);
    forall d ensures d in (set r | r in u :: r.department) <==> d in Passing(order, p) {
      FilterMembers(order, p, d);
      if d in g {
        var j :| 0 <= j < |g| && g[j] == d;
        assert u[j].department == d;
      }
      if r :| r in u && r.department == d {
        var j :| 0 <= j < |u| && u[j] == r;
        FilterMembers(order, p, g[j]);
      }
    }
  }

  /** The departments with an MFA row are exactly the departments the users pass counted. */
  lemma MfaPassing(l: Listings)
    ensures var t := TallyOf(l);
      Passing(t.order, HasUsers(t.stats)) == UserDepartments(l.users)
  {
    var t := TallyOf(l);
    TallyCounts(l);
    TallyWellFormed(l);
    forall d ensures d in Passing(t.order, HasUsers(t.stats)) <==> d in UserDepartments(l.users) {
      CountPositive(l.users, InDept(d));
      if d in UserDepartments(l.users) {
        var u :| u in l.users && DeptOf(u) == d;
        assert InDept(d)(u);
      }
    }
  }

  /** The departments with a device row are exactly those the devices are attributed to. */
  lemma DevicePassing(l: Listings)
    ensures var t := TallyOf(l);
      Passing(t.order, HasDevices(t.stats)) == DeviceDepartments(l)
  {
    var t := TallyOf(l);
    var m := DeptMap(l.users);
    TallyCounts(l);
    TallyWellFormed(l);
    forall d ensures d in Passing(t.order, HasDevices(t.stats)) <==> d in DeviceDepartments(l) {
      CountPositive(l.devices, DeviceIn(m, d));
      if d in DeviceDepartments(l) {
        var x :| x in l.devices && DeviceDept(m, x) == d;
        assert DeviceIn(m, d)(x);
      }
    }
  }

  /** Before sorting: one MFA row per department of the users, each holding that department's counts. */
  lemma MfaUnsorted(l: Listings)
    ensures var t := TallyOf(l);
      var u := MapSeq(Filter(t.order, HasUsers(t.stats)), MfaRow(t.stats));
      (forall r :: r in u ==> MfaRowCounts(l, r)) &&
      (set r | r in u :: r.department) == UserDepartments(l.users) && |u| == |UserDepartments(l.users)|
  {
    var t := TallyOf(l);
    var f := Filter(t.order, HasUsers(t.stats));
    var u := MapSeq(f, MfaRow(t.stats));
    TallyCounts(l);
    TallyWellFormed(l);
    MfaPassing(l);
    forall r | r in u ensures MfaRowCounts(l, r) {
      var j :| 0 <= j < |u| && u[j] == r;
      FilterMembers(t.order, HasUsers(t.stats), f[j]);
      MfaRowAtCounts(l, f[j]);
    }
    RowsDepartments(t.order, HasUsers(t.stats), MfaRow(t.stats));
  }

  /** The MFA row of a department with users. */
  lemma MfaRowAtCounts(l: Listings, d: string)
    requires var t := TallyOf(l); d in t.stats && t.stats[d].usersTotal > 0
    ensures MfaRowCounts(l, MfaRow(TallyOf(l).stats)(d))
  {
    TallyCounts(l);
  }

  /** The device row of a department with devices. */
  lemma DeviceRowAtCounts(l: Listings, d: string)
    requires var t := TallyOf(l); d in t.stats && t.stats[d].devicesTotal > 0
    ensures DeviceRowCounts(l, DeviceRow(TallyOf(l).stats)(d))
  {
    var stats := TallyOf(l).stats;
    TallyCounts(l);
    DeviceStatesBound(l, d);
    PercentBounds(stats[d].devicesCompliant, stats[d].devicesTotal);
    Round1Percent(Percent(stats[d].devicesCompliant, stats[d].devicesTotal));
  }

  /** Before sorting: one device row per department devices are attributed to, each holding its counts. */
  lemma DeviceUnsorted(l: Listings)
    ensures var t := TallyOf(l);
      var u := MapSeq(Filter(t.order, HasDevices(t.stats)), DeviceRow(t.stats));
      (forall r :: r in u ==> DeviceRowCounts(l, r)) &&
      (set r | r in u :: r.department) == DeviceDepartments(l) && |u| == |DeviceDepartments(l)|
  {
    var t := TallyOf(l);
    var f := Filter(t.order, HasDevices(t.stats));
    var u := MapSeq(f, DeviceRow(t.stats));
    TallyCounts(l);
    TallyWellFormed(l);
    DevicePassing(l);
    forall r | r in u ensures DeviceRowCounts(l, r) {
      var j :| 0 <= j < |u| && u[j] == r;
      FilterMembers(t.order, HasDevices(t.stats), f[j]);
      DeviceRowAtCounts(l, f[j]);
    }
    RowsDepartments(t.order, HasDevices(t.stats), DeviceRow(t.stats));
  }

  // ------------------------------------------------------------------ the answer

  /** Sorting by percentage permutes the rows, orders them ascending and keeps ties in order. */
  lemma PercentageSorted(rows: seq<DeptRow>)
    ensures var sorted := SortBy(rows, ByPercentage());
      multiset(sorted) == multiset(rows) &&
      (forall i, j :: 0 <= i < j < |sorted| ==> sorted[i].percentage <= sorted[j].percentage) &&
      (forall e :: SameRank(sorted, e, ByPercentage()) == SameRank(rows, e, ByPercentage()))
  {
    var sorted := SortBy(rows, ByPercentage());
    ByKeyTotal(RowPercentage);
    SortPermutes(rows, ByPercentage());
    SortSorted(rows, ByPercentage());
    forall i, j | 0 <= i < j < |sorted| ensures sorted[i].percentage <= sorted[j].percentage {
      assert SortedBy(sorted, ByPercentage());
      assert ByPercentage()(sorted[i], sorted[j]);
      assert RowPercentage(sorted[i]) <= RowPercentage(sorted[j]);
    }
    forall e ensures SameRank(sorted, e, ByPercentage()) == SameRank(rows, e, ByPercentage()) {
      SortStable(rows, e, ByPercentage());
    }
  }

  /** The live answer sorts the first-met rows of the departments with users and with devices. */
  lemma AnalyticsUnfold(l: Listings)
    ensures var t := TallyOf(l);
      AnalyticsOf(Some(l)) == DeptAnalytics(SortBy(MapSeq(Filter(t.order, HasUsers(t.stats)), MfaRow(t.stats)), ByPercentage()),
        SortBy(MapSeq(Filter(t.order, HasDevices(t.stats)), DeviceRow(t.stats)), ByPercentage()), true)
  {
  }

  /**
   * The live MFA list: one row per department of the directory users (so users without a
   * department appear under "Unknown"), each counting that department's users and the
   * registered MFA records attributed to it, lowest percentage first.
   */
  lemma MfaRowsFacts(l: Listings)
    ensures var rows := AnalyticsOf(Some(l)).mfaByDepartment;
      (forall k :: 0 <= k < |rows| ==> MfaRowCounts(l, rows[k])) &&
      (set r | r in rows :: r.department) == UserDepartments(l.users) && |rows| == |UserDepartments(l.users)| &&
      (forall i, j :: 0 <= i < j < |rows| ==> rows[i].percentage <= rows[j].percentage)
  {
    hide *;
    var t := TallyOf(l);
    var u := MapSeq(Filter(t.order, HasUsers(t.stats)), MfaRow(t.stats));
    var rows := SortBy(u, ByPercentage());
    AnalyticsUnfold(l);
    MfaUnsorted(l);
    PercentageSorted(u);
    forall r ensures r in rows <==> r in u {
      SortMembers(u, ByPercentage(), r);
    }
  }

  /**
   * The live device list: one row per department the devices are attributed to, each
   * counting its devices and the exactly "compliant" and "noncompliant" ones (never more
   * than the total), with a percentage within 0..100, lowest first.
   */
  lemma DeviceRowsFacts(l: Listings)
    ensures var rows := AnalyticsOf(Some(l)).devicesByDepartment;
      (forall k :: 0 <= k < |rows| ==> DeviceRowCounts(l, rows[k])) &&
      (set r | r in rows :: r.department) == DeviceDepartments(l) && |rows| == |DeviceDepartments(l)| &&
      (forall i, j :: 0 <= i < j < |rows| ==> rows[i].percentage <= rows[j].percentage)
  {
    hide *;
    var t := TallyOf(l);
    var u := MapSeq(Filter(t.order, HasDevices(t.stats)), DeviceRow(t.stats));
    var rows := SortBy(u, ByPercentage());
    AnalyticsUnfold(l);
    DeviceUnsorted(l);
    PercentageSorted(u);
    forall r ensures r in rows <==> r in u {
      SortMembers(u, ByPercentage(), r);
    }
  }

  function HasNoDepartment(u: DirectoryUser): bool {
    u.department.None? || u.department == Some("")
  }

  /** Users without a department are counted in the "Unknown" MFA row. */
  lemma UndepartmentedAreUnknown(l: Listings)
    requires exists u :: u in l.users && HasNoDepartment(u)
    ensures exists k :: (0 <= k < |AnalyticsOf(Some(l)).mfaByDepartment| &&
      AnalyticsOf(Some(l)).mfaByDepartment[k].department == Unknown &&
      AnalyticsOf(Some(l)).mfaByDepartment[k].total >= Count(l.users, HasNoDepartment))
  {
    var rows := AnalyticsOf(Some(l)).mfaByDepartment;
    MfaRowsFacts(l);
    UndepartmentedUnknown(l);
    RowAt(rows, Unknown);
    var k :| 0 <= k < |rows| && rows[k].department == Unknown;
    UnknownRowTotal(l, rows[k]);
  }

  /** A user without a department puts "Unknown" among the user departments. */
  lemma UndepartmentedUnknown(l: Listings)
    requires exists u :: u in l.users && HasNoDepartment(u)
    ensures Unknown in UserDepartments(l.users)
  {
    var u :| u in l.users && HasNoDepartment(u);
    assert DeptOf(u) == Unknown;
  }

  /** The "Unknown" MFA row counts at least the users without a department. */
  lemma UnknownRowTotal(l: Listings, r: DeptRow)
    requires r.department == Unknown && MfaRowCounts(l, r)
    ensures r.total >= Count(l.users, HasNoDepartment)
  {
    CountMono(l.users, HasNoDepartment, InDept(Unknown));
  }

  /** A department named by some row has a row index. */
  lemma RowAt(rows: seq<DeptRow>, d: string)
    requires d in (set r | r in rows :: r.department)
    ensures exists k :: 0 <= k < |rows| && rows[k].department == d
  {
    var r :| r in rows && r.department == d;
    var k :| 0 <= k < |rows| && rows[k] == r;
  }

  /** One user without a department, and two registered MFA records whose mailboxes no user has. */
  function OverRegistered(): Listings {
    Listings([DirectoryUser("a", None)], [MfaDetail("b", true), MfaDetail("c", true)], [])
  }

  /** All three land in "Unknown", which counts one user and two registrations. */
  lemma OverRegisteredTally()
    ensures TallyOf(OverRegistered()) == Tally(map["a" := Unknown], map[Unknown := DeptStats(1, 2, 0, 0, 0)], [Unknown])
  {
    var l := OverRegistered();
    assert Lower("a") == "a" && Lower("b") == "b" && Lower("c") == "c";
    var t1 := UsersFold(l.users);
    assert t1 == Tally(map["a" := Unknown], map[Unknown := NoStats.(usersTotal := 1)], [Unknown]);
    assert l.mfaDetails[..1] == [MfaDetail("b", true)];
    assert MfaFold(t1, l.mfaDetails[..1]) == t1.(stats := map[Unknown := NoStats.(usersTotal := 1, usersMfaRegistered := 1)]);
  }

  /**
   * MFA records are attributed by mailbox, not matched one to one with users, so a
   * department can report more registrations than users: here 2 of 1, -1 unregistered
   * and 200 percent.
   */
  lemma MfaPercentageCanExceedHundred()
    ensures AnalyticsOf(Some(OverRegistered())).mfaByDepartment == [DeptRow(Unknown, 1, 2, -1, 200.0)]
  {
    var t := TallyOf(OverRegistered());
    OverRegisteredTally();
    AnalyticsUnfold(OverRegistered());
    hide TallyOf, AnalyticsOf;
    assert Filter(t.order, HasUsers(t.stats)) == [Unknown];
    Round1Tenths(2000);
    assert MapSeq([Unknown], MfaRow(t.stats)) == [DeptRow(Unknown, 1, 2, -1, 200.0)];
  }

  // ------------------------------------------------------------------ the userless device

  /**
   * As written, one managed device without a user empties the whole answer and marks it
   * not live; with the unset user read as "" the answer stays live and the device is
   * counted in a department row.
   */
  lemma UserlessDeviceEmptiesAnalytics(l: Listings)
    requires HasUserlessDevice(l.devices)
    ensures AnalyticsAsWritten(Some(l)) == DeptAnalytics([], [], false)
    ensures AnalyticsOf(Some(l)).isLive && |AnalyticsOf(Some(l)).devicesByDepartment| > 0
  {
    var i :| 0 <= i < |l.devices| && l.devices[i].userPrincipalName.None?;
    var x := l.devices[i];
    assert AnalyticsOf(Some(l)).isLive;
    assert AnalyticsAsWritten(Some(l)) == DeptAnalytics([], [], false);
    DeviceRowsFacts(l);
    assert DeviceDept(DeptMap(l.users), x) in DeviceDepartments(l);
  }

  /**
   * With the unset user read as "", a userless device is counted in the "Unknown" row
   * unless some user's mailbox is empty.
   */
  lemma UserlessDeviceCountedUnknown(l: Listings)
    requires HasUserlessDevice(l.devices)
    requires forall u :: u in l.users ==> Lower(u.email) != ""
    ensures exists k :: 0 <= k < |AnalyticsOf(Some(l)).devicesByDepartment| && AnalyticsOf(Some(l)).devicesByDepartment[k].department == Unknown
  {
    var rows := AnalyticsOf(Some(l)).devicesByDepartment;
    DeviceRowsFacts(l);
    UserlessDeviceDepartment(l);
    RowAt(rows, Unknown);
  }

  /** A userless device is attributed to "Unknown" when no user's mailbox is empty. */
  lemma UserlessDeviceDepartment(l: Listings)
    requires HasUserlessDevice(l.devices)
    requires forall u :: u in l.users ==> Lower(u.email) != ""
    ensures Unknown in DeviceDepartments(l)
  {
    var i :| 0 <= i < |l.devices| && l.devices[i].userPrincipalName.None?;
    var x := l.devices[i];
    DeptMapKeys(l.users);
    assert DeviceUpn(x) == "";
    assert DeviceDept(DeptMap(l.users), x) == Unknown;
    assert x in l.devices;
  }

  /** Without userless devices the analytics as written and as corrected agree. */
  lemma AsWrittenAgreesOtherwise(fetched: Option<Listings>)
    requires fetched.None? || !HasUserlessDevice(fetched.value.devices)
    ensures AnalyticsAsWritten(fetched) == AnalyticsOf(fetched)
  {
  }
}
