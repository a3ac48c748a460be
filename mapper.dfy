/**
 * The compliance mapper: flattens a framework catalog into one control list, maps
 * findings onto control ids through the class-wide rule table and the findings' own
 * framework tags, and scores the framework by the share of controls left passing.
 */
module Mapper {
  import opened Wrappers
  import opened Text
  import opened Seqs
  import opened Numeric
  import opened Snapshot

  /** rule id -> framework id -> control ids. */
  type ControlMap = map<string, map<string, seq<string>>>

  /** `FINDING_TO_CONTROL_MAP` as the class declares it. */
  const FindingToControlMap: ControlMap := map[
    "MFA-001" := map["cis" := ["1.1.2"], "nist" := ["IA-2", "IA-2(1)", "IA-2(2)"],
                     "soc2" := ["CC6.1"], "iso27001" := ["A.9.4.2"]],
    "MFA-002" := map["cis" := ["1.1.1"], "nist" := ["IA-2", "IA-2(1)"],
                     "soc2" := ["CC6.1"], "iso27001" := ["A.9.4.2"]],
    "PRIV-001" := map["cis" := ["1.1.3", "1.1.4"], "nist" := ["AC-6", "AC-6(1)", "AC-6(5)"],
                      "soc2" := ["CC6.3"], "iso27001" := ["A.9.2.3"]],
    "RISK-001" := map["cis" := ["1.2.6"], "nist" := ["IA-5", "SI-4"],
                      "soc2" := ["CC6.1", "CC7.2"], "iso27001" := ["A.9.4.3"]],
    "DEV-001" := map["cis" := ["3.1", "3.2"], "nist" := ["CM-2", "CM-6"],
                     "soc2" := ["CC6.6", "CC6.7"], "iso27001" := ["A.8.1.1", "A.12.6.1"]],
    "BKP-001" := map["cis" := ["5.1.4"], "nist" := ["CP-9", "CP-10"],
                     "soc2" := ["A1.2"], "iso27001" := ["A.12.3.1"]],
    "BKP-002" := map["cis" := ["5.1.4"], "nist" := ["CP-9"],
                     "soc2" := ["A1.2"], "iso27001" := ["A.12.3.1"]],
    "THR-001" := map["cis" := ["2.1.15"], "nist" := ["IR-4", "IR-5", "IR-6"],
                     "soc2" := ["CC7.3", "CC7.4"], "iso27001" := ["A.16.1.4", "A.16.1.5"]]
  ]

  // ---------------------------------------------------------------- catalogs

  datatype CatalogControl = CatalogControl(id: Option<string>, name: Option<string>)

  /** A section, control family or category, with its `controls` and its `criteria` lists. */
  datatype CatalogGroup = CatalogGroup(name: Option<string>, controls: seq<CatalogControl>, criteria: seq<CatalogControl>)

  /**
   * A framework catalog document. Absent lists are empty. A catalog file that was missing
   * at load time is the stub `{"framework": {"id": fw}, "sections": []}`, which reads
   * like an empty document.
   */
  datatype FrameworkDoc = FrameworkDoc(
    name: Option<string>,
    version: Option<string>,
    sections: seq<CatalogGroup>,
    controlFamilies: seq<CatalogGroup>,
    trustServiceCategories: seq<CatalogGroup>,
    controlCategories: seq<CatalogGroup>)

  const EmptyDoc := FrameworkDoc(None, None, [], [], [], [])

  /** One entry of the flattened control list: id, name and the name of its group. */
  datatype ExtractedControl = ExtractedControl(id: Option<string>, name: Option<string>, section: Option<string>)

  function Entry(group: CatalogGroup): CatalogControl -> ExtractedControl {
    (c: CatalogControl) => ExtractedControl(c.id, c.name, group.name)
  }

  /** The children of one group: its `criteria` for trust service categories, its `controls` otherwise. */
  function Children(group: CatalogGroup, useCriteria: bool): seq<ExtractedControl> {
    MapSeq(if useCriteria then group.criteria else group.controls, Entry(group))
  }

  function GroupControls(groups: seq<CatalogGroup>, useCriteria: bool): seq<ExtractedControl> {
    if groups == [] then []
    else GroupControls(groups[..|groups| - 1], useCriteria) + Children(groups[|groups| - 1], useCriteria)
  }

  /** Every control of the catalog, in the order sections, families, trust categories, control categories. */
  function CatalogControls(doc: FrameworkDoc): seq<ExtractedControl> {
    GroupControls(doc.sections, false) + GroupControls(doc.controlFamilies, false)
    + GroupControls(doc.trustServiceCategories, true) + GroupControls(doc.controlCategories, false)
  }

  function ChildCount(groups: seq<CatalogGroup>, useCriteria: bool): nat {
    if groups == [] then 0
    else
      var last := groups[|groups| - 1];
      ChildCount(groups[..|groups| - 1], useCriteria) + |if useCriteria then last.criteria else last.controls|
  }

  /** The flattened list holds exactly one entry per child of every group. */
  lemma {:induction false} GroupControlsCount(groups: seq<CatalogGroup>, useCriteria: bool)
    ensures |GroupControls(groups, useCriteria)| == ChildCount(groups, useCriteria)
  {
    if groups != [] {
      GroupControlsCount(groups[..|groups| - 1], useCriteria);
    }
  }

  /** A document without any of the four lists (a stub, an unknown shape) has no controls. */
  lemma EmptyCatalog(doc: FrameworkDoc)
    requires doc.sections == [] && doc.controlFamilies == []
    requires doc.trustServiceCategories == [] && doc.controlCategories == []
    ensures CatalogControls(doc) == []
  {
  }

  /** The inner loop of `_extract_all_controls`: one entry per child of one group. */
  method AppendChildren(acc: seq<ExtractedControl>, group: CatalogGroup, useCriteria: bool)
    returns (out: seq<ExtractedControl>)
    ensures out == acc + Children(group, useCriteria)
  {
    var children := if useCriteria then group.criteria else group.controls;
    out := acc;
    for j := 0 to |children|
      invariant out == acc + MapSeq(children[..j], Entry(group))
    {
      assert children[..j + 1] == children[..j] + [children[j]];
      MapSeqSnoc(children[..j], children[j], Entry(group));
      out := out + [ExtractedControl(children[j].id, children[j].name, group.name)];
    }
    assert children[..|children|] == children;
  }

  /** One of the four loops of `_extract_all_controls`. */
  method AppendGroups(acc: seq<ExtractedControl>, groups: seq<CatalogGroup>, useCriteria: bool)
    returns (out: seq<ExtractedControl>)
    ensures out == acc + GroupControls(groups, useCriteria)
  {
    out := acc;
    hide Children;
    for i := 0 to |groups|
      invariant out == acc + GroupControls(groups[..i], useCriteria)
    {
      assert groups[..i + 1][..i] == groups[..i];
      out := AppendChildren(out, groups[i], useCriteria);
    }
    assert groups[..|groups|] == groups;
  }

  /** `_extract_all_controls`. */
  method ExtractAllControls(doc: FrameworkDoc) returns (controls: seq<ExtractedControl>)
    ensures controls == CatalogControls(doc)
  {
    controls := AppendGroups([], doc.sections, false);
    controls := AppendGroups(controls, doc.controlFamilies, false);
    controls := AppendGroups(controls, doc.trustServiceCategories, true);
    controls := AppendGroups(controls, doc.controlCategories, false);
  }

  /** What a catalog file turned out to be when it existed. */
  datatype CatalogFile = Unparseable | Parsed(doc: FrameworkDoc)

  /** `framework_files.get(fw_id)`. */
  function CatalogFileName(fw: string): Option<string> {
    if fw == "cis" then Some("cis_azure_v2.json")
    else if fw == "nist" then Some("nist_800_53.json")
    else if fw == "soc2" then Some("soc2_criteria.json")
    else if fw == "iso27001" then Some("iso27001_annex_a.json")
    else None
  }

  /**
   * One iteration of `_load_frameworks`: an unknown id is skipped, an unparseable file is
   * logged and skipped, a missing file becomes the stub, a parsed file is stored.
   * `files` maps each existing file name to its contents.
   */
  function LoadStep(data: map<string, FrameworkDoc>, fw: string, files: map<string, CatalogFile>): map<string, FrameworkDoc> {
    match CatalogFileName(fw)
      case None => data
      case Some(name) =>
        if name !in files then data[fw := EmptyDoc]
        else match files[name]
          case Unparseable => data
          case Parsed(doc) => data[fw := doc]
  }

  function LoadedFrameworks(data: map<string, FrameworkDoc>, fws: seq<string>, files: map<string, CatalogFile>): map<string, FrameworkDoc> {
    if fws == [] then data else LoadStep(LoadedFrameworks(data, fws[..|fws| - 1], files), fws[|fws| - 1], files)
  }

  /** Only the four known frameworks are ever loaded. */
  lemma {:induction false} LoadedOnlyKnown(data: map<string, FrameworkDoc>, fws: seq<string>, files: map<string, CatalogFile>)
    requires data == map[]
    ensures forall fw :: fw in LoadedFrameworks(data, fws, files) ==> CatalogFileName(fw).Some?
  {
    if fws != [] {
      LoadedOnlyKnown(data, fws[..|fws| - 1], files);
    }
  }

  /** `self.framework_data.get(fw_id, {})`. */
  function DocFor(data: map<string, FrameworkDoc>, fw: string): FrameworkDoc {
    if fw in data then data[fw] else EmptyDoc
  }

  // ---------------------------------------------------------------- finding ids and tags

  /** The first two `-`-separated parts of a finding id joined by `-`, or "" when the id has no `-`. */
  function RuleId(id: string): string {
    if '-' in id then
      var parts := Split(id, '-');
      assert |parts| >= 2 by {
        var i := IndexOf(id, '-').value;
        assert parts == [id[..i]] + Split(id[i + 1..], '-');
      }
      parts[0] + "-" + parts[1]
    else ""
  }

  lemma IndexOfAfterPrefix(a: string, rest: string)
    requires '-' !in a
    ensures IndexOf(a + "-" + rest, '-') == Some(|a|)
    decreases |a|
  {
    if a != [] {
      assert (a + "-" + rest)[1..] == a[1..] + "-" + rest;
      IndexOfAfterPrefix(a[1..], rest);
    }
  }

  /** An id of the form `PREFIX-NUMBER-suffix` has rule id `PREFIX-NUMBER`, whatever the suffix holds. */
  lemma RuleIdOf(prefix: string, number: string, suffix: string)
    requires '-' !in prefix && '-' !in number
    ensures RuleId(prefix + "-" + number + "-" + suffix) == prefix + "-" + number
  {
    var rest := number + "-" + suffix;
    var id := prefix + "-" + rest;
    assert prefix + "-" + number + "-" + suffix == id;
    IndexOfAfterPrefix(prefix, rest);
    assert id[..|prefix|] == prefix && id[|prefix| + 1..] == rest;
    assert Split(id, '-') == [prefix] + Split(rest, '-');
    IndexOfAfterPrefix(number, suffix);
    assert rest[..|number|] == number && rest[|number| + 1..] == suffix;
    assert Split(rest, '-') == [number] + Split(suffix, '-');
  }

  /** The rule id of an id without `-` is empty, so no table entry applies to it. */
  lemma RuleIdWithoutDash(id: string)
    requires '-' !in id
    ensures RuleId(id) == ""
  {
  }

  /** `tag.startswith(fw.upper()) or not any(tag.startswith(p) for p in ["CIS", "NIST", "SOC2", "ISO"])`. */
  predicate Accepts(tag: string, fw: string) {
    StartsWith(tag, Upper(fw))
    || !(StartsWith(tag, "CIS") || StartsWith(tag, "NIST") || StartsWith(tag, "SOC2") || StartsWith(tag, "ISO"))
  }

  /** The control ids a finding's explicit tags contribute: the last space-separated token of each accepted tag. */
  function AcceptedTags(tags: seq<string>, fw: string): seq<string> {
    if tags == [] then []
    else
      var last := tags[|tags| - 1];
      AcceptedTags(tags[..|tags| - 1], fw) + (if Accepts(last, fw) then [LastPart(last, ' ')] else [])
  }

  // ---------------------------------------------------------------- the shared table

  /** The distinct elements of a list, as `set(...)` gives them. */
  function Members(s: seq<string>): (r: set<string>)
    ensures forall x :: x in r <==> x in s
  {
    set x | x in s
  }

  lemma MembersConcat(a: seq<string>, b: seq<string>)
    ensures Members(a + b) == Members(a) + Members(b)
  {
  }

  predicate Aliased(table: ControlMap, rule: string, fw: string) {
    rule in table && fw in table[rule]
  }

  /** `FINDING_TO_CONTROL_MAP.get(rule, {}).get(fw, [])`. */
  function Lookup(table: ControlMap, rule: string, fw: string): seq<string> {
    if Aliased(table, rule, fw) then table[rule][fw] else []
  }

  /** The control list one finding marks failed, given the table as it stands. */
  function ControlsFor(table: ControlMap, f: Finding, fw: string): seq<string> {
    Lookup(table, RuleId(f.id), fw) + AcceptedTags(f.frameworkControls, fw)
  }

  /**
   * The table after one finding: the list taken out of the table is the table's own list,
   * so the accepted tags appended to it stay in the table.
   */
  function StepTable(table: ControlMap, f: Finding, fw: string): ControlMap {
    var rule := RuleId(f.id);
    if Aliased(table, rule, fw) then table[rule := table[rule][fw := ControlsFor(table, f, fw)]] else table
  }

  function TableAfter(table: ControlMap, fs: seq<Finding>, fw: string): ControlMap {
    if fs == [] then table else StepTable(TableAfter(table, fs[..|fs| - 1], fw), fs[|fs| - 1], fw)
  }

  /** The failed set as the loop builds it, each finding seeing the table as earlier findings left it. */
  function FailedAfter(table: ControlMap, fs: seq<Finding>, fw: string): set<string> {
    if fs == [] then {}
    else
      var init := fs[..|fs| - 1];
      FailedAfter(table, init, fw) + Members(ControlsFor(TableAfter(table, init, fw), fs[|fs| - 1], fw))
  }

  /** The failed set as the rule table and the tags define it: the union over findings of table controls and accepted tags. */
  function FailedControls(table: ControlMap, fs: seq<Finding>, fw: string): set<string> {
    if fs == [] then {}
    else FailedControls(table, fs[..|fs| - 1], fw) + Members(ControlsFor(table, fs[|fs| - 1], fw))
  }

  lemma {:induction false} AliasingKeepsKeys(table: ControlMap, fs: seq<Finding>, fw: string, rule: string)
    ensures Aliased(TableAfter(table, fs, fw), rule, fw) == Aliased(table, rule, fw)
  {
    if fs != [] {
      AliasingKeepsKeys(table, fs[..|fs| - 1], fw, rule);
    }
  }

  /** The grown table list only ever holds the original list and controls that earlier findings already failed. */
  lemma {:induction false} GrownListBounds(table: ControlMap, fs: seq<Finding>, fw: string, rule: string)
    ensures Members(Lookup(table, rule, fw)) <= Members(Lookup(TableAfter(table, fs, fw), rule, fw))
    ensures Members(Lookup(TableAfter(table, fs, fw), rule, fw)) <= Members(Lookup(table, rule, fw)) + FailedControls(table, fs, fw)
  {
    hide AcceptedTags, RuleId, Members;
    if fs != [] {
      var init, f := fs[..|fs| - 1], fs[|fs| - 1];
      GrownListBounds(table, init, fw, rule);
      AliasingKeepsKeys(table, init, fw, rule);
      var t := TableAfter(table, init, fw);
      var tags := AcceptedTags(f.frameworkControls, fw);
      MembersConcat(Lookup(table, RuleId(f.id), fw), tags);
      assert FailedControls(table, fs, fw) == FailedControls(table, init, fw) + Members(Lookup(table, RuleId(f.id), fw) + tags);
      if RuleId(f.id) == rule && Aliased(t, rule, fw) {
        assert Lookup(TableAfter(table, fs, fw), rule, fw) == Lookup(t, rule, fw) + tags;
        MembersConcat(Lookup(t, rule, fw), tags);
      } else {
        assert Lookup(TableAfter(table, fs, fw), rule, fw) == Lookup(t, rule, fw);
      }
    }
  }

  /**
   * The table growing across findings (and across calls) never changes which controls
   * fail: the loop's failed set equals the one the original table defines.
   */
  lemma {:induction false} AliasingLeavesFailedSet(table: ControlMap, fs: seq<Finding>, fw: string)
    ensures FailedAfter(table, fs, fw) == FailedControls(table, fs, fw)
  {
    if fs != [] {
      var init, f := fs[..|fs| - 1], fs[|fs| - 1];
      AliasingLeavesFailedSet(table, init, fw);
      GrownListBounds(table, init, fw, RuleId(f.id));
      var t := TableAfter(table, init, fw);
      var tags := AcceptedTags(f.frameworkControls, fw);
      MembersConcat(Lookup(table, RuleId(f.id), fw), tags);
      MembersConcat(Lookup(t, RuleId(f.id), fw), tags);
    }
  }

  /** Each aliased finding leaves its accepted tags appended to the table's own list. */
  lemma TableGrows(table: ControlMap, f: Finding, fw: string)
    requires Aliased(table, RuleId(f.id), fw)
    ensures Aliased(TableAfter(table, [f], fw), RuleId(f.id), fw)
    ensures TableAfter(table, [f], fw)[RuleId(f.id)][fw] == table[RuleId(f.id)][fw] + AcceptedTags(f.frameworkControls, fw)
  {
    assert [f][..0] == [];
  }

  lemma UpperCis()
    ensures Upper("cis") == "CIS"
  {
    assert UpperChar('c') == 'C' && UpperChar('i') == 'I' && UpperChar('s') == 'S';
  }

  lemma CisTagAccepted()
    ensures Accepts("CIS 1.1.2", "cis") && LastPart("CIS 1.1.2", ' ') == "1.1.2"
  {
    UpperCis();
    assert "CIS 1.1.2"[..3] == "CIS";
    assert IndexOf("CIS 1.1.2", ' ') == Some(3);
    assert "CIS 1.1.2"[4..] == "1.1.2";
    assert IndexOf("1.1.2", ' ').None?;
  }

  lemma OtherTagsRejected()
    ensures !Accepts("NIST IA-2", "cis") && !Accepts("SOC2 CC6.1", "cis")
  {
    UpperCis();
    assert "NIST IA-2"[..4] == "NIST" && "NIST IA-2"[..3][0] == 'N';
    assert "SOC2 CC6.1"[..4] == "SOC2" && "SOC2 CC6.1"[..3][0] == 'S';
  }

  /** The tags of the administrator MFA finding contribute `1.1.2` again for CIS, so the CIS list `["1.1.2"]` of `MFA-001` grows to a duplicate. */
  lemma MfaTagsForCis()
    ensures AcceptedTags(["CIS 1.1.2", "NIST IA-2", "SOC2 CC6.1"], "cis") == ["1.1.2"]
  {
    var tags := ["CIS 1.1.2", "NIST IA-2", "SOC2 CC6.1"];
    CisTagAccepted();
    OtherTagsRejected();
    hide Accepts, LastPart;
    assert tags[..2] == ["CIS 1.1.2", "NIST IA-2"] && tags[..2][..1] == ["CIS 1.1.2"] && tags[..2][..1][..0] == [];
    assert AcceptedTags(tags[..2][..1], "cis") == ["1.1.2"];
  }

  // ---------------------------------------------------------------- results

  /** An entry of `control_findings[control]`. */
  datatype FindingRef = FindingRef(id: string, title: string, severity: string)

  function RefOf(f: Finding): FindingRef {
    FindingRef(f.id, f.title, f.severity)
  }

  /** `control_findings.get(k, [])`. */
  function Listed(m: map<string, seq<FindingRef>>, k: string): seq<FindingRef> {
    if k in m then m[k] else []
  }

  /** What one finding files under control `k`: one entry per occurrence of `k` in its control list. */
  function RefsFor(controls: seq<string>, k: string, ref: FindingRef): seq<FindingRef> {
    if controls == [] then []
    else RefsFor(controls[..|controls| - 1], k, ref) + (if controls[|controls| - 1] == k then [ref] else [])
  }

  /**
   * The findings filed under control `k`, in input order: each finding once per occurrence of `k`
   * in its control list, read from the table as earlier findings left it.
   */
  function FindingsOfControl(table: ControlMap, fs: seq<Finding>, fw: string, k: string): seq<FindingRef> {
    if fs == [] then []
    else
      var init, f := fs[..|fs| - 1], fs[|fs| - 1];
      FindingsOfControl(table, init, fw, k) + RefsFor(ControlsFor(TableAfter(table, init, fw), f, fw), k, RefOf(f))
  }

  lemma {:induction false} RefsForFacts(controls: seq<string>, k: string, ref: FindingRef)
    ensures RefsFor(controls, k, ref) != [] <==> k in controls
    ensures forall r :: r in RefsFor(controls, k, ref) ==> r == ref
  {
    if controls != [] {
      var init := controls[..|controls| - 1];
      RefsForFacts(init, k, ref);
      assert controls == init + [controls[|controls| - 1]];
    }
  }

  /** A control collects findings exactly when it failed, and only findings of the input. */
  lemma {:induction false} FindingsOfControlFacts(table: ControlMap, fs: seq<Finding>, fw: string, k: string)
    ensures FindingsOfControl(table, fs, fw, k) != [] <==> k in FailedAfter(table, fs, fw)
    ensures forall r :: r in FindingsOfControl(table, fs, fw, k) ==> exists f :: f in fs && r == RefOf(f)
  {
    if fs != [] {
      var init, f := fs[..|fs| - 1], fs[|fs| - 1];
      FindingsOfControlFacts(table, init, fw, k);
      var controls := ControlsFor(TableAfter(table, init, fw), f, fw);
      RefsForFacts(controls, k, RefOf(f));
      forall r | r in FindingsOfControl(table, fs, fw, k)
        ensures exists g :: g in fs && r == RefOf(g)
      {
        if r in FindingsOfControl(table, init, fw, k) {
          var g :| g in init && r == RefOf(g);
          assert g in fs;
        } else {
          assert r == RefOf(f) && f in fs;
        }
      }
    }
  }

  datatype ControlStatus = ControlStatus(id: Option<string>, name: Option<string>, failed: bool, findings: seq<FindingRef>)

  datatype ComplianceResult = ComplianceResult(
    frameworkId: string,
    name: string,
    version: string,
    score: real,
    total: nat,
    passed: int,
    failed: nat,
    failedControls: set<string>,
    controlStatus: seq<ControlStatus>,
    findingsMapped: nat)

  /** A catalog entry fails when it has an id and that id is in the failed set. */
  predicate IsFailedId(id: Option<string>, failed: set<string>) {
    id.Some? && id.value in failed
  }

  /** The score before rounding: pass ratio minus 5 points per critical finding, at most 15, never below 0. */
  function PenalisedScore(passed: int, total: nat, critical: nat): (r: real)
    ensures r >= 0.0
    ensures total == 0 ==> r == 0.0
    ensures passed <= total ==> r <= 100.0
    ensures total > 0 && 0 <= passed && critical == 0 ==> r == Percent(passed, total)
    ensures total > 0 && critical == 0 && passed < 0 ==> r == 0.0
  {
    var base := if total > 0 then Percent(passed, total) else 0.0;
    assert total > 0 && passed <= total ==> base <= 100.0 by {
      if total > 0 && passed <= total {
        assert (passed as real) / (total as real) <= 1.0;
      }
    }
    assert total > 0 && 0 <= passed ==> base >= 0.0;
    Max(0.0, base - Min(15.0, (critical * 5) as real))
  }

  function IsCritical(f: Finding): bool { f.severity == "critical" }

  /** `status` entry for one catalog control. */
  function StatusOf(c: ExtractedControl, failed: set<string>, controlFindings: map<string, seq<FindingRef>>): (s: ControlStatus)
    ensures s.id == c.id && s.name == c.name
    ensures s.failed <==> IsFailedId(c.id, failed)
    ensures !s.failed ==> s.findings == []
  {
    var isFailed := IsFailedId(c.id, failed);
    ControlStatus(c.id, c.name, isFailed,
      if isFailed && c.id.value in controlFindings then controlFindings[c.id.value] else [])
  }

  /** A finding counts as mapped when the table has a non-empty list under its id minus the last `-` part. */
  function HasTableEntry(table: ControlMap, fw: string): Finding -> bool {
    (f: Finding) => Lookup(table, BeforeLast(f.id, '-'), fw) != []
  }

  /** The class-wide `FINDING_TO_CONTROL_MAP`, shared (and appended to) by every mapper. */
  class ControlTable {
    var entries: ControlMap

    constructor ()
      ensures entries == FindingToControlMap
    {
      entries := FindingToControlMap;
    }
  }

  class ComplianceMapper {
    var frameworks: seq<string>
    var frameworkData: map<string, FrameworkDoc>
    const table: ControlTable

    /** `ComplianceMapper(frameworks)`; `files` holds the catalog files that exist. */
    constructor (frameworks: seq<string>, files: map<string, CatalogFile>, table: ControlTable)
      ensures this.frameworks == MapSeq(frameworks, Lower)
      ensures frameworkData == LoadedFrameworks(map[], this.frameworks, files)
      ensures this.table == table
    {
      this.frameworks := MapSeq(frameworks, Lower);
      frameworkData := map[];
      this.table := table;
      new;
      LoadFrameworks(files);
    }

    /** `_load_frameworks`. */
    method LoadFrameworks(files: map<string, CatalogFile>)
      modifies this`frameworkData
      ensures frameworkData == LoadedFrameworks(old(frameworkData), frameworks, files)
    {
      ghost var start := frameworkData;
      for i := 0 to |frameworks|
        invariant frameworkData == LoadedFrameworks(start, frameworks[..i], files)
      {
        var fw := frameworks[i];
        assert frameworks[..i + 1][..i] == frameworks[..i];
        var filename := CatalogFileName(fw);
        if filename.Some? {
          if filename.value in files {
            match files[filename.value]
              case Unparseable =>
              case Parsed(doc) => frameworkData := frameworkData[fw := doc];
          } else {
            frameworkData := frameworkData[fw := EmptyDoc];
          }
        }
      }
      assert frameworks[..|frameworks|] == frameworks;
    }

    /** `map_to_framework` (the raw data argument is unused by the source). */
    method MapToFramework(framework: string, findings: seq<Finding>) returns (result: ComplianceResult)
      modifies table
      ensures table.entries == TableAfter(old(table.entries), findings, Lower(framework))
      ensures result.frameworkId == Lower(framework)
      ensures result.name == DocFor(frameworkData, Lower(framework)).name.GetOr(Lower(framework))
      ensures result.version == DocFor(frameworkData, Lower(framework)).version.GetOr("")
      ensures result.total == |CatalogControls(DocFor(frameworkData, Lower(framework)))|
      ensures result.failedControls == FailedControls(old(table.entries), findings, Lower(framework))
      ensures result.failed == |result.failedControls|
      ensures result.passed == result.total - result.failed
      ensures result.score == Round1(PenalisedScore(result.passed, result.total, Count(findings, IsCritical)))
      ensures |result.controlStatus| == result.total
      ensures forall i :: 0 <= i < result.total ==>
        var c := CatalogControls(DocFor(frameworkData, Lower(framework)))[i];
        var s := result.controlStatus[i];
        s.id == c.id && s.name == c.name && (s.failed <==> IsFailedId(c.id, result.failedControls))
        && (s.failed <==> s.findings != [])
        && (s.failed ==> s.findings == FindingsOfControl(old(table.entries), findings, Lower(framework), c.id.value))
      ensures result.findingsMapped == Count(findings, HasTableEntry(table.entries, Lower(framework)))
    {
      var fw := Lower(framework);
      var doc := DocFor(frameworkData, fw);
      var allControls := ExtractAllControls(doc);
      ghost var table0 := table.entries;
      var failed, controlFindings := MarkFindings(findings, fw);
      AliasingLeavesFailedSet(table0, findings, fw);
      var total := |allControls|;
      var passed := total - |failed|;
      var score := PenalisedScore(passed, total, Count(findings, IsCritical));
      var status := StatusList(allControls, failed, controlFindings);
      result := ComplianceResult(fw, doc.name.GetOr(fw), doc.version.GetOr(""), Round1(score),
        total, passed, |failed|, failed, status, Count(findings, HasTableEntry(table.entries, fw)));
    }

    /** The finding loop of `map_to_framework`: grows the shared table and collects failed controls. */
    method MarkFindings(findings: seq<Finding>, fw: string) returns (failed: set<string>, controlFindings: map<string, seq<FindingRef>>)
      modifies table
      ensures table.entries == TableAfter(old(table.entries), findings, fw)
      ensures failed == FailedAfter(old(table.entries), findings, fw)
      ensures controlFindings.Keys == failed
      ensures forall k :: k in controlFindings ==> controlFindings[k] != []
      ensures forall k :: Listed(controlFindings, k) == FindingsOfControl(old(table.entries), findings, fw, k)
    {
      failed, controlFindings := {}, map[];
      ghost var table0 := table.entries;
      for i := 0 to |findings|
        invariant table.entries == TableAfter(table0, findings[..i], fw)
        invariant failed == FailedAfter(table0, findings[..i], fw)
        invariant controlFindings.Keys == failed
        invariant forall k :: k in controlFindings ==> controlFindings[k] != []
        invariant forall k :: Listed(controlFindings, k) == FindingsOfControl(table0, findings[..i], fw, k)
      {
        var finding := findings[i];
        assert findings[..i + 1][..i] == findings[..i];
        assert RefOf(finding) == FindingRef(finding.id, finding.title, finding.severity);
        var rule := RuleId(finding.id);
        var aliased := rule in table.entries && fw in table.entries[rule];
        var frameworkControls := GatherControls(table.entries, rule, fw, finding.frameworkControls);
        if aliased {
          // The list came out of the shared table: the appends are visible there.
          table.entries := table.entries[rule := table.entries[rule][fw := frameworkControls]];
        }
        failed, controlFindings := MarkControls(failed, controlFindings, frameworkControls,
          FindingRef(finding.id, finding.title, finding.severity));
      }
      assert findings[..|findings|] == findings;
    }

    /** `get_framework_summary`. */
    method GetFrameworkSummary(framework: string) returns (id: string, name: string, version: string, totalControls: nat, sections: nat)
      ensures id == Lower(framework)
      ensures name == DocFor(frameworkData, Lower(framework)).name.GetOr(framework)
      ensures version == DocFor(frameworkData, Lower(framework)).version.GetOr("")
      ensures totalControls == |CatalogControls(DocFor(frameworkData, Lower(framework)))|
      ensures sections == |DocFor(frameworkData, Lower(framework)).sections|
    {
      var doc := DocFor(frameworkData, Lower(framework));
      var controls := ExtractAllControls(doc);
      return Lower(framework), doc.name.GetOr(framework), doc.version.GetOr(""), |controls|, |doc.sections|;
    }
  }

  /** A finding's control list: the table's list with the accepted explicit tags appended. */
  method GatherControls(entries: ControlMap, rule: string, fw: string, explicit: seq<string>) returns (controls: seq<string>)
    ensures controls == Lookup(entries, rule, fw) + AcceptedTags(explicit, fw)
  {
    controls := if rule in entries && fw in entries[rule] then entries[rule][fw] else [];
    ghost var base := Lookup(entries, rule, fw);
    for j := 0 to |explicit|
      invariant controls == base + AcceptedTags(explicit[..j], fw)
    {
      ghost var before := AcceptedTags(explicit[..j], fw);
      assert explicit[..j + 1][..j] == explicit[..j];
      if Accepts(explicit[j], fw) {
        var control := LastPart(explicit[j], ' ');
        assert AcceptedTags(explicit[..j + 1], fw) == before + [control];
        assert (base + before) + [control] == base + (before + [control]);
        controls := controls + [control];
      } else {
        assert AcceptedTags(explicit[..j + 1], fw) == before;
      }
    }
    assert explicit[..|explicit|] == explicit;
  }

  /** Adds every control of one finding to the failed set and files the finding under it. */
  method MarkControls(failed0: set<string>, findings0: map<string, seq<FindingRef>>, controls: seq<string>, ref: FindingRef)
    returns (failed: set<string>, controlFindings: map<string, seq<FindingRef>>)
    requires findings0.Keys == failed0
    requires forall k :: k in findings0 ==> findings0[k] != []
    ensures failed == failed0 + Members(controls)
    ensures controlFindings.Keys == failed
    ensures forall k :: k in controlFindings ==> controlFindings[k] != []
    ensures forall k :: Listed(controlFindings, k) == Listed(findings0, k) + RefsFor(controls, k, ref)
  {
    failed, controlFindings := failed0, findings0;
    for k := 0 to |controls|
      invariant failed == failed0 + Members(controls[..k])
      invariant controlFindings.Keys == failed
      invariant forall key :: key in controlFindings ==> controlFindings[key] != []
      invariant forall key :: Listed(controlFindings, key) == Listed(findings0, key) + RefsFor(controls[..k], key, ref)
    {
      var control := controls[k];
      assert controls[..k + 1] == controls[..k] + [control];
      ghost var before := controlFindings;
      failed, controlFindings := FileUnder(failed, controlFindings, control, ref);
      ListedStep(findings0, before, controlFindings, controls, k, ref);
    }
    assert controls[..|controls|] == controls;
  }

  /** One control of a finding: joins the failed set and gets the finding appended to its list. */
  method FileUnder(failed0: set<string>, findings0: map<string, seq<FindingRef>>, control: string, ref: FindingRef)
    returns (failed: set<string>, controlFindings: map<string, seq<FindingRef>>)
    requires findings0.Keys == failed0
    requires forall k :: k in findings0 ==> findings0[k] != []
    ensures failed == failed0 + {control}
    ensures controlFindings.Keys == failed
    ensures forall k :: k in controlFindings ==> controlFindings[k] != []
    ensures forall k :: Listed(controlFindings, k) == Listed(findings0, k) + (if k == control then [ref] else [])
  {
    failed := failed0 + {control};
    var prior := if control in findings0 then findings0[control] else [];
    controlFindings := findings0[control := prior + [ref]];
  }

  lemma ListedStep(findings0: map<string, seq<FindingRef>>, before: map<string, seq<FindingRef>>,
                   after: map<string, seq<FindingRef>>, controls: seq<string>, k: nat, ref: FindingRef)
    requires k < |controls|
    requires forall key :: Listed(before, key) == Listed(findings0, key) + RefsFor(controls[..k], key, ref)
    requires forall key :: Listed(after, key) == Listed(before, key) + (if key == controls[k] then [ref] else [])
    ensures forall key :: Listed(after, key) == Listed(findings0, key) + RefsFor(controls[..k + 1], key, ref)
  {
    forall key
      ensures Listed(after, key) == Listed(findings0, key) + RefsFor(controls[..k + 1], key, ref)
    {
      RefsForSnoc(controls, k, key, ref);
      hide RefsFor, Listed;
      var step := if key == controls[k] then [ref] else [];
      assert Listed(after, key) == (Listed(findings0, key) + RefsFor(controls[..k], key, ref)) + step;
    }
  }

  lemma RefsForSnoc(controls: seq<string>, k: nat, key: string, ref: FindingRef)
    requires k < |controls|
    ensures RefsFor(controls[..k + 1], key, ref) == RefsFor(controls[..k], key, ref) + (if controls[k] == key then [ref] else [])
  {
    assert controls[..k + 1][..k] == controls[..k];
  }

  /** The `control_status` loop. */
  method StatusList(controls: seq<ExtractedControl>, failed: set<string>, controlFindings: map<string, seq<FindingRef>>)
    returns (status: seq<ControlStatus>)
    requires controlFindings.Keys == failed
    requires forall k :: k in controlFindings ==> controlFindings[k] != []
    ensures |status| == |controls|
    ensures forall i :: 0 <= i < |controls| ==>
      status[i].id == controls[i].id && status[i].name == controls[i].name
      && (status[i].failed <==> IsFailedId(controls[i].id, failed))
      && (status[i].failed <==> status[i].findings != [])
      && (status[i].failed ==> status[i].findings == Listed(controlFindings, controls[i].id.value))
  {
    status := [];
    for i := 0 to |controls|
      invariant |status| == i
      invariant forall k :: 0 <= k < i ==> status[k] == StatusOf(controls[k], failed, controlFindings)
    {
      status := status + [StatusOf(controls[i], failed, controlFindings)];
    }
  }

  /** A framework with nothing loaded (unknown, unparseable file or missing file) maps to 0 controls and score 0. */
  lemma UnloadedFrameworkScoresZero(data: map<string, FrameworkDoc>, fw: string, passed: int, critical: nat)
    requires fw !in data || data[fw] == EmptyDoc
    ensures CatalogControls(DocFor(data, fw)) == []
    ensures Round1(PenalisedScore(passed, 0, critical)) == 0.0
  {
    Round1Tenths(0);
  }

  /** An unknown framework id is never stored, whatever files exist. */
  lemma UnknownFrameworkSkipped(data: map<string, FrameworkDoc>, fw: string, files: map<string, CatalogFile>)
    requires CatalogFileName(fw).None?
    ensures LoadStep(data, fw, files) == data
  {
  }

  /** A known framework whose file is missing gets the stub, which has no controls. */
  lemma MissingFileGetsStub(data: map<string, FrameworkDoc>, fw: string, files: map<string, CatalogFile>)
    requires CatalogFileName(fw).Some? && CatalogFileName(fw).value !in files
    ensures fw in LoadStep(data, fw, files) && CatalogControls(LoadStep(data, fw, files)[fw]) == []
  {
  }
}
