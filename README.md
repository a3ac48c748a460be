# Azure security assessment platform — a Dafny model of its core

The platform's backend collects a point-in-time snapshot of an Azure / Microsoft 365
tenant (secure score, identity, devices, threats, backup), grades it, turns it into
severity-ranked findings, maps the findings onto compliance frameworks (CIS, NIST,
SOC 2, ISO 27001), compares two assessments, and serves the live dashboard, stored
findings, tenant records and exported reports. This project models that core in Dafny
and proves what the code promises of it: grade bands, score bounds, the rule table's
firing conditions, the framework pass/fail accounting, the three-way findings diff, the
SLA, MTTR and velocity arithmetic, the collectors' counting rules, the storage upsert,
the credential round trip, the branding round trip and the report derivations.

Every fetched document (Graph and ARM listings, dashboard dictionaries, catalog files,
stored JSON files) is a parameter: a Python dictionary read with `.get(key, default)`
becomes a record whose optional fields are `Option`s, and a fetch that raised is `None`
or an error value. Clocks are parameters too (an instant in seconds, a day count, an
hour age or a `YYYYMMDD` string). Where the source updates objects in place
(`AssessmentEngine`, `ComplianceMapper` and its class-wide rule table,
`ComparisonEngine`, `LocalStorageService`, `TenantManager`) the model is a class with
those fields and `modifies` clauses; loops in the source are methods with loop
invariants, each proved equal to a specification function whose properties are lemmas.

| module | file | models |
|---|---|---|
| Wrappers | wrappers.dfy | `Option` and `Result` |
| Seqs | seqs.dfy | filters, counts, sums and key tallies as list comprehensions compute them |
| Sorting | sorting.dfy | Python's stable `sort` under a key: sorted, a permutation, stable |
| Text | text.dfy | ASCII lower/upper case, substring tests, `split`/`join`, digit strings, lexicographic order |
| Numeric | numeric.dfy | `min`/`max` clamps, `round(x, 1)`, day arithmetic |
| Schemas | schemas.dfy | backend/models/schemas.py: the Severity and BackupStatus enums |
| Snapshot | snapshot.dfy | the engine's `raw_data` payloads and its findings |
| Grading | grading.dfy | backend/assessment/grading.py |
| Mapper | mapper.dfy | backend/compliance/mapper.py |
| Engine | engine.dfy | backend/assessment/engine.py |
| Comparison | comparison.dfy | backend/assessment/comparison.py |
| Accountability | accountability.dfy | backend/collectors/accountability.py |
| Backup | backup.dfy | backend/collectors/backup.py |
| Identity | identity.dfy | backend/collectors/identity.py |
| Devices | devices.dfy | backend/collectors/devices.py |
| Threats | threats.dfy | backend/collectors/threats.py |
| SecureScore | securescore.dfy | backend/collectors/secure_score.py |
| VendorRisk | vendorrisk.dfy | backend/collectors/vendor_risk.py |
| LiveData | livedata.dfy | backend/services/live_data_service.py, except the department analytics |
| DepartmentAnalytics | departments.dfy | `get_department_analytics` in backend/services/live_data_service.py |
| Storage | storage.dfy | backend/services/storage_service.py |
| Tenants | tenants.dfy | backend/services/tenant_manager.py |
| Branding | branding.dfy | backend/reports/branding.py |
| ReportRoutes | reports.dfy | backend/api/routes/reports.py |

Three places where the code differs from what its own names and neighbours suggest are
kept as written and stated as lemmas:
- the report endpoints grade on a stricter scale (A 90, B 80, C 70, D 60) than the
  assessment grading (A 90, B 75, C 60, D 40): `ReportRoutes.ReportScaleStricter`;
- a dashboard without MFA data raises no MFA-gap finding (coverage read as 100) yet fails
  the CIS MFA control (coverage read as 0): `ReportRoutes.MissingCoverageDisagrees`;
- the department MFA rows count registrations against directory users independently, so
  a department's percentage can exceed 100: `DepartmentAnalytics.MfaPercentageCanExceedHundred`.

## Model

| member | source | states |
|---|---|---|
| Schemas.NamesDistinct | backend/models/schemas.py:14-34 | the severity, trend and backup-status enums serialise to pairwise distinct strings |
| Grading.CalculateGrade | backend/assessment/grading.py:9-35 | each letter holds exactly on its band: A from 90, B 75-90, C 60-75, D 40-60, F below 40 |
| Grading.GradeMonotone | backend/assessment/grading.py:26-35 | a higher score never gets a worse letter |
| Grading.GradeDescription | backend/assessment/grading.py:38-47 | the description is "Unknown" exactly when the grade is not one of the five letters |
| Grading.OverallScore | backend/assessment/grading.py:50-88 | the overall score lies in 0..100 and equals the weighted sum whenever that needs no clamping |
| Grading.WeightTableSum | backend/assessment/grading.py:72-86 | adding the weight table entry by entry gives the written-out 30/25/15/15/10/5 weighted sum |
| Grading.WeightsSumToOne | backend/assessment/grading.py:72-81 | the secure-score weight and the five category weights sum to one |
| Grading.OverallNeedsNoClamp | backend/assessment/grading.py:81-88 | with every input in 0..100 the weighted sum is in 0..100 and is returned unclamped |
| Grading.OverallMonotone | backend/assessment/grading.py:81-88 | raising the secure score or any category score never lowers the overall score |
| Grading.CalculateOverallScore | backend/assessment/grading.py:50-88 | the loop over the weights, missing categories read as 50, returns the overall score, within 0..100 |
| Grading.GlobalAdminPoints | backend/assessment/grading.py:141-152 | the Global Administrator band is one of 30, 20, 10, 0 points |
| Grading.HighRiskPoints | backend/assessment/grading.py:155-163 | the high-risk-user band is one of 20, 10, 0 points |
| Grading.ConditionalAccessPoints | backend/assessment/grading.py:166-176 | the enabled-policy band is one of 10, 7, 4, 0 points |
| Grading.IdentityScore | backend/assessment/grading.py:121-179 | the identity score is clamped to 0..100 |
| Grading.IdentityBandsMonotone | backend/assessment/grading.py:141-176 | more admins or more risky users never earn more points; more enabled policies never earn fewer |
| Grading.IdentityPerfect | backend/assessment/grading.py:133-179 | full MFA coverage, at most four admins, no high-risk user and five enabled policies score exactly 100 |
| Grading.IdentityOfFailedCollection | backend/assessment/grading.py:101-179 | a failed identity collection reads as all keys absent and scores 50 |
| Grading.NoIdentityScore | backend/assessment/grading.py:131-179 | with no identity data the score is 30 + 20 = 50 |
| Grading.KeywordScore | backend/assessment/grading.py:182-210 | without a matching control the score is the fallback |
| Grading.SumsOrdered | backend/assessment/grading.py:201-205 | over well-formed controls the earned total is between 0 and the maximum total |
| Grading.KeywordScoreBounds | backend/assessment/grading.py:182-210 | over well-formed controls and a fallback in 0..100 the keyword score is in 0..100 |
| Grading.ControlKeywordScore | backend/assessment/grading.py:188-210 | the filter-and-sum loop computes the keyword score |
| Grading.RecoveryPoints | backend/assessment/grading.py:236-251 | an RTO/RPO status earns 25, 15, 5 or 0 points, non-zero exactly for healthy, warning and at_risk |
| Grading.BackupScore | backend/assessment/grading.py:213-253 | the backup score is in 0..100 and is 0 when backup is not configured |
| Grading.BackupPerfect | backend/assessment/grading.py:229-253 | full protection with healthy RTO and RPO scores exactly 100 |
| Grading.DeviceScore | backend/assessment/grading.py:256-263 | the device score is the collected compliance percentage, 50 when absent |
| Grading.CategoryMap | backend/assessment/grading.py:101-118 | the category dictionary has exactly the five names, each holding its own score |
| Grading.CategoryScores | backend/assessment/grading.py:91-118 | each category is scored from its own collector section with its own fallback (data 60, network 70, devices 50) |
| Grading.ComplianceScore | backend/assessment/grading.py:294-320 | the score is not negative, is 0 with no controls, and is at most 100 for a sane count |
| Grading.ComplianceScorePenalty | backend/assessment/grading.py:312-320 | without critical failures the score is the pass percentage, and the penalty never exceeds 25 points |
| Mapper.GroupControlsCount | backend/compliance/mapper.py:236-269 | flattening a catalog's groups yields one control per child entry |
| Mapper.EmptyCatalog | backend/compliance/mapper.py:224-271 | a document with none of the four group lists has no controls |
| Mapper.AppendChildren | backend/compliance/mapper.py:237-242 | the inner loop appends one group's children, in order, to the controls so far |
| Mapper.AppendGroups | backend/compliance/mapper.py:236-242 | the outer loop appends every group's children, in order |
| Mapper.ExtractAllControls | backend/compliance/mapper.py:224-271 | the controls are the CIS sections', then the NIST families', then the SOC 2 categories' criteria, then the ISO categories' controls |
| Mapper.LoadedOnlyKnown | backend/compliance/mapper.py:100-126 | from an empty start only the four known framework ids ever get an entry |
| Mapper.IndexOfAfterPrefix | backend/compliance/mapper.py:157 | the first dash of `a-rest` is right after `a` when `a` has none |
| Mapper.RuleIdOf | backend/compliance/mapper.py:157 | a finding id `P-N-S` maps to the rule id `P-N` |
| Mapper.RuleIdWithoutDash | backend/compliance/mapper.py:157 | an id without a dash maps to the empty rule id |
| Mapper.Members | backend/compliance/mapper.py:169-170 | the set of controls is exactly the list's elements |
| Mapper.MembersConcat | backend/compliance/mapper.py:165-170 | the elements of two appended lists are the union of their elements |
| Mapper.AliasingKeepsKeys | backend/compliance/mapper.py:160-167 | appending through the shared table never adds or removes a rule's framework entry |
| Mapper.GrownListBounds | backend/compliance/mapper.py:160-167 | a shared list only grows, and only by controls that the pass marks failed |
| Mapper.AliasingLeavesFailedSet | backend/compliance/mapper.py:156-177 | the failed set computed against the growing table equals the one computed against the table as it was |
| Mapper.TableGrows | backend/compliance/mapper.py:160-167 | a finding with a table entry appends its accepted explicit tags to that shared list |
| Mapper.CisTagAccepted | backend/compliance/mapper.py:166-167 | a "CIS 1.1.2" tag is accepted for cis and contributes "1.1.2" |
| Mapper.OtherTagsRejected | backend/compliance/mapper.py:166 | NIST and SOC2 tags are rejected for cis |
| Mapper.MfaTagsForCis | backend/compliance/mapper.py:164-167 | of the three MFA tags only "1.1.2" is kept for cis |
| Mapper.PenalisedScore | backend/compliance/mapper.py:179-188 | the score is not negative, 0 without controls, at most 100, and the plain pass percentage without critical findings |
| Mapper.StatusOf | backend/compliance/mapper.py:192-202 | a control's status keeps its id and name, fails exactly when its id is failed, and a passing control lists no findings |
| Mapper.ControlTable.constructor | backend/compliance/mapper.py:30-85 | the shared table starts as the eight-rule FINDING_TO_CONTROL_MAP |
| Mapper.ComplianceMapper.constructor | backend/compliance/mapper.py:87-98 | the framework ids are lower-cased and loaded from the catalog files |
| Mapper.ComplianceMapper.LoadFrameworks | backend/compliance/mapper.py:100-126 | unknown ids are skipped, a missing file gets the stub, an unparseable one is left out |
| Mapper.ComplianceMapper.MapToFramework | backend/compliance/mapper.py:128-222 | the result's counts, score, failed set and per-control statuses (a failed control lists exactly the findings filed under it, in input order), and the table as grown by the pass |
| Mapper.ComplianceMapper.MarkFindings | backend/compliance/mapper.py:156-177 | the finding loop grows the shared table, collects exactly the failed controls, and files under each control the (id, title, severity) of every finding whose control list holds it, in input order, once per occurrence |
| Mapper.ComplianceMapper.GetFrameworkSummary | backend/compliance/mapper.py:273-283 | the id is lower-cased, name and version default, and the counts are of the loaded document |
| Mapper.GatherControls | backend/compliance/mapper.py:160-167 | a finding's control list is the table's list followed by the accepted explicit tags |
| Mapper.MarkControls | backend/compliance/mapper.py:169-177 | every listed control joins the failed set, and each control's list gains the finding once per time the control is listed |
| Mapper.FileUnder | backend/compliance/mapper.py:170-177 | one control joins the failed set and the finding is appended to its list (a new list when it had none), no other list changing |
| Mapper.RefsForFacts | backend/compliance/mapper.py:169-177 | a finding files something under a control exactly when its list holds the control, and only itself |
| Mapper.FindingsOfControlFacts | backend/compliance/mapper.py:156-177 | a control collects findings exactly when it is failed, and only findings of the input |
| Mapper.StatusList | backend/compliance/mapper.py:191-202 | one status per catalog control, failed exactly when its id failed, and then carrying that id's findings list |
| Mapper.UnloadedFrameworkScoresZero | backend/compliance/mapper.py:146-188 | an unloaded or stub framework has no controls and scores 0 |
| Mapper.UnknownFrameworkSkipped | backend/compliance/mapper.py:110-113 | an unknown framework id leaves the loaded data unchanged |
| Mapper.MissingFileGetsStub | backend/compliance/mapper.py:123-126 | a missing catalog file gives a stub entry without controls |
| Engine.CollectionIsolated | backend/assessment/engine.py:142-193 | each of the five collectors fills exactly its own key; a failing one leaves an error entry carrying its message and a succeeding one stores its data, whatever the other collectors did |
| Engine.Index | backend/assessment/engine.py:318-436 | every finding rule has a position among the eight rules in source order |
| Engine.RuleOfId | backend/assessment/engine.py:329 | a finding id built as code plus assessment-id prefix gives back the rule code |
| Engine.CodeParts | backend/assessment/engine.py:329-429 | every rule code is a prefix, a dash and a number, neither part holding a dash |
| Engine.IdNamesRule | backend/assessment/engine.py:329-429 | the id of the finding a rule builds names that rule |
| Engine.CodesDistinct | backend/assessment/engine.py:329-429 | two rules with the same code are the same rule |
| Engine.AllRulesComplete | backend/assessment/engine.py:318-436 | every rule is in the rule list |
| Engine.AllRulesListed | backend/assessment/engine.py:318-436 | the rule list holds every rule exactly once |
| Engine.EmittedAppend | backend/assessment/engine.py:318-436 | the findings of two rule lists in a row are the findings of the first followed by those of the second |
| Engine.EmittedOne | backend/assessment/engine.py:318-436 | a one-rule list emits exactly that rule's block |
| Engine.EmittedSnoc | backend/assessment/engine.py:318-436 | adding a rule at the end appends its block |
| Engine.RawFindingsBlocks | backend/assessment/engine.py:318-436 | the unsorted finding list is the eight blocks in source order: MFA-001, MFA-002, PRIV-001, RISK-001, DEV-001, BKP-001, BKP-002, THR-001 |
| Engine.EmittedMembers | backend/assessment/engine.py:318-440 | a finding is in the sorted list of a complete rule list exactly when some rule fires and builds it |
| Engine.EmittedDistinct | backend/assessment/engine.py:318-436 | a rule list that repeats no rule emits no finding twice, because different rules build findings with different ids |
| Engine.SortedEmittedRaised | backend/assessment/engine.py:318-440 | sorting the findings of a complete rule list keeps exactly the raised findings, and each of them once when the list repeats no rule |
| Engine.FindingsMembers | backend/assessment/engine.py:318-442 | the generated findings are exactly the raised findings, and no finding appears twice |
| Engine.RaisedRule | backend/assessment/engine.py:318-436 | a raised finding naming a rule comes from that rule firing, with that rule's severity |
| Engine.RaisedByRule | backend/assessment/engine.py:318-436 | a list of exactly the raised findings holds a finding of a rule if and only if the rule's threshold is crossed, and that finding is the one the rule builds |
| Engine.FindingsByRule | backend/assessment/engine.py:318-442 | the generated findings hold a rule's finding if and only if its threshold is crossed (admin MFA under 100, user MFA under 95, more than 5 global admins, any high-risk user, compliance under 90, backup not configured, protection under 90, any critical alert) |
| Engine.BackupBlocksExclusive | backend/assessment/engine.py:401-420 | the two backup findings never fire together |
| Engine.AtMostSevenFindings | backend/assessment/engine.py:318-442 | at most seven findings are generated, because the backup ones exclude each other |
| Engine.FindingsSortedStably | backend/assessment/engine.py:438-440 | the findings are ordered by severity rank, are a permutation of the unsorted list, and keep the source order inside each rank |
| Engine.IdentitySilent | backend/assessment/engine.py:323-378 | when identity collection failed, no identity rule fires, since every lookup falls back to its default |
| Engine.DevicesSilent | backend/assessment/engine.py:381-395 | when device collection failed, the device rule does not fire |
| Engine.BackupSilent | backend/assessment/engine.py:398-420 | when backup collection failed, neither backup rule fires |
| Engine.ThreatsSilent | backend/assessment/engine.py:423-436 | when threat collection failed, the threat rule does not fire |
| Engine.RaisedSilent | backend/assessment/engine.py:318-436 | no raised finding belongs to a category whose collection failed |
| Engine.FailedDomainsAreSilent | backend/assessment/engine.py:142-442 | no generated finding belongs to a category whose collection failed |
| Engine.BackupFailureYieldsMissingBackup | backend/assessment/engine.py:264-285 | when the backup collector raises, the not-configured entry produces BKP-001 and a backup score of 0 |
| Engine.ScoreSheetFacts | backend/assessment/engine.py:444-467 | the overall score is in 0..100 and within 0.05 of the unrounded score, the grade comes from the unrounded score, and a failed secure-score collection gives the default 50 |
| Engine.GradeBeforeRounding | backend/assessment/engine.py:459-464 | an unrounded 89.96 is graded B although it is shown as 90.0, which is an A |
| Engine.CountsSum | backend/assessment/engine.py:566-572 | the five severity counts add up to the number of findings whose severity is one of the five levels |
| Engine.SeverityLevel | backend/assessment/engine.py:318-436 | every rule's severity is critical or high |
| Engine.RaisedCountsCover | backend/assessment/engine.py:566-572 | for a list of exactly the raised findings the five counts add up to its length |
| Engine.ManifestCountsCoverFindings | backend/assessment/engine.py:559-572 | the manifest's severity counts add up to the number of generated findings |
| Engine.DurationNeedsBothTimes | backend/assessment/engine.py:561-563 | the duration is 0 unless both times are set, and otherwise lies between 0 and the elapsed time |
| Engine.AppendMfaGaps | backend/assessment/engine.py:325-350 | appends the MFA-001 and MFA-002 blocks |
| Engine.AppendPrivileged | backend/assessment/engine.py:352-364 | appends the PRIV-001 block |
| Engine.AppendRisky | backend/assessment/engine.py:366-378 | appends the RISK-001 block |
| Engine.AppendDevices | backend/assessment/engine.py:380-395 | appends the DEV-001 block |
| Engine.AppendBackup | backend/assessment/engine.py:397-420 | appends the BKP-001 or BKP-002 block |
| Engine.AppendThreats | backend/assessment/engine.py:422-436 | appends the THR-001 block |
| Engine.ScoresOf | backend/assessment/engine.py:473-480 | the compliance score map has one entry per framework result, holding its score |
| Engine.Recorded | backend/assessment/engine.py:480 | recording results keeps earlier scores of other frameworks and overwrites those of mapped ones |
| Engine.RecordedStep | backend/assessment/engine.py:473-480 | recording one more result is one more map update |
| Engine.RecordedFresh | backend/assessment/engine.py:480 | recording into an empty map gives exactly the result scores |
| Engine.AssessmentEngine.constructor | backend/assessment/engine.py:43-126 | sets the identity and branding fields, leaves times unset and all results empty, and builds the mapper over the lower-cased frameworks |
| Engine.AssessmentEngine.CollectAll | backend/assessment/engine.py:142-200 | the raw data is the collected snapshot and both times are set |
| Engine.AssessmentEngine.GenerateFindings | backend/assessment/engine.py:318-442 | returns the sorted findings of the raw data |
| Engine.AssessmentEngine.CalculateScores | backend/assessment/engine.py:444-467 | returns the score sheet of the raw data |
| Engine.AssessmentEngine.MapToFrameworks | backend/assessment/engine.py:469-482 | returns one result per framework and records each score under the compliance key, changing nothing else |
| Engine.AssessmentEngine.Analyze | backend/assessment/engine.py:298-316 | findings, scores and compliance results are those of the unchanged raw data |
| Engine.AssessmentEngine.GetManifest | backend/assessment/engine.py:559-598 | the manifest carries the ids, version 2.0.0, the domain from the first 8 tenant-id characters, the start time as its date (the current time when unset), the duration, the recorded score sheet with its compliance entry, the per-severity counts and the brand's company and logo |
| Comparison.DirectionOf | backend/assessment/comparison.py:143 | improved exactly for a positive change, declined exactly for a negative one |
| Comparison.ScoreDiff | backend/assessment/comparison.py:140-150 | keeps both scores, the direction follows the sign of the unrounded change, the change is within 0.05 of it, and the percentage is 0 when the previous score is not positive and otherwise within 0.05 of the change as a percentage of the previous score |
| Comparison.KeyedDiffs | backend/assessment/comparison.py:169-187 | one delta per key of either side, a missing side read as 0 |
| Comparison.DiffScores | backend/assessment/comparison.py:173-177 | the loop over the union of keys builds the keyed deltas |
| Comparison.ScoreComparisonSwap | backend/assessment/comparison.py:135-189 | swapping the two assessments turns every improvement into a decline and keeps the key sets |
| Comparison.KeyedDiffsSwap | backend/assessment/comparison.py:169-187 | swapping the two sides of a keyed comparison swaps improved and declined on every key |
| Comparison.ComplianceDeltas | backend/assessment/comparison.py:285-303 | one row per framework of either side |
| Comparison.ComplianceRow | backend/assessment/comparison.py:292-301 | keeps both scores, the change is within 0.05 of the difference and the direction follows its sign |
| Comparison.ComplianceMatchesScores | backend/assessment/comparison.py:179-187 | the compliance comparison agrees row by row with the compliance part of the score comparison |
| Comparison.PutShape | backend/assessment/comparison.py:204-205 | inserting into the signature table keeps a key's first position and replaces its finding with the latest one |
| Comparison.IndexShape | backend/assessment/comparison.py:201-205 | the signature table has distinct keys, exactly the signatures of the findings, each mapped to a finding with that signature |
| Comparison.KeyFilterCount | backend/assessment/comparison.py:207-237 | filtering the table by a key predicate keeps as many entries as keys that pass |
| Comparison.HistogramTotal | backend/assessment/comparison.py:240-246 | the four counts add up to the entries with a counted severity, fewer than all when some severity is missing or unknown |
| Comparison.CountBySeverity | backend/assessment/comparison.py:240-246 | the counting loop gives the severity histogram |
| Comparison.FindingsCounts | backend/assessment/comparison.py:248-254 | resolved, new and persistent counts are the sizes of the signature set differences and intersection, and the net change is resolved minus new |
| Comparison.TableCount | backend/assessment/comparison.py:207-237 | filtering the table by a key predicate keeps as many entries as signatures that pass |
| Comparison.FindingsPartition | backend/assessment/comparison.py:207-237 | resolved plus persistent covers every previous signature and new plus persistent every current one |
| Comparison.FindingsSwap | backend/assessment/comparison.py:191-270 | swapping the assessments swaps resolved and new and negates the net change |
| Comparison.FindingsMembers | backend/assessment/comparison.py:207-237 | each resolved entry comes from a previous finding with no current match, each new one from an unmatched current finding, and each persistent one from a matched current finding with the days-open estimate |
| Comparison.TrendOf | backend/assessment/comparison.py:317-328 | each of the four trends holds exactly on its region of score change and net findings change, checked in source order |
| Comparison.TrendMonotone | backend/assessment/comparison.py:317-328 | a larger score change and net change never give a worse trend |
| Comparison.HighlightsIff | backend/assessment/comparison.py:330-357 | each highlight appears exactly when its condition holds |
| Comparison.HighlightsOnly | backend/assessment/comparison.py:330-357 | no other highlight appears and there are at most four |
| Comparison.HighlightsParts | backend/assessment/comparison.py:330-357 | the highlights come in the order score, resolved, new critical, grade |
| Comparison.ComparisonEngine.constructor | backend/assessment/comparison.py:39-45 | both manifests and both finding lists start empty |
| Comparison.ComparisonEngine.LoadAssessments | backend/assessment/comparison.py:49-81 | a present file replaces the empty default, and loading fails exactly when the previous manifest is missing |
| Comparison.ComparisonEngine.CalculateDaysOpen | backend/assessment/comparison.py:272-283 | whole days between the two dates, rounded down, and 0 when either date does not parse |
| Comparison.ComparisonEngine.CompareScores | backend/assessment/comparison.py:135-189 | returns the score comparison of the two manifests |
| Comparison.ComparisonEngine.CompareFindings | backend/assessment/comparison.py:191-270 | returns the findings comparison of the two finding lists |
| Comparison.ComparisonEngine.CompareCompliance | backend/assessment/comparison.py:285-303 | returns the compliance rows of the two manifests |
| Comparison.ComparisonEngine.GenerateComparison | backend/assessment/comparison.py:83-104 | the comparison's parts are the score, findings and compliance comparisons and the summary built from them |
| Comparison.Open | backend/assessment/comparison.py:27-47 | construction fails exactly when the previous manifest is missing, and otherwise holds what was loaded |
| Accountability.SlaDaysValues | backend/collectors/accountability.py:33-38 | SLA windows are 7, 14, 30 and 90 days by severity, 30 for any other severity, so always 7..90 |
| Accountability.SlaVerdict | backend/collectors/accountability.py:76-103 | a finding whose status is present but null never counts towards the SLA, and a dated finding without a status counts as open |
| Accountability.PatchSlaCounts | backend/collectors/accountability.py:72-108 | the total counts exactly the resolved and open findings with a date, a missing status read as open and a null one as neither, and the in-SLA count never exceeds it |
| Accountability.PatchSlaBounds | backend/collectors/accountability.py:108-112 | the compliance percentage lies in 0..100 and is 100 when nothing missed its SLA, including when nothing counted |
| Accountability.RoundedShare | backend/collectors/accountability.py:109-112 | the rounded share of met items lies in 0..100 and is 100 when none missed |
| Accountability.CollectPatchSlaCompliance | backend/collectors/accountability.py:52-134 | the loop over findings gives the patch SLA record |
| Accountability.AgeTotal | backend/collectors/accountability.py:319-353 | the total open count equals the number of open, dated findings, each in exactly one age bucket |
| Accountability.CalculateAgeDistribution | backend/collectors/accountability.py:319-353 | the loop gives the age buckets |
| Accountability.TotalBounds | backend/collectors/accountability.py:381 | a sum of durations between lo and hi lies between count times lo and count times hi |
| Accountability.MeanBounds | backend/collectors/accountability.py:395-397 | the mean of durations is 0 for none and otherwise lies between their bounds |
| Accountability.AverageBounds | backend/collectors/accountability.py:395-397 | an average of a total within count times the bounds lies within the bounds |
| Accountability.MttrFacts | backend/collectors/accountability.py:355-399 | critical and high resolutions are among all resolutions, all averages are 0 when nothing was resolved, and the overall average lies within the duration bounds |
| Accountability.TotalSnoc | backend/collectors/accountability.py:381 | adding a duration adds it to the total |
| Accountability.DurationsStep | backend/collectors/accountability.py:366-392 | one more finding adds its duration and one to the count exactly when it matches |
| Accountability.SumsStep | backend/collectors/accountability.py:366-392 | one loop step adds one finding's resolution to the six running sums |
| Accountability.MttrFromSums | backend/collectors/accountability.py:394-399 | the MTTR record is the three averages of the running sums and the resolved count |
| Accountability.CalculateMttrFromFindings | backend/collectors/accountability.py:355-399 | the loop's running sums and averages are exactly the MTTR record of the findings, whose bounds Accountability.MttrFacts states |
| Accountability.AddResolution | backend/collectors/accountability.py:366-392 | one pass adds a resolved finding with both dates to the overall totals and to its severity's totals when critical or high, and leaves the totals unchanged otherwise |
| Accountability.TallySnoc | backend/collectors/accountability.py:256-274 | one more dated finding adds one to its week |
| Accountability.WeekAbsent | backend/collectors/accountability.py:256-274 | a week not among the dates has no entries |
| Accountability.TallyKeys | backend/collectors/accountability.py:256-274 | the weekly tallies have exactly the weeks that occur |
| Accountability.TallySumBump | backend/collectors/accountability.py:292-294 | raising one week's tally raises the sum over a week list by one exactly when the week is in it |
| Accountability.TallySumCounts | backend/collectors/accountability.py:292-294 | summing the tallies over a list covering all weeks gives the number of dated findings |
| Accountability.TallySumEmpty | backend/collectors/accountability.py:292-294 | the sum over no tallies is 0 |
| Accountability.SortedKeys | backend/collectors/accountability.py:277 | the weeks come out sorted, each once, exactly the given keys |
| Accountability.InsertMembers | backend/collectors/accountability.py:277 | inserting a week adds exactly that week |
| Accountability.SortedKeysDistinct | backend/collectors/accountability.py:277 | a list as long as the key set holding exactly its keys has no duplicates |
| Accountability.SetOfSeqBound | backend/collectors/accountability.py:277 | a set inside a list is no larger than the list |
| Accountability.TallyWeeks | backend/collectors/accountability.py:253-274 | the loop gives the created and resolved tallies per week |
| Accountability.WeeklyRows | backend/collectors/accountability.py:280-288 | one row per week with its two tallies |
| Accountability.RemediationVelocity | backend/collectors/accountability.py:244-295 | the velocity rows are in week order, cover exactly the weeks seen, have net equal to resolved minus created, and the totals count the dated findings |
| Accountability.VelocityFacts | backend/collectors/accountability.py:276-295 | rows and totals built from the sorted weeks meet the velocity properties |
| Accountability.VelocityRowsFacts | backend/collectors/accountability.py:280-288 | each row's net is resolved minus created, the weeks strictly increase and they are exactly the keys |
| Accountability.MttrPoints | backend/collectors/accountability.py:423-430 | the MTTR points lie in 0..100 |
| Accountability.MttrPointsMonotone | backend/collectors/accountability.py:423-430 | a longer MTTR never earns more points |
| Accountability.AccountabilityGrade | backend/collectors/accountability.py:433-440 | each of A, B, C, D holds exactly on its band: 80, 70, 60 and below |
| Accountability.CalculateAccountabilityScore | backend/collectors/accountability.py:401-450 | returns the accountability score record |
| Accountability.AccountabilityScoreBounds | backend/collectors/accountability.py:401-450 | with a positive target and consistent buckets the score and its SLA and age parts lie in 0..100 |
| Accountability.AccountabilityNeedsTarget | backend/collectors/accountability.py:411 | the score is missing exactly when the SLA target is 0, where the source divides by zero |
| Backup.NewestTotal | backend/collectors/backup.py:81 | ordering jobs by end time, newest first, is a total preorder |
| Backup.LastSuccessfulFacts | backend/collectors/backup.py:75-83 | there is no last successful job exactly when no job completed; otherwise it is a completed job with the latest end time, the first such in job order |
| Backup.ProtectedPercentFacts | backend/collectors/backup.py:68-72 | the protected percentage lies in 0..100, is 100 exactly from 10 protected items, and is ten times the count below that |
| Backup.HealthStatus | backend/collectors/backup.py:93-98 | healthy exactly from 90 percent with a backup under 24 hours old or no age, warning exactly from 70 percent and under 48 hours when not healthy, at risk otherwise |
| Backup.BackupHealthFacts | backend/collectors/backup.py:33-121 | not configured exactly when the fetch failed or no vault exists, and then all counts are 0; otherwise the percentage is in 0..100, critical systems are at least 10 and at least the protected items, and the status follows the rule |
| Backup.HealthyNeedsNine | backend/collectors/backup.py:68-98 | a configured tenant is healthy exactly when at least 9 items are protected and the last backup is recent or undated |
| Backup.StatusForMetric | backend/collectors/backup.py:179-185 | healthy exactly within target, warning exactly up to one and a half times the target, at risk beyond |
| Backup.WorseOfIsMax | backend/collectors/backup.py:190-196 | the overall status is the worse of RTO and RPO, symmetric and one of the two |
| Backup.NoVaultRaises | backend/collectors/backup.py:139-152 | as written, the no-vault and fetch-error paths omit required fields of the readiness record and so raise |
| Backup.RecoveryReadinessFacts | backend/collectors/backup.py:123-220 | not configured exactly without vaults, with both parts not configured too; otherwise RTO is healthy at 18 hours, RPO defaults to the 4-hour target when no job is dated, and the overall status is the worse of the two |
| Devices.CollectDeviceCompliance | backend/collectors/devices.py:43-94 | the counting loop gives the compliance record |
| Devices.DeviceComplianceFacts | backend/collectors/devices.py:57-71 | compliant, non-compliant and unknown add up to the device count, the percentage is in 0..100, 0 with no compliant device and 100 when all are compliant |
| Devices.UnsetVersionRaises | backend/collectors/devices.py:215-216 | as written, a device without an OS version makes the substring test raise, while the corrected rule simply finds no outdated version |
| Devices.FailureReasons | backend/collectors/devices.py:203-233 | the reason list is never empty |
| Devices.DetermineFailureReasons | backend/collectors/devices.py:203-233 | the appending code gives the reason list |
| Devices.FailureReasonsFacts | backend/collectors/devices.py:209-233 | not encrypted exactly when unencrypted, outdated OS exactly for builds 10.0.19041 or 10.0.18, a sync reason exactly when the last sync is over 14 days old, the fallback reason exactly when none of these hold, and this agrees with the code as written whenever a version is set |
| Devices.GetNonCompliantDevices | backend/collectors/devices.py:96-118 | the rows are the non-compliant devices in input order |
| Devices.NonCompliantDevicesFacts | backend/collectors/devices.py:102-116 | there are as many rows as non-compliant devices, every non-compliant device has its row, and every row has reasons and a non-compliant state |
| Devices.SummaryStep | backend/collectors/devices.py:170-191 | one loop step bumps the OS count, one encryption counter and possibly the stale list |
| Devices.GetDeviceSummary | backend/collectors/devices.py:157-201 | the loop gives the device summary |
| Devices.DeviceSummaryFacts | backend/collectors/devices.py:170-201 | encrypted plus not encrypted is the total, the OS breakdown has exactly the systems seen, each positive, summing to the total, and the stale count is the stale list's length |
| Threats.AlertSummaryFacts | backend/collectors/threats.py:43-76 | high is never negative and critical plus high is the active high alerts, the four counts stay within the active count, and that is the number of alerts neither resolved nor dismissed |
| Threats.SeverityCountsBound | backend/collectors/threats.py:51-53 | the high, medium and low-or-informational counts together stay within the active alerts |
| Threats.SeverityRank | backend/collectors/threats.py:100 | every severity has a rank from 0 to 4 |
| Threats.GetActiveAlerts | backend/collectors/threats.py:78-103 | returns the active alerts' rows, stably sorted by rank |
| Threats.ActiveAlertsFacts | backend/collectors/threats.py:78-103 | the result is a permutation of the active rows, as many as the active count, ordered by rank, stable within a rank, holding every active alert and no resolved or dismissed one |
| Threats.RankSorted | backend/collectors/threats.py:100-101 | sorting by rank gives a permutation ordered by rank and stable within each rank |
| Threats.BlockedThreatsFacts | backend/collectors/threats.py:105-139 | the total is phishing plus malware, multiples of 10 and 5, at most 15 per alert, and 0 exactly when no alert mentions phishing or malware |
| Threats.MentionCountAsWrittenFacts | backend/collectors/threats.py:122-123 | counting mentions as written succeeds exactly when every alert has a category, and then gives the corrected count |
| Threats.BlockedThreatsAsWrittenFacts | backend/collectors/threats.py:105-139 | the collection as written returns the corrected estimate exactly when every alert has a category, and raises otherwise |
| Threats.UnsetCategoryRaises | backend/collectors/threats.py:122-123 | a phishing alert with a null category makes the collection as written raise, while the corrected estimate counts 10 |
| Threats.AlertsByCategory | backend/collectors/threats.py:141-152 | the loop gives the per-category tally |
| Threats.AlertsByCategoryFacts | backend/collectors/threats.py:141-152 | the tally has exactly the categories seen, each positive, and sums to the number of alerts |
| SecureScore.Percentile | backend/collectors/secure_score.py:200-219 | the percentile is one of 95, 75, 50, 35, 20, 10, with 95 exactly from 80 and 10 exactly below 40 |
| SecureScore.PercentileMonotone | backend/collectors/secure_score.py:208-219 | a higher score never gets a lower percentile |
| SecureScore.PercentileBands | backend/collectors/secure_score.py:210-217 | 75, 50, 35 and 20 each hold exactly on their ten-point band |
| SecureScore.ComparisonLabel | backend/collectors/secure_score.py:221-234 | Top 10% exactly from 90 and Bottom 25% exactly below 25 |
| SecureScore.LabelOfScore | backend/collectors/secure_score.py:200-234 | the label of a score's percentile by score band: Top 10% from 80, Top 25% from 70, Top 50% from 60, Bottom 50% from 50, Bottom 25% below |
| SecureScore.GetImprovementActions | backend/collectors/secure_score.py:128-153 | returns the rows of controls with positive potential, sorted by potential, largest first |
| SecureScore.ImprovementActionsFacts | backend/collectors/secure_score.py:138-151 | the actions are a permutation of the rows for exactly the controls with positive potential, ordered by potential descending and stable among ties |
| SecureScore.PotentialSorted | backend/collectors/secure_score.py:151 | sorting by potential gives a permutation in descending order, stable among ties |
| SecureScore.TrendFacts | backend/collectors/secure_score.py:155-198 | no trend without a history store or history, stable at 0 with fewer than two points, otherwise up exactly above +0.5 and down exactly below -0.5, and a change percentage of 0 when the oldest score is not positive |
| Identity.AdminCount | backend/collectors/identity.py:82-84 | counting registered users among the admins is counting registered admins |
| Identity.MfaCoverageFacts | backend/collectors/identity.py:63-107 | registered admins are at most the admins, who are at most the users; both percentages lie in 0..100; admin coverage is 100 with no admins, user coverage 0 with no users, and 100 when everybody is registered |
| Identity.CountZeroNone | backend/collectors/identity.py:79-84 | a count of 0 means no record matches |
| Identity.UsersWithoutMfaFacts | backend/collectors/identity.py:109-126 | one row per unregistered user, every unregistered user has a row, and a registered user's row appears only when an unregistered one has the same row |
| Identity.PrincipalsBound | backend/collectors/identity.py:158-164 | there are no more distinct privileged principals than privileged assignments |
| Identity.PrincipalsSnoc | backend/collectors/identity.py:164 | one more assignment adds its principal exactly when its role is privileged |
| Identity.PrivilegedAccountsFacts | backend/collectors/identity.py:132-188 | the global-admin and principal counts stay within the privileged assignments, a global admin implies a privileged principal, PIM active equals the principal count and PIM eligible is 0 |
| Identity.RoleLookupKeys | backend/collectors/identity.py:202 | the role lookup has exactly the role ids |
| Identity.UserLookupKeys | backend/collectors/identity.py:203 | the user lookup has exactly the user ids |
| Identity.MfaLookupSound | backend/collectors/identity.py:204 | the MFA lookup has exactly the user ids of the records, each mapped to a registration flag of a record for that user |
| Identity.AddRoleNew | backend/collectors/identity.py:214-216 | a role for a new user opens a new group at the end |
| Identity.AddRoleExisting | backend/collectors/identity.py:214-216 | a role for a known user is appended to that user's group, nothing else changing |
| Identity.AddRoleAtHead | backend/collectors/identity.py:214-216 | appending to the first group leaves the other groups alone |
| Identity.AddRoleBehind | backend/collectors/identity.py:214-216 | appending to a later group keeps the first one |
| Identity.GroupedStep | backend/collectors/identity.py:208-216 | one more assignment keeps the grouping invariant: groups in first-appearance order, one per privileged principal, with its roles in assignment order |
| Identity.GroupedExisting | backend/collectors/identity.py:214-216 | the invariant survives a role for a principal already seen |
| Identity.GroupedNew | backend/collectors/identity.py:214-216 | the invariant survives a role for a new principal |
| Identity.NoneHeld | backend/collectors/identity.py:208-216 | a principal with no privileged role holds no role |
| Identity.UserRolesShape | backend/collectors/identity.py:206-216 | the grouping of all assignments meets the invariant |
| Identity.PrivilegedUsersDetail | backend/collectors/identity.py:190-230 | the loops give one detail row per group |
| Identity.PrivilegedUsersDetailFacts | backend/collectors/identity.py:207-230 | one row per distinct privileged principal, as many as the privileged role count, each listing its roles in assignment order, never empty, with the directory name or Unknown and MFA false without a record |
| Identity.GroupedCount | backend/collectors/identity.py:207-216 | there are as many groups as privileged principals |
| Identity.GroupedNonEmpty | backend/collectors/identity.py:214-216 | no group is empty |
| Identity.RiskyUsersFacts | backend/collectors/identity.py:236-280 | the three level counts and the investigation count stay within the users; all dismissed means none to investigate and all at level none means no level counts |
| VendorRisk.GetGuestUserInventory | backend/collectors/vendor_risk.py:38-89 | one inventory row per guest |
| VendorRisk.GuestInventoryFacts | backend/collectors/vendor_risk.py:51-76 | each row keeps the guest's id, email and sign-in, is stale exactly when the sign-in is set and over 90 days old, has no inactivity without a sign-in, and carries the fixed source and access level |
| VendorRisk.EmailDomainOf | backend/collectors/vendor_risk.py:105-106 | the domain of an address is the lower-cased part after the at sign |
| VendorRisk.GetGuestUserSummary | backend/collectors/vendor_risk.py:91-115 | the loop gives the guest summary |
| VendorRisk.DomainStep | backend/collectors/vendor_risk.py:103-107 | one more guest with an address bumps its domain, opening it at the end when new |
| VendorRisk.GuestSummaryCounts | backend/collectors/vendor_risk.py:97-113 | the total is the number of guests, stale and never-signed-in guests are disjoint, so the active count is never negative |
| VendorRisk.StaleNeedsSignIn | backend/collectors/vendor_risk.py:57-73 | a stale guest has a sign-in |
| VendorRisk.DomainItemsEntries | backend/collectors/vendor_risk.py:102-107 | each domain item names a seen domain with its positive count |
| VendorRisk.DomainItemsCover | backend/collectors/vendor_risk.py:102-107 | there is one item per seen domain |
| VendorRisk.CountSorted | backend/collectors/vendor_risk.py:114 | sorting by count gives a permutation in descending order |
| VendorRisk.TopOfItems | backend/collectors/vendor_risk.py:114 | the top list has at most ten entries, all from the items, in descending order |
| VendorRisk.TopOfItemsLeftOut | backend/collectors/vendor_risk.py:114 | an item left out of the top list only happens beyond ten items and has no larger count than any kept one |
| VendorRisk.TopDomainsFacts | backend/collectors/vendor_risk.py:109-114 | at most ten top domains, each a seen domain with its count, in descending order |
| VendorRisk.TopDomainsLeftOut | backend/collectors/vendor_risk.py:114 | a domain missing from the top list only happens beyond ten domains and does not outnumber any listed one |
| VendorRisk.GetHighRiskApps | backend/collectors/vendor_risk.py:178-208 | returns a marked copy of each app with a risky permission, in input order |
| VendorRisk.HighRiskAppsFacts | backend/collectors/vendor_risk.py:188-208 | exactly the apps meeting the high-risk set appear, each marked high and listing exactly its risky permissions |
| VendorRisk.CalculateVendorRiskScore | backend/collectors/vendor_risk.py:263-300 | the running deductions give the vendor risk score |
| VendorRisk.VendorRiskFacts | backend/collectors/vendor_risk.py:273-295 | the score lies in 0..100, is 100 with nothing to deduct, loses at most 45 besides the app deductions, and is low from 80, medium from 60, high below |
| VendorRisk.VendorRiskMonotone | backend/collectors/vendor_risk.py:273-288 | more stale guests, risky apps, anonymous links or undated shares never raise the score |
| VendorRisk.PlaceholderSharingCapsScore | backend/collectors/vendor_risk.py:223-230 | with the fixed sharing figures the score is at most 75, so never low risk |
| LiveData.SizeCategory | backend/services/live_data_service.py:163-174 | each of the five size labels holds exactly on its user-count band: 0, up to 50, up to 250, up to 1000, above |
| LiveData.LastWhere | backend/services/live_data_service.py:122-148 | the benchmark slot keeps the last comparison of its basis, and is empty exactly when there is none |
| LiveData.LastWhereStep | backend/services/live_data_service.py:122-148 | one more comparison replaces the slot exactly when it has that basis |
| LiveData.GetSecureScore | backend/services/live_data_service.py:99-161 | the loop over comparisons gives the live secure-score record, or the stand-in record when nothing was fetched |
| LiveData.BenchmarkFacts | backend/services/live_data_service.py:124-148 | above, below and equal each hold exactly by comparing the current score with the average, the difference has the matching sign, and the average percent is the average over the maximum |
| LiveData.CompareToVerdicts | backend/services/live_data_service.py:131 | above exactly when greater, below exactly when smaller, equal exactly when equal |
| LiveData.DifferenceSign | backend/services/live_data_service.py:125-132 | the rounded percent difference is non-negative when the current score is at least the average and non-positive when at most |
| LiveData.SecureScoreFacts | backend/services/live_data_service.py:104-158 | a fetched score is live with percentile 0, percent 0 when the maximum is not positive and in 0..100 for a score within the maximum, and each benchmark slot is filled exactly when a comparison of its basis exists, only the size slot holding a size category |
| LiveData.MfaCoverageAgrees | backend/services/live_data_service.py:194-220 | the live MFA counts and percentages agree with the collector's and stay in range |
| LiveData.DeviceComplianceFacts | backend/services/live_data_service.py:346-370 | the three states add up to the device count, the percentage lies in 0..100, the sample is the first 20 devices, and with lower-case states the counts agree with the collector's |
| LiveData.NormalizeSeverityFacts | backend/services/live_data_service.py:392-404 | the first of critical, high, medium, low found in the lower-cased text wins, informational when none is |
| LiveData.SecurityAlertsFacts | backend/services/live_data_service.py:407-428 | the four counts (low including informational) add up to the number of alerts, active alerts are at most all alerts, and the sample is the first 20 |
| LiveData.LowerStatusClosed | backend/services/live_data_service.py:414-416 | resolved and dismissed are not active |
| LiveData.ClosedStaysClosed | backend/services/live_data_service.py:414-416 | an alert active by the substring test is active for the collector too |
| LiveData.LiveActiveWithinCollector | backend/services/live_data_service.py:414-418 | the live active count never exceeds the collector's |
| LiveData.GetHighRiskOperations | backend/services/live_data_service.py:535-579 | the filtering loop gives the high-risk operations record |
| LiveData.HighRiskOperationsFacts | backend/services/live_data_service.py:563-576 | the total counts exactly the logs in a risky category or with a risky activity, and at most 20 are kept, the first ones, all of them when there are no more than 20 |
| LiveData.SafeGet | backend/services/live_data_service.py:626-640 | a raised result becomes the default, and the flag is set when the result is live |
| LiveData.TrackAllFacts | backend/services/live_data_service.py:643-650 | after all calls each flag is its old value or the liveness of its own result, other flags unchanged |
| LiveData.PermissionStatusFacts | backend/services/live_data_service.py:614-650 | the eight flags start false and each ends true exactly when its call returned live data |
| LiveData.UsersRecheckRedundant | backend/services/live_data_service.py:652-654 | the second check of the users flag changes nothing |
| DepartmentAnalytics.WithBucket | backend/services/live_data_service.py:707-714 | a missing department gets an empty bucket at the end of the order, a present one is left alone |
| DepartmentAnalytics.DevicesFoldStep | backend/services/live_data_service.py:739-756 | one loop step adds one device |
| DepartmentAnalytics.GetDepartmentAnalytics | backend/services/live_data_service.py:683-790 | the three loops and sorting give the analytics record |
| DepartmentAnalytics.CountUsers | backend/services/live_data_service.py:702-716 | the user loop gives the folded user tally |
| DepartmentAnalytics.CountMfa | backend/services/live_data_service.py:720-736 | the MFA loop gives the folded MFA tally |
| DepartmentAnalytics.CountDevices | backend/services/live_data_service.py:739-756 | the device loop gives the folded device tally |
| DepartmentAnalytics.CountDevice | backend/services/live_data_service.py:740-756 | one device lands in its owner's department, or Unknown, and bumps its state counter |
| DepartmentAnalytics.FormatRows | backend/services/live_data_service.py:762-784 | MFA rows for departments with users and device rows for departments with devices, in bucket order |
| DepartmentAnalytics.PrefixStep | backend/services/live_data_service.py:762-784 | one more department adds at most one row to each list |
| DepartmentAnalytics.WithBucketWf | backend/services/live_data_service.py:707-714 | opening a bucket keeps the tally well formed: the order lists each bucket once |
| DepartmentAnalytics.UsersFoldWf | backend/services/live_data_service.py:702-716 | the user tally is well formed |
| DepartmentAnalytics.MfaFoldWf | backend/services/live_data_service.py:720-736 | the MFA loop keeps the tally well formed |
| DepartmentAnalytics.DevicesFoldWf | backend/services/live_data_service.py:739-756 | the device loop keeps the tally well formed |
| DepartmentAnalytics.TallyWellFormed | backend/services/live_data_service.py:702-756 | the final tally is well formed |
| DepartmentAnalytics.UsersStepAt | backend/services/live_data_service.py:702-716 | one more user keeps each department's user count right |
| DepartmentAnalytics.UsersFoldCounts | backend/services/live_data_service.py:702-716 | each department's user count is the number of its users |
| DepartmentAnalytics.MfaStepAt | backend/services/live_data_service.py:720-736 | one more MFA record keeps each department's registered count right |
| DepartmentAnalytics.MfaFoldCounts | backend/services/live_data_service.py:720-736 | each department's registered count is the number of registered records mapped to it |
| DepartmentAnalytics.DevicesStepHere | backend/services/live_data_service.py:739-756 | a device of a department keeps that department's device counts right |
| DepartmentAnalytics.DevicesStepElsewhere | backend/services/live_data_service.py:739-756 | a device of another department leaves this one's counts right |
| DepartmentAnalytics.DevicesFoldCounts | backend/services/live_data_service.py:739-756 | each department's device, compliant and non-compliant counts are those of the devices mapped to it |
| DepartmentAnalytics.TallyCountsAt | backend/services/live_data_service.py:702-756 | a department has a bucket exactly when some user, MFA record or device maps to it, holding its counts |
| DepartmentAnalytics.TallyCounts | backend/services/live_data_service.py:702-756 | every bucket of the final tally holds its department's counts, and only met departments have one |
| DepartmentAnalytics.DeptMapSnoc | backend/services/live_data_service.py:702-705 | one more user maps its lower-cased address to its department, overriding an earlier entry |
| DepartmentAnalytics.DeptMapKeys | backend/services/live_data_service.py:702-705 | the address map has exactly the lower-cased user addresses |
| DepartmentAnalytics.DeptMapLast | backend/services/live_data_service.py:702-705 | the last user with an address decides its department |
| DepartmentAnalytics.DeviceStatesBound | backend/services/live_data_service.py:752-756 | compliant plus non-compliant devices are at most all devices of a department |
| DepartmentAnalytics.RowsDepartments | backend/services/live_data_service.py:762-784 | rows built over distinct departments name exactly the passing departments, one row each |
| DepartmentAnalytics.MfaPassing | backend/services/live_data_service.py:767 | the departments with users are exactly the departments of the users |
| DepartmentAnalytics.DevicePassing | backend/services/live_data_service.py:777 | the departments with devices are exactly the departments the devices map to |
| DepartmentAnalytics.MfaUnsorted | backend/services/live_data_service.py:766-774 | before sorting, one MFA row per user department with its counts |
| DepartmentAnalytics.MfaRowAtCounts | backend/services/live_data_service.py:767-774 | an MFA row carries its department's user and registered counts |
| DepartmentAnalytics.DeviceRowAtCounts | backend/services/live_data_service.py:777-784 | a device row carries its department's device counts |
| DepartmentAnalytics.DeviceUnsorted | backend/services/live_data_service.py:776-784 | before sorting, one device row per device department with its counts |
| DepartmentAnalytics.PercentageSorted | backend/services/live_data_service.py:786-788 | sorting by percentage gives a permutation in ascending order, stable among ties |
| DepartmentAnalytics.MfaRowsFacts | backend/services/live_data_service.py:758-790 | the MFA rows cover each user department once, carry its counts and ascend by percentage |
| DepartmentAnalytics.DeviceRowsFacts | backend/services/live_data_service.py:758-790 | the device rows cover each device department once, carry its counts and ascend by percentage |
| DepartmentAnalytics.UndepartmentedAreUnknown | backend/services/live_data_service.py:704 | users without a department are counted in an Unknown MFA row |
| DepartmentAnalytics.UndepartmentedUnknown | backend/services/live_data_service.py:704 | a user without a department makes Unknown a user department |
| DepartmentAnalytics.UnknownRowTotal | backend/services/live_data_service.py:704-716 | the Unknown row counts at least the users without a department |
| DepartmentAnalytics.RowAt | backend/services/live_data_service.py:762-784 | a department named by the rows has a row at some position |
| DepartmentAnalytics.OverRegisteredTally | backend/services/live_data_service.py:720-736 | an MFA record for an unknown address is counted as registered in Unknown without being a user there |
| DepartmentAnalytics.MfaPercentageCanExceedHundred | backend/services/live_data_service.py:766-774 | such records can give an MFA row with a negative non-compliant count and 200 percent |
| DepartmentAnalytics.UserlessDeviceEmptiesAnalytics | backend/services/live_data_service.py:739-741 | as written, a device whose owner field is null makes the lookup raise and the whole result falls back to empty, while the corrected version still reports device rows |
| DepartmentAnalytics.UserlessDeviceCountedUnknown | backend/services/live_data_service.py:739-741 | corrected, such a device is counted in an Unknown device row |
| DepartmentAnalytics.UserlessDeviceDepartment | backend/services/live_data_service.py:740-741 | corrected, such a device maps to Unknown |
| DepartmentAnalytics.AsWrittenAgreesOtherwise | backend/services/live_data_service.py:683-790 | without such a device the code as written and the corrected version agree |
| Storage.FirstWithId | backend/services/storage_service.py:257-261 | the position found is the first entry with that id, and none is found exactly when no entry has it |
| Storage.UpsertReplacesFirstMatch | backend/services/storage_service.py:253-261 | a finding whose id matches replaces only the first match, with the old fields, the new fields winning, plus an update stamp, the length and every other entry unchanged |
| Storage.UpsertAppends | backend/services/storage_service.py:262-269 | a finding with no id or an unmatched id is appended once, carrying its id (generated when missing) and a creation stamp, the earlier entries unchanged |
| Storage.UpsertFindable | backend/services/storage_service.py:253-269 | after saving, the caller's finding has an id and an entry with that id is stored |
| Storage.SaveTwiceUpdates | backend/services/storage_service.py:253-261 | saving the same finding with an id twice adds no second entry |
| Storage.FilterFilter | backend/services/storage_service.py:295-305 | filtering by open status and then by severity is filtering by both |
| Storage.OpenFindingsFacts | backend/services/storage_service.py:276-307 | the open findings are, in stored order, exactly the stored entries whose status, open by default, is open and whose severity matches when one is given |
| Storage.NewOpenFindingListed | backend/services/storage_service.py:262-307 | a newly saved open finding comes last among the open findings |
| Storage.FixedFacts | backend/services/storage_service.py:113 | a zero-padded field has its width, only digits, and the value modulo the width's power of ten |
| Storage.DigitsValueConcat | backend/services/storage_service.py:113 | the value of two digit strings in a row is the first shifted by the second's length plus the second |
| Storage.DateStampFacts | backend/services/storage_service.py:109-113 | the date string of a valid date is eight digits without an underscore whose value is year, month and day in positional order |
| Storage.DateStampOrder | backend/services/storage_service.py:109-113 | on date strings, lexicographic order is date order |
| Storage.LastPartAfter | backend/services/storage_service.py:163 | the last underscore-separated part of a name ending in a date is that date |
| Storage.NewestFirstTotal | backend/services/storage_service.py:160 | ordering file names in reverse is a total preorder |
| Storage.FilterSorted | backend/services/storage_service.py:160-170 | dropping files keeps the newest-first order |
| Storage.HistoryFacts | backend/services/storage_service.py:145-179 | exactly the readable files with the prefix dated on or after the cutoff are kept, newest first, their contents returned in that order |
| Storage.KeptByDate | backend/services/storage_service.py:160-165 | a snapshot file is kept exactly when it is readable and its date is not before the cutoff |
| Storage.LoadSnapshots | backend/services/storage_service.py:160-172 | the loop returns the contents of the kept files in order |
| Storage.LocalStorageService.constructor | backend/services/storage_service.py:93-100 | the store starts with no files |
| Storage.LocalStorageService.SaveFinding | backend/services/storage_service.py:234-272 | the tenant's findings file becomes the upserted list and the caller's finding is updated in place as the source does |
| Storage.LocalStorageService.GetDashboardHistory | backend/services/storage_service.py:145-179 | returns the dashboard history for the type and cutoff |
| Storage.LocalStorageService.GetSecurityScoreHistory | backend/services/storage_service.py:205-232 | returns the score history for the cutoff |
| Storage.NoFileNoFindings | backend/services/storage_service.py:285-292 | a missing or unreadable findings file gives no open findings |
| Tenants.DecodeSecret | backend/services/tenant_manager.py:206-211 | reading a stored credential succeeds exactly when it holds a `:`; the client id read back has no `:` and re-encodes to the stored text |
| Tenants.SecretRoundTrip | backend/services/tenant_manager.py:74-78 | an encoded id and secret decode back to themselves exactly when the client id has no `:` |
| Tenants.SecretNamesDistinct | backend/services/tenant_manager.py:74 | two tenants share a vault secret name only when their ids are equal |
| Tenants.StoredCredentialsReadBack | backend/services/tenant_manager.py:73-78 | after registering, the tenant's credentials read back unchanged (when the client id has no `:`) and every other tenant's read is unchanged |
| Tenants.RegisteredReadsBack | backend/services/tenant_manager.py:85-108 | the record written at registration converts back to the registered id, name, directory id and active flag, with its creation time and no last sync |
| Tenants.ApplyUpdates | backend/services/tenant_manager.py:173-176 | the update loop yields the record with every unprotected key updated |
| Tenants.PatchedFacts | backend/services/tenant_manager.py:173-176 | an update never adds, drops or changes `id`, `created_at` or `partition_key`; every other updated key takes its new value; untouched keys keep theirs; the key set is the old one plus the unprotected updated keys |
| Tenants.PatchKeepsIdentity | backend/services/tenant_manager.py:173-186 | an updated tenant keeps its id and creation time |
| Tenants.DeactivatedIsInactive | backend/services/tenant_manager.py:188-193 | a deactivated tenant that converts reads as inactive |
| Tenants.TenantsNeedingSync | backend/services/tenant_manager.py:257-266 | the tenants due a sync are exactly the listed ones, in order, never synced or last synced before the cutoff |
| Tenants.NeedingSyncFacts | backend/services/tenant_manager.py:248-266 | a tenant is due exactly when it is listed and has no last sync or one older than the maximum age; a longer maximum age never makes more tenants due |
| Tenants.ConvertAll | backend/services/tenant_manager.py:139 | converting the cached records gives one tenant per record, each the record's own conversion, and fails exactly when some record does not convert |
| Tenants.ConvertOne | backend/services/tenant_manager.py:280-289 | converting a one-record list is that record's conversion |
| Tenants.CachedTenants | backend/services/tenant_manager.py:134-145 | listing the cached tenants fails exactly when a cached record does not convert; with `active_only` it returns exactly the active converted cached tenants, in cache order, as the database query does, and without it every converted cached tenant |
| Tenants.DeactivatedRecordReads | backend/services/tenant_manager.py:188-193 | a registered, then deactivated tenant reads back inactive, never synced |
| Tenants.DeactivatedTenantStillSynced | backend/services/tenant_manager.py:138-139 | without a database, listing only active tenants still returns a deactivated one, which the sync selection then picks; the corrected listing returns none |
| Tenants.TenantManager.constructor | backend/services/tenant_manager.py:29-55 | a new manager starts with an empty vault and cache and the given database |
| Tenants.TenantManager.CacheStore | backend/services/tenant_manager.py:100 | storing a record in the cache replaces that key only, and a new key goes last in the cache's order |
| Tenants.TenantManager.RegisterTenant | backend/services/tenant_manager.py:63-108 | registering stores the encoded credentials under the tenant's secret name, upserts the new record into the database when there is one, caches it, and returns the tenant with the return-time stamp and no last sync |
| Tenants.TenantManager.RotateCredentials | backend/services/tenant_manager.py:216-234 | rotating overwrites the tenant's secret with the new encoded credentials and reports true; when the vault write raises it changes nothing and reports false |
| Tenants.TenantManager.UpdateTenant | backend/services/tenant_manager.py:154-186 | a tenant found neither in the cache nor in the database changes nothing and yields none; a found one is patched, upserted, cached and returned converted |
| Tenants.TenantManager.DeactivateTenant | backend/services/tenant_manager.py:154-193 | deactivating reports false exactly when the tenant is not found, then changes nothing; otherwise the found record patched with `is_active` false is cached (a new key last) and upserted into the database when there is one, and the result is true, or the conversion's failure when the record does not convert |
| Branding.RoundTrip | backend/reports/branding.py:67-128 | reading back the dictionary a configuration writes gives that configuration |
| Branding.ColorsRoundTrip | backend/reports/branding.py:70-81 | reading back the written colours gives the same colours |
| Branding.ContactRoundTrip | backend/reports/branding.py:82-88 | reading back the written contact gives the same contact |
| Branding.ToDictShape | backend/reports/branding.py:102-128 | the written dictionary has exactly nine top-level keys, eight colour keys and four contact keys |
| Branding.TopKeysShape | backend/reports/branding.py:116-128 | the written dictionary's keys are exactly the nine top-level names, with the two sections as objects |
| Branding.SectionShape | backend/reports/branding.py:106-121 | the colours carry exactly eight keys and the contact exactly four |
| Branding.FromDictDefaults | backend/reports/branding.py:67-100 | reading fails exactly when `colors` or `contact` is present but not an object; otherwise every top-level key, each of the eight colour keys and each of the four contact keys is taken as it is when present and takes its default when missing (`default`, `Security Assessment`, the palette, empty contact strings); an empty dictionary reads as the default configuration |
| Branding.ColorsFromDefaults | backend/reports/branding.py:20-29 | each of the eight colours read from a section is the section's value for its key, or that key's palette default |
| Branding.ContactFromDefaults | backend/reports/branding.py:33-38 | each of the four contact fields read from a section is the section's value for its key, or empty |
| Branding.FromDictToDict | backend/reports/branding.py:89-128 | writing out what was read gives back each top-level non-section key the dictionary had |
| Branding.DefaultBrandFacts | backend/reports/branding.py:169-181 | the default brand has id `default`, company `Security Assessment`, exactly three disclaimers, the default colours, an empty contact and no logo |
| ReportRoutes.IsRealTenantIgnoresCase | backend/api/routes/reports.py:22-25 | a tenant is a demo tenant exactly when its id, lower-cased, is `demo`, `acme-corp`, `globex` or `initech`, whatever its case |
| ReportRoutes.TenantName | backend/api/routes/reports.py:288-291 | a real tenant is named by its id and a demo tenant `Demo Organization` |
| ReportRoutes.ReportGrade | backend/api/routes/reports.py:57-67 | the report grade is a grade letter, A from 90 percent, B from 80, C from 70, D from 60, otherwise F |
| ReportRoutes.PercentAtLeast | backend/api/routes/reports.py:57 | with a positive maximum, the percentage reaches a threshold exactly when the current score reaches that share of the maximum |
| ReportRoutes.TruncNonNegative | backend/api/routes/reports.py:71 | `int()` of a non-negative percentage is the whole number at or just below it |
| ReportRoutes.ScoresFacts | backend/api/routes/reports.py:46-84 | the overall grade is A exactly when the score reaches nine tenths of the maximum and F exactly when below six tenths; a non-positive maximum gives F and 0; a score within range gives an overall score from 0 to 100; the secure score is the current score and the five placeholders are 75, 80, 70, 78 and 72 |
| ReportRoutes.EmptyDashboardScores | backend/api/routes/reports.py:48-84 | an empty dashboard scores F, 0, with zero score and zero categories and the placeholders |
| ReportRoutes.ReportScaleStricter | backend/api/routes/reports.py:57-67 | the report's grade is never better than the assessment grading's for the same percentage, and at 78 percent the report says C where the grading says B |
| ReportRoutes.AlertSeverity | backend/api/routes/reports.py:96-101 | an alert's severity is lower-cased, `medium` when missing, `low` exactly for low or informational, and never informational |
| ReportRoutes.ReportedAlerts | backend/api/routes/reports.py:96 | at most the first ten alerts are reported, in order, and all of them when there are ten or fewer |
| ReportRoutes.IdentityIdsDistinct | backend/api/routes/reports.py:117-141 | the three identity findings have distinct ids |
| ReportRoutes.BuildFindings | backend/api/routes/reports.py:87-149 | the findings loop builds the alert findings followed by the identity findings |
| ReportRoutes.FindingsCount | backend/api/routes/reports.py:87-149 | there is one finding per reported alert plus one per identity condition met, thirteen at most |
| ReportRoutes.AlertFindingsFacts | backend/api/routes/reports.py:96-110 | each alert finding carries the alert's id or `alert-unknown`, its title or `Security Alert` when the key is missing, its description or the empty text when missing, a null title or description kept as null, the Threat Detection category, and a severity that is never informational (an informational alert becomes low) |
| ReportRoutes.ExtraFindingsSplit | backend/api/routes/reports.py:112-147 | after the alert findings come exactly the identity findings |
| ReportRoutes.ExtraFindingsMembers | backend/api/routes/reports.py:112-147 | the identity findings are the MFA gap finding exactly when user coverage is below 90, the global admin finding exactly when there are more than five, and the risky users finding exactly when any user is high risk, all in the Identity category |
| ReportRoutes.MfaGapFindingFacts | backend/api/routes/reports.py:113-123 | an MFA gap finding exists exactly when user coverage is below 90, and is high exactly below 70, otherwise medium |
| ReportRoutes.GlobalAdminFindingFacts | backend/api/routes/reports.py:126-135 | a global admin finding exists exactly when there are more than five global admins, and is high exactly above ten, otherwise medium |
| ReportRoutes.RiskyUsersFindingFacts | backend/api/routes/reports.py:138-147 | a critical identity finding exists exactly when there are high-risk users, and it is the risky users finding |
| ReportRoutes.ComplianceFacts | backend/api/routes/reports.py:152-191 | the MFA control fails exactly when user coverage (0 when missing) is below 90 and the device control exactly when compliance is below 90; no other CIS control fails; SOC 2 lists no failure; each framework's counts add up to its total |
| ReportRoutes.MissingCoverageDisagrees | backend/api/routes/reports.py:113-114 | a dashboard with no MFA section raises no MFA gap finding yet fails the CIS MFA control |
| ReportRoutes.RowEnds | backend/api/routes/reports.py:207-213 | a metric row starts with its metric and a comma and ends with a comma and the timestamp |
| ReportRoutes.RowJoins | backend/api/routes/reports.py:207-213 | a metric row is its four cells joined by commas |
| ReportRoutes.RowCells | backend/api/routes/reports.py:207-213 | a row of comma-free cells splits back into those four cells |
| ReportRoutes.HeaderCells | backend/api/routes/reports.py:206 | the header splits into Metric, Value, Details and Last Updated |
| ReportRoutes.ValuesFree | backend/api/routes/reports.py:207-213 | a comma or control character that no rendered number holds appears in no metric value |
| ReportRoutes.DetailsFree | backend/api/routes/reports.py:207-213 | a comma or control character that no rendered number holds appears in no metric detail |
| ReportRoutes.CsvLinesShape | backend/api/routes/reports.py:205-214 | the report has eight lines: the header, then one line per metric in order, each ending with the timestamp |
| ReportRoutes.CsvReportLines | backend/api/routes/reports.py:216 | when no rendered number and not the timestamp holds a line break, splitting the report at line breaks gives back its eight lines |
| ReportRoutes.MetricRowCells | backend/api/routes/reports.py:207-213 | each metric line has four cells when no rendered number and not the timestamp holds a comma |
| ReportRoutes.CsvRowsHaveFourCells | backend/api/routes/reports.py:205-214 | every line of the report, header included, has four cells under the same condition |
| ReportRoutes.StatusFormat | backend/api/routes/reports.py:253-255 | the status reads a report as CSV exactly when its id ends in `-csv`, otherwise as PDF |
| ReportRoutes.SuffixFromFormat | backend/api/routes/reports.py:232-233 | whether a report id ends in `-csv` depends only on the format suffix |
| ReportRoutes.DashTooLate | backend/api/routes/reports.py:254 | a text with a dash among its last three characters does not end in `-csv` |
| ReportRoutes.StatusRecoversFormat | backend/api/routes/reports.py:229-261 | the status of a generated report recovers its format, for PDF and CSV alike, and its download link asks for that format |
| ReportRoutes.Download | backend/api/routes/reports.py:267-384 | a download is refused exactly for a format other than pdf or csv; otherwise it is a PDF exactly when PDF was asked for and the rendering succeeded, and CSV otherwise |
| ReportRoutes.DownloadFileName | backend/api/routes/reports.py:355-383 | the download is an attachment named by the report id with the extension of the type served |

## Left out

- Network, SDK and database calls (Graph, ARM, Key Vault, Cosmos DB, Redis): every fetched listing or document is a parameter, and a call that raises is a `None` or error input.
- Async scheduling and `asyncio.gather`: the model is sequential, one call after another.
- Clocks: `datetime.utcnow()`, `fromisoformat` and `strftime` are not modelled; instants, day counts, hour ages, `YYYYMMDD` strings and the report stamp are parameters.
- File and JSON I/O: files are in-memory values, and "the file exists and parses" is an input; collector caches and the dashboard cache are left out because they only memoise.
- Float output: `round(x, 1)` is half-up rounding on reals, a binary-float tie may round the other way, and f-string number rendering is a parameter (`NumberFormat`) with no claim about its digits.
- Pydantic coercion and validation of the request and record models are not modelled, except where a missing required field makes a collector raise (see Findings).
- Accountability.MttrReport: `collect_mttr` rounds the three averages to a tenth; no contract states the rounded values beyond the unrounded averages proved about in Accountability.MttrFacts.
- `get_accountability_dashboard` is only the composition of the modelled collectors plus a cache, so it is left out.
- Comparison `_generate_meta` only stamps clock values and paths, so it is left out.
- Devices `get_agent_health` and `get_unmanaged_devices`, Threats `get_recent_incidents`, and Backup `get_backup_jobs` and `get_unprotected_resources` are left out: they only return fetched data or a fixed `[]`.
- SecureScore `collect` and `get_control_scores` are left out because they only copy the fetched score and its control profile.
- VendorRisk `get_third_party_apps` and `get_external_sharing_stats` return fixed placeholders, and `get_vendor_risk_summary` only composes the modelled parts, so all three are left out.
- LiveData's mock payloads, `get_risky_users`, `get_privileged_accounts`, `get_conditional_access_policies`, `get_all_users_summary`, the risky sign-ins and the third-party app data are left out: they copy fetched fields or return fixed demo values.
- The report endpoints' fixed mock dashboard values and the PDF rendering are left out; the PDF generator's success is a boolean parameter.
- Tenants `get_tenant`, `update_last_sync`, and `list_tenants` with a database are left out: they only read or write the database, and the listing's query filter is that database's.
- Storage `save_dashboard_snapshot` and `save_security_score` only write files, so they are left out.
- Branding `load_brand_config`, `list_available_brands` and `create_brand_config` are left out: they read or write brand files on disk.
- Glob metacharacters in a tenant id are not modelled: the history file pattern matches file names literally.
- Engine.AssessmentEngine.MapToFrameworks: states the result keys and the recorded scores, not the contents of each framework's result (those are Mapper.ComplianceMapper.MapToFramework's contract).
- Snapshot.Finding: a finding carries its id, title, severity, category, framework tags and recommendation; the `description`, `affected_resources` and `affected_count` fields the engine's rules fill in (backend/assessment/engine.py:331-435) are left out, since no modelled derivation reads them.
- Text.Lower and Text.Upper change ASCII letters only, where Python's `lower()` and `upper()` follow Unicode; so UPN matching, the severity and category substring tests and the demo-tenant check agree with the source on ASCII text only.
- Storage.Record holds every stored JSON value as text; numbers, booleans, nulls and nested values in a findings file are not distinguished from strings.
- Threats.BlockedThreatsOf and Threats.BlockedThreatsAsWritten: an alert's title is always text; a null title, which the directory listing can pass through, makes the concatenation at backend/collectors/threats.py:122-123 raise, and that raise is not modelled.
- Threats.AlertSummaryOf: a null alert title makes `title.lower()` at backend/collectors/threats.py:50 raise; the model's titles are always text.
- Devices.SyncAge: one age input serves both the stale-device check and the failure reasons; the source computes the first with `.timestamp()`, which reads a naive time as local time, and the second as `utcnow() - sync_time`, which raises on a time with a UTC offset, is swallowed by the bare `except`, and then gives no sync reason. The two paths' separate clock readings are not modelled.
- Backup.EndKey: completed jobs are ordered by their end time as text, a missing one as ""; when the listing holds datetimes, a job without an end time makes the source's sort (backend/collectors/backup.py:81) raise a TypeError, which the model does not capture.
- Tenants.TenantManager.RegisterTenant: the vault write is taken to succeed; when `set_secret` raises, the source re-raises before touching the database or the cache.
- ReportRoutes.Alert: an alert's id and severity are present or missing but never null; a null id would pass through to the finding as `None`, and a null severity makes `.lower()` at backend/api/routes/reports.py:96 raise, neither of which is modelled.
- Comparison.FindingDoc and Accountability.TrackedFinding read a null title, category or severity as a missing one; in the source a null title or category renders as `None` in the signature (backend/assessment/comparison.py:202) and a null severity makes `.lower()` raise (backend/collectors/accountability.py:76). The engine writes every finding with these keys set to text. A finding's status, by contrast, keeps a null apart from a missing key (Accountability.SlaVerdict).

## Findings

| source | as written | input that shows it | evidently intended | confidence | as-written member | corrected member |
|---|---|---|---|---|---|---|
| backend/collectors/backup.py:139-152 | the not-configured readiness is built without the required target-hour fields | a tenant with no recovery vaults, or a failed vault fetch | return a not-configured readiness with the default 4-hour targets | medium, not executed | Backup.NoVaultRaises | Backup.RecoveryReadinessFacts |
| backend/collectors/devices.py:215-216 | `device.get("os_version", "")` yields `None` for a device whose version is null, and `in` on `None` raises | a managed device listed with `os_version` null | read a null version as "" and report no outdated version | medium, not executed | Devices.UnsetVersionRaises | Devices.FailureReasonsFacts |
| backend/collectors/threats.py:122-123 | `a.get("category", "")` yields `None` for an alert whose category is null, and `title + None` raises, so the whole blocked-threat estimate fails | an alert titled "phish" with a null category | read a null category as "" and count the alert by its title | medium, not executed | Threats.UnsetCategoryRaises | Threats.BlockedThreatsFacts |
| backend/services/live_data_service.py:739-741 | `.get("user_principal_name", "").lower()` raises on a device whose user is null, which empties the whole department analytics | a managed device with `user_principal_name` null | count the device under "Unknown" and keep the analytics | medium, not executed | DepartmentAnalytics.UserlessDeviceEmptiesAnalytics | DepartmentAnalytics.UserlessDeviceCountedUnknown |
| backend/services/tenant_manager.py:138-139 | without a database, `list_tenants` ignores `active_only` and returns deactivated tenants, which `get_tenants_needing_sync` then schedules | one registered, then deactivated, tenant that was never synced | list only active tenants, as the database query does | high, not executed | Tenants.DeactivatedTenantStillSynced | Tenants.CachedTenants |
