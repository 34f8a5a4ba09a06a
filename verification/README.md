# Repo Health Doctor: verified model

This project models the parts of Repo Health Doctor whose correctness is hardest to see from one function alone, and
proves what they promise. `dafny verify dfyconfig.toml` checks all of it.

| module | models |
|---|---|
| `Porcelain` | the parser of `git status --porcelain=v1 -z` output |
| `HostCommit` | one Git repository (`Repo`), the host's check-stage-verify-commit transaction and its rollback |
| `GoalLoop` | the bounded Goal Loop (`Runner`): attempts, the untrusted agent, signals, recorded outcomes, whole runs |
| `Json`, `ScannerSuite`, `ByteBudget`, `SuiteRun` | the scanner suite: printed JSON and its size, finding budgets, the byte-budget loop, one whole run |
| `Reservation` | single use of an authorization by exclusive file creation, as a state machine and as the calling code (`SharedDirectory`) |
| `ControlFile` | the lstat/open/fstat/read/fstat snapshot read against interference (`FileTree`) |
| `Verdicts`, `GateEvaluator`, `GateEvaluation`, `GateLaws`, `ItemLaws` | the gate: what every source calls for, the evaluation as it runs, the laws of its verdict, and what the fields of single items do to it |
| `RiskMapper` | scanner findings to risk rules to one gate candidate |
| `ExternalEvidence`, `SandboxEvidence` | validation of imported scanner suites and sandbox runs, up to the gate's verdict |
| `PolicyYaml`, `PolicyGrammar` | the policy document parser, a printer that it inverts, and the grammar of all that it accepts |
| `Authorization` | authorization drafts and their validation |
| `V3Report` | repository checks, their evidence candidates, and the gate's verdict on them |
| `Wrappers`, `Text` | options and results; Python string operations |

How the parts fit together:

- `GoalLoop.Runner.RunLoop` calls `HostCommit.Repo.RunCommitBoundary`, which reads the tree through
  `Porcelain.ParsePorcelain`. `GoalLoop.HistoryIsSafe`, `GoalLoop.RunMeans` and `GoalLoop.GoodTurnIsCommitted` say what
  follows for whole runs.
- `SuiteRun.RunSuite` produces reports; `ExternalEvidence.NoScanIsLostSilently` follows them through validation to the
  verdict of `GateEvaluator.GateVerdict`. `ExternalEvidence.NoRiskIsLostSilently` does the same for what the scans
  found, which `RiskMapper` maps under the shipped policy.
- `SandboxEvidence.FailedValidationHoldsTheGate` and `V3Report.UncoveredSecretIsBlocked` end at the same verdict, which
  `GateEvaluation.EvaluateGate` is proved to compute.

Conventions:

- What the environment decides (git's answers, system calls, the agent, other processes, adapters, clocks) is an
  arbitrary value: a parameter, or a `*` in a method body. A `quiet` parameter means that nothing interferes and no call
  fails (in `GoalLoop`: that reading the features file does not fail by itself); it is used to state progress.
- Timestamps are integers, with an explicit case where a text cannot be parsed. SHA-256 fingerprints are injective: a
  constructor in `HostCommit`, equality of digests elsewhere. `Authorization` takes the fingerprint as an arbitrary
  function and names the place where it must tell decisions apart.
- Lists of candidates, reasons and effects that the source removes duplicates from, or joins into one verdict, are
  specified by their members.
- Regular expressions, `fnmatch` and long lists of local field checks appear as parameters or as the list of errors
  that they found.

Where the code does not do what one may expect, the model follows the code, shows a concrete input, and states exactly
when the expectation holds:

- A scanner result whose summary claims more findings than its non-empty list holds loses some without marking them:
  `ScannerSuite.UnbackedClaimIsLost`, exactly as in `ScannerSuite.EntryAccountsForAllFindings`. This is a fact about
  `_entry_from_run_result` alone: the three adapters that ship claim as many findings as they list.
- A reservation can report its authorization as consumed though no marker exists and a later call can still succeed:
  `Reservation.ConsumedWithoutMarker`; exactly if its own `open` failed for another reason than an existing marker and
  nobody opened the marker: `Reservation.ConsumedWithoutMarkerExactlyWhen`.
- Added evidence can weaken a verdict: `GateLaws.AddedEvidenceCanWeaken`, exactly as in
  `GateLaws.MoreEvidenceWeakensExactlyWhen`, and for scanner and sandbox evidence alone as in
  `GateLaws.AddedEvidenceWeakensExactlyWhen`. The input is an imported report with a binary status other than
  `unverified`: the three adapters of the suite mark every binary as unverified, so a scan of theirs calls for unknown
  (`ExternalEvidence.ScannedRiskReachesGate`), and a sandbox signal never calls for less.
- More scanner findings can turn a block into a quarantine: `RiskMapper.MoreEvidenceCanTurnBlockIntoQuarantine`, exactly
  as in `RiskMapper.CandidateWeakensExactlyWhen`, and under the shipped policy as in
  `RiskMapper.ShippedCandidateWeakensExactlyWhen`.
- A real sandbox run that failed can leave every verdict alone: `SandboxEvidence.FailedRunCanBeSilent`, exactly as in
  `SandboxEvidence.SilentExactlyWhen`; a report that does not name its snapshot blocks instead. And a run can be reported
  under a category without the signal that goes with it, exactly as in
  `SandboxEvidence.CategoryLacksItsSignalExactlyWhen`: a degraded observation that changes no verdict is
  `SandboxEvidence.DegradedRunCanBeSilent`.
- A suite report that fits the byte budget may exceed it by the microseconds of its time, and the validator, whose limit
  is the same, then refuses it: `ExternalEvidence.EmptyReportIsRefused`, exactly as in
  `ExternalEvidence.UncutReportIsRefusedForMicrosecondsOnly`.
- An empty argument list is a valid command for an authorization: `Authorization.EmptyCommandIsAccepted`.
- A field key that begins with a dash and a space is read as a list item, so it is outside the parser's legal alphabet:
  `PolicyYaml.DashKeyStartsAnItem`.

Further facts about the code that shape the statements:

- The agent may commit by itself, because the head recorded in the snapshot is never compared. The theorems about runs
  speak of the host's commits, which the model counts apart from the log.
- A failing commit request restores what was staged when it began; it does not unstage what the agent had staged. If it
  got as far as staging, nothing was staged when it began: `HostCommit.StagedIndexIsRefused`. The boundary says with one
  exit code, exactly, that something was staged or that staging went wrong (`HostCommit.Repo.RunCommitBoundary`).
- Three errors are dead: "no selectable feature remains", the fall-through of the Goal Loop, and "empty list item" of the
  policy parser.
- An item's subject is tested by the evidence validator just as by the decision's. So a malformed subject that the caller
  did not give makes no difference (`GateLaws.OnlyTheCallersSubjectCounts`), and the order of the evidence never matters.

## Model

| member | source | states |
|---|---|---|
| Porcelain.ParsePorcelain | scripts/host_commit.py:99-124 | the parsing loop returns exactly the touched and the staged paths of the entries that the bytes spell, or refuses |
| Porcelain.ReadOneEntry | scripts/host_commit.py:104-123 | reading one encoded entry takes exactly its bytes, both paths of a rename included |
| Porcelain.ParseInvertsEncode | scripts/host_commit.py:99-124 | parsing the encoding of any valid entries yields them back, with the unions of all and of all staged paths; staged is a subset of dirty |
| Porcelain.CutRenameRefused | scripts/host_commit.py:114-119 | a rename cut off before its source is refused, whatever came before it |
| Porcelain.AcceptedRecordsAreAllRead | scripts/host_commit.py:99-124 | whatever is accepted, the entries read account for every non-empty record in order |
| HostCommit.Repo.WorkingTreeState | scripts/host_commit.py:127-134 | from truthful git output, the dirty and the staged set, or a request error |
| HostCommit.Repo.WriteSnapshot | scripts/host_commit.py:144-159 | a snapshot records exactly the tree |
| HostCommit.Repo.ValidateRequestState | scripts/host_commit.py:264-310 | passes exactly when the requested paths were clean, nothing is staged, and the newly dirty paths are the requested ones, all committable |
| HostCommit.Repo.UnstageAfterFailure | scripts/host_commit.py:313-317 | removes exactly the matched paths from the index, with and without a HEAD |
| HostCommit.StagedIndexIsRefused | scripts/host_commit.py:282-287 | an index into which anything is staged is refused, whatever the request, and told apart if request, snapshot and git's status are good |
| HostCommit.Repo.CommitRequest | scripts/host_commit.py:320-350 | goes through exactly when every check accepts and every git command succeeds; then one commit equal to the request and nothing staged; on every other exit the repository is as it was |
| HostCommit.Repo.RunCommitBoundary | scripts/host_commit.py:492-511 | succeeds exactly for the trusted snapshot and an admitted request; then no committed path was dirty at the snapshot and only paths dirty then are left; any failure changes nothing, foreign staging included, and its code says exactly if staging was the reason |
| GoalLoop.PendingFeatureIsPending | scripts/goal_loop_runner.py:223-227 | the first feature that is neither passing nor blocked, or none is |
| GoalLoop.CompletionMeans | scripts/host_commit.py:423-445 | the completion state of a document, on its features |
| GoalLoop.SelectableExactlyWhenContinue | scripts/host_commit.py:423-445 | a document of valid shape has a selectable feature exactly when its state is to continue, so "no selectable feature" is never reported |
| GoalLoop.ReopenedIsNotPassing | scripts/goal_loop_runner.py:246-261 | the timed-out feature neither passes nor is verified afterwards and every other feature is unchanged |
| GoalLoop.ExitCodeMeaning | scripts/goal_loop_runner.py:621-734 | zero exactly for an undisturbed committed iteration that leaves every feature passing; above 128 exactly for a signal; a timeout always ends the run |
| GoalLoop.FailureCodeMeaning | scripts/goal_loop_runner.py:621-734 | without a signal or a timeout: 3 exactly for a bad turn or an invalid document, a boundary's code exactly if it failed, 2 exactly if nothing is left to try, 1 exactly if the last iteration left work to do |
| GoalLoop.StateAndExitAgree | scripts/goal_loop_runner.py:621-734 | the recorded state and the exit code determine each other, and a continuing state says what became of the feature worked on |
| GoalLoop.HistoryIsSafe | scripts/goal_loop_runner.py:928-1076 | over a whole run: start-of-iteration dirty sets shrink, every iteration but the last made exactly one commit equal to its request, and no host commit holds a path dirty when its own or any later iteration began |
| GoalLoop.RunMeans | scripts/goal_loop_runner.py:901-1078 | success means every feature passes in the last loaded document; no feature is worked on in more iterations than it has attempts if ids are unique and no turn of the agent reopens a finished feature; a code above 128 is returned exactly if the last iteration noticed a signal, and names it; a timed-out iteration is the last and leaves its feature not passing |
| GoalLoop.GoodTurnIsCommitted | scripts/goal_loop_runner.py:979-1025 | over every run: the host commits exactly after an undisturbed turn that ended with 0 and left a readable final message and a loadable document, if all that the boundary asks for is there; other turns exit with 3 |
| GoalLoop.BoundaryAsksFor | scripts/host_commit.py:209-310 | the boundary's checks let a request through exactly if it says something on one line, names exactly the paths the agent made dirty, all safe and committable, and neither snapshot nor index was touched |
| GoalLoop.Runner.HandleSignal | scripts/goal_loop_runner.py:71-77 | the first signal wins |
| GoalLoop.Runner.FinalizeIteration | scripts/goal_loop_runner.py:800-898 | at most two passes with signals between any two statements; all files record the outcome returned, which is that of the signal received by the time the last file was written or the summary printed |
| GoalLoop.Runner.KeepTimedOutFeaturePending | scripts/goal_loop_runner.py:246-261 | the features file holds the reopened document and the selected feature is read from it |
| GoalLoop.Runner.WorkOnFeature | scripts/goal_loop_runner.py:979-1009 | the artifacts are in error exactly if the final message cannot be read or the features file was not loaded, which happens to a loadable file only if reading fails by itself; a readable timed-out document is saved with its feature not passing, and the evidence is about what the agent left |
| GoalLoop.Runner.CommitWork | scripts/host_commit.py:492-511 | against the snapshot the runner trusted, whatever the agent left: one commit equal to the request, disjoint from what was dirty, exactly if `MayCommit` holds; or none |
| GoalLoop.Runner.CommitIfUndisturbed | scripts/goal_loop_runner.py:1011-1025 | the boundary is called exactly after an undisturbed turn and goes through exactly if `MayCommit` holds; only its failures reach the outcome |
| GoalLoop.Runner.TakeTurn | scripts/goal_loop_runner.py:970-1025 | turn, reading and commit, up to the evidence: the record is about what the agent left and what git answered |
| GoalLoop.Runner.RunIteration | scripts/goal_loop_runner.py:928-1076 | the record of an iteration is safe, holds the evidence that determined its outcome, and describes the state it left; only a committed, non-final one lets the run go on |
| GoalLoop.Runner.SelectFeature | scripts/goal_loop_runner.py:928-948 | the first pending feature of the loaded document, or exit 0 exactly when all pass and 2 otherwise; a loadable file is loaded unless reading fails by itself |
| GoalLoop.Runner.RunLoop | scripts/goal_loop_runner.py:901-1078 | every run ends with all that `RunOk` says: each record is about the first pending feature of the document loaded before, counts its attempts, is judged by what the agent left, committed exactly as `IsDecided` says, and goes by the document loaded after; the records begin with the tree and the document that the run began with and end with what it left; the host made exactly their commits; success is about the document on disk. Quiet runs raise exactly for a file that cannot be loaded, and start nothing exactly if nothing is pending |
| Json.TextIsAscii | src/repo_health_doctor/external_scanner/real_scanner_suite.py:462-481 | a printed tree is ASCII text, so its bytes are its characters; escapes follow section 7 of RFC 8259 |
| Json.SizeAfterReplacing | src/repo_health_doctor/external_scanner/real_scanner_suite.py:462-481 | replacing one member changes the printed size by the difference of the two values |
| Json.CutTextIsFixed | src/repo_health_doctor/external_scanner/real_scanner_suite.py:389-396 | a cut string has 1024 characters and the marker, is longer than the limit, and is yet a fixed point; exactly which strings are |
| Json.BoundedIsIdempotent | src/repo_health_doctor/external_scanner/real_scanner_suite.py:389-396 | bounding twice is bounding once on every string-keyed tree |
| ScannerSuite.TruncationsCompose | src/repo_health_doctor/external_scanner/real_scanner_suite.py:399-412 | truncating to a and then to b at most a is truncating to b |
| ScannerSuite.RetainedFindingsArePrefix | src/repo_health_doctor/external_scanner/real_scanner_suite.py:399-412 | what is retained is a prefix of the bounded findings |
| ScannerSuite.EntryAccountsForAllFindings | src/repo_health_doctor/external_scanner/real_scanner_suite.py:322-369 | retained and omitted findings add up to the original count exactly when the list is empty, the summary claims no more than the list, or the budget hides it; budgets and marks hold always |
| ScannerSuite.UnbackedClaimIsLost | src/repo_health_doctor/external_scanner/real_scanner_suite.py:355-369 | a concrete result that loses a claimed finding without a mark |
| ScannerSuite.TruncatedEntriesCompose | src/repo_health_doctor/external_scanner/real_scanner_suite.py:415-427 | repeated truncation of an entry composes, counters included |
| ScannerSuite.ReportSizesCompare | src/repo_health_doctor/external_scanner/real_scanner_suite.py:462-481 | two reports that differ in status, time and fingerprint differ in size by the lengths of those |
| ByteBudget.TotalIsPositiveExactlyWhenDroppable | src/repo_health_doctor/external_scanner/real_scanner_suite.py:441-446 | a last non-empty entry is found exactly as long as any finding is retained |
| ByteBudget.DroppingIsSuffixTruncation | src/repo_health_doctor/external_scanner/real_scanner_suite.py:430-459 | after any number of rounds every entry is untouched or truncated to what it retains, retained plus omitted is conserved, and after a touched entry nothing is retained |
| ByteBudget.DropUntilFit | src/repo_health_doctor/external_scanner/real_scanner_suite.py:437-459 | the loop terminates after the least number of rounds that fits, or after all |
| ByteBudget.ApplyReportByteBudget | src/repo_health_doctor/external_scanner/real_scanner_suite.py:430-459 | nothing changes if the report fits; otherwise the least number of findings is dropped from the end, or all are and the first entry is marked |
| ByteBudget.AllocationWithinBudgets | src/repo_health_doctor/external_scanner/real_scanner_suite.py:185-211 | every scanner stays within its budget and all together within the suite's |
| ByteBudget.AllocatedAt | src/repo_health_doctor/external_scanner/real_scanner_suite.py:185-211 | an entry depends on the earlier scanners only through what they left of the budget |
| ByteBudget.EntryForFacts | src/repo_health_doctor/external_scanner/real_scanner_suite.py:185-211 | marked as truncated exactly if something was omitted, and omitted exactly if the scanner ran and found more than it was allowed |
| ByteBudget.SubjectSurvivesDropping | src/repo_health_doctor/external_scanner/real_scanner_suite.py:592-600 | dropping findings does not change the report's subject |
| SuiteRun.FinishedSize | src/repo_health_doctor/external_scanner/real_scanner_suite.py:224-258 | the finished report exceeds the measured one by no more than the excess of its timestamp over the placeholder |
| SuiteRun.AllocateBudgets | src/repo_health_doctor/external_scanner/real_scanner_suite.py:185-211 | the allocation loop yields the granted entries and raises each budget flag exactly if some scanner exceeded that budget |
| SuiteRun.CollectLimitations | src/repo_health_doctor/external_scanner/real_scanner_suite.py:213-222 | the limitations before the byte budget |
| SuiteRun.BaseLimitationsName | src/repo_health_doctor/external_scanner/real_scanner_suite.py:213-222 | a budget is named among them exactly if a scanner exceeded it, and nothing is marked truncated yet |
| SuiteRun.DegradedExactlyWhen | src/repo_health_doctor/external_scanner/real_scanner_suite.py:213-242 | a report is degraded exactly if a scanner was skipped, raised, is invalid or of an unverified family, a finding budget left something out, or the byte budget was exceeded |
| SuiteRun.ReviewIsRequiredExactlyWhen | src/repo_health_doctor/external_scanner/real_scanner_suite.py:219-222 | the report asks for a review exactly for the first of these, and names skipped network scanners exactly if there are |
| SuiteRun.GrantedEntrySays | src/repo_health_doctor/external_scanner/real_scanner_suite.py:312-369 | scanner, status, validity, execution and errors of an entry are those of its scanner's run |
| SuiteRun.FinishReport | src/repo_health_doctor/external_scanner/real_scanner_suite.py:224-258 | the finished report meets everything in `ReportOk`, is a minimal cut of the granted entries, has their status and subject, and carries the fingerprint of all the rest |
| SuiteRun.ReportExceedsByMicrosecondsOnly | src/repo_health_doctor/external_scanner/real_scanner_suite.py:224-258 | a report exceeds its byte budget by at most 7 bytes, unless it is empty, degraded and marked truncated |
| SuiteRun.RunSuite | src/repo_health_doctor/external_scanner/real_scanner_suite.py:158-258 | runs exactly for known scanners and positive budgets; one accounted-for entry per scanner in order, within all budgets; what fits is left alone, else the least number of findings is dropped, and if all are the report is degraded and marked truncated |
| Reservation.RunKeepsInv | src/repo_health_doctor/gate/authorization.py:447-501 | every run of any processes keeps: one owner at most, and the marker holds what it has written so far |
| Reservation.AtMostOneReservation | src/repo_health_doctor/gate/authorization.py:447-501 | under any interleaving with crashes, short writes and failures at most one call reserves, and then the marker is complete |
| Reservation.LateCallsNeverSucceed | src/repo_health_doctor/gate/authorization.py:460-469 | once the marker exists it stays and no call but its creator's can succeed |
| Reservation.OutcomesAreFinal | src/repo_health_doctor/gate/authorization.py:411-437 | what a call returned stays what it returned |
| Reservation.ReturnedCallHasItsCause | src/repo_health_doctor/gate/authorization.py:440-501 | over every run: whoever reserved opened and synced the marker, an existing marker is there, and a reported failure is that of a system call |
| Reservation.ConsumedWithoutMarkerExactlyWhen | src/repo_health_doctor/gate/authorization.py:411-475 | over every run a call reports consumption without a marker exactly if it began by failing to open it and no call began by opening it |
| Reservation.ConsumedWithoutMarker | src/repo_health_doctor/gate/authorization.py:460-475 | in that case consumption is reported, no marker exists, and a later call reserves |
| Reservation.SoloCallSucceeds | src/repo_health_doctor/gate/authorization.py:447-501 | without contention or failure a call reserves |
| Reservation.SharedDirectory.Reserve | src/repo_health_doctor/gate/authorization.py:447-501 | the calling code, with others running in between, returns the outcome of its call in the run performed; success means the complete payload in a marker that was not there; undisturbed it succeeds exactly if there was no marker |
| ControlFile.SameStateMeansUntouched | src/repo_health_doctor/control_file.py:192-193 | if every change gives a fresh state, equal states mean one inode that was not touched in between |
| ControlFile.FileTree.BoundedRead | src/repo_health_doctor/control_file.py:171-189 | never more than the limit plus one byte for any chunking; as long as the inode is untouched the result is its content, or it is longer than the limit |
| ControlFile.FileTree.ReadDescriptor | src/repo_health_doctor/control_file.py:84-133 | both states and the length agree, or the read is refused |
| ControlFile.FileTree.ReadBoundedControlFile | src/repo_health_doctor/control_file.py:61-133 | a success takes the state of the path once and of the open file twice, and is the whole content that one regular inode, to which the path led at the first of these, had until the last of them, within the limit; without interference exactly such files are read |
| Verdicts.StrongestIsMaximum | src/repo_health_doctor/gate/verdict.py:15-18 | the strongest verdict depends only on which candidates there are, is at least each, and is one of them or the weakest |
| GateEvaluator.CalledForIsReached | src/repo_health_doctor/gate/evaluator.py:314-319 | the verdict is no weaker than anything that is called for |
| GateEvaluation.ItemCandidates | src/repo_health_doctor/gate/evaluator.py:197-267 | the candidates of one item are exactly the set that the laws of `ItemLaws` are about, limitations included |
| GateEvaluation.ScanItems | src/repo_health_doctor/gate/evaluator.py:165-267 | the item loop gathers the candidates and the facts about all items |
| GateEvaluation.SuiteCandidates | src/repo_health_doctor/gate/evaluator.py:445-534 | the candidates of all suites are what their entries call for |
| GateEvaluation.SandboxCandidates | src/repo_health_doctor/gate/evaluator.py:392-442 | the candidates of all sandbox items are the verdicts of their signals, or unknown for an unknown signal or shape |
| GateEvaluation.LateCandidates | src/repo_health_doctor/gate/evaluator.py:290-309 | missing bindings and missing evidence call for unknown, quarantine or a warning |
| GateEvaluation.EvaluateGate | src/repo_health_doctor/gate/evaluator.py:133-389 | the evaluation returns the verdict defined on sets, and a malformed decision is a block |
| GateLaws.OnlyTheCallersSubjectCounts | src/repo_health_doctor/gate/evaluator.py:560-596 | a malformed subject makes a difference to the verdict only if the caller gave it, because an item with one is invalid and blocks by itself |
| GateLaws.OrderDoesNotMatter | src/repo_health_doctor/gate/evaluator.py:133-389 | with the policy and the caller's subject, if any, fixed, the verdict is invariant under permuting evidence, suites and sandbox items |
| GateLaws.StrongVerdictsStay | src/repo_health_doctor/gate/evaluator.py:133-389 | adding evidence of any kind never lowers a quarantine or a block |
| GateLaws.BelowUnknownExactlyWhen | src/repo_health_doctor/gate/evaluator.py:133-389 | the verdict is below unknown exactly for a well-formed question in which nothing is lacking and nothing said or missing calls for more than a warning |
| GateLaws.MoreEvidenceWeakensExactlyWhen | src/repo_health_doctor/gate/evaluator.py:133-389 | added evidence of any kind weakens the verdict exactly when something was lacking (any evidence, a bound item, or a word beside low-trust silence), nothing is lacking any more, and nothing objects |
| GateLaws.AddedEvidenceWeakensExactlyWhen | src/repo_health_doctor/gate/evaluator.py:269-312 | added suites or sandbox items weaken the verdict exactly when it was unknown for the low-trust fallback alone and they say something no stronger than a warning |
| GateLaws.AddedEvidenceCanWeaken | src/repo_health_doctor/gate/evaluator.py:287-289 | a valid low-trust item alone is unknown, and beside a scanner's remark only a warning |
| GateLaws.AllowLimitedExactlyWhen | src/repo_health_doctor/gate/evaluator.py:133-389 | something passes exactly when the decision is well formed, nothing is lacking or missing, and nothing calls for anything else |
| ItemLaws.EffectIsHeeded | src/repo_health_doctor/gate/evaluator.py:209-220 | a recommended block, quarantine or warning holds the verdict, whatever else there is |
| ItemLaws.DefectBlocks | src/repo_health_doctor/gate/evaluator.py:165-208 | an invalid item, an attempt to authorize, retained raw output and a failed redaction each block |
| ItemLaws.AbsenceIsHeard | src/repo_health_doctor/gate/evaluator.py:236-247 | nothing found is at least a warning, an unbound item at least unknown |
| ItemLaws.LeakBlocks | src/repo_health_doctor/gate/evaluator.py:222-226 | a raw secret or host path among an item's texts, or one of nine markers in one of them, blocks |
| ItemLaws.MarkerQuarantines | src/repo_health_doctor/gate/evaluator.py:227-230 | one of nine markers in a text of an item holds the verdict at quarantine |
| ItemLaws.ChainQuarantines | src/repo_health_doctor/gate/evaluator.py:820-841 | nine combinations of texts hold the verdict at quarantine |
| ItemLaws.RemarkWarnsAlone | src/repo_health_doctor/gate/evaluator.py:844-851 | a known vulnerability, a low posture, an unsupported version or one of seven markers is at least a warning |
| ItemLaws.LimitationIsHeeded | src/repo_health_doctor/gate/evaluator.py:249-267 | a critical limitation blocks, a high one is at least a quarantine, a medium one at least a warning: by the policy's patterns, or by its words if no pattern lists it |
| ItemLaws.UnremarkableExactlyWhen | src/repo_health_doctor/gate/evaluator.py:163-267 | an item calls for nothing exactly if none of these facts holds of it |
| ItemLaws.UnremarkableItemAddsNothing | src/repo_health_doctor/gate/evaluator.py:133-389 | such an item never makes a verdict stronger |
| ItemLaws.PassesExactlyWhen | src/repo_health_doctor/gate/evaluator.py:133-389 | the gate passes exactly if references and subject are well formed, some item is bound, no item is remarkable, suites and sandbox items call for nothing, not all is silent low-trust evidence, and what is missing is accepted |
| ItemLaws.MissingEvidenceIsHeard | src/repo_health_doctor/gate/evaluator.py:290-309 | unaccepted missing evidence is a warning, if mandatory unknown, if about the runtime that is to be judged a quarantine; nothing bound is unknown; a malformed subject or reference blocks |
| RiskMapper.CollectFacts | src/repo_health_doctor/external_scanner/risk_mapper.py:295-322 | the facts are the categories, tokens and relations that findings, nodes and edges state |
| RiskMapper.Mapper.CheckInterpretability | src/repo_health_doctor/external_scanner/risk_mapper.py:330-371 | unknown effects and rules call for a quarantine, unknown categories and relations for a review |
| RiskMapper.Mapper.FireDue | src/repo_health_doctor/external_scanner/risk_mapper.py:176-254 | exactly the due rules of the policy fire |
| RiskMapper.Mapper.MapRisk | src/repo_health_doctor/external_scanner/risk_mapper.py:150-292 | the mapping as it is computed is the mapping defined on sets of rules and effects |
| RiskMapper.MoreEvidenceNeverWeakens | src/repo_health_doctor/external_scanner/risk_mapper.py:150-292 | more findings, nodes or edges only grow the fired rules and never lower the highest tier, the highest effect or a flag |
| RiskMapper.CandidateWeakensExactlyWhen | src/repo_health_doctor/gate/evaluator.py:537-546 | the gate candidate never goes away nor leaves quarantine and block, and weakens exactly when a block meets a dedicated machine or a quarantine |
| RiskMapper.ShippedPolicyVerdict | policies/external-scanner-risk-policy.v0.1.json:1-582 | the shipped policy decides the candidate by the rules that are due: seven quarantine, else four block, else six ask for a review, else two warn |
| RiskMapper.CandidateFromFacts | src/repo_health_doctor/external_scanner/risk_mapper.py:173-254 | under the shipped policy the candidate follows from what findings, nodes and edges state, with no rule in between: grave facts quarantine, else secrets, sockets and host paths block, else chains and unknowns ask for a review |
| RiskMapper.ShippedCandidateWeakensExactlyWhen | src/repo_health_doctor/gate/evaluator.py:537-546 | under the shipped policy more evidence weakens the candidate exactly when a blocking rule is joined by a quarantining one or by something that cannot be interpreted |
| RiskMapper.ChainsFireBesideTheirParts | src/repo_health_doctor/external_scanner/risk_mapper.py:208-231 | a chain rule never fires without one of its parts, and the obfuscated network chain exactly beside the obfuscation rule and a network signal |
| RiskMapper.DedicatedMachineMeansQuarantine | src/repo_health_doctor/gate/evaluator.py:537-546 | under the shipped policy a chain that calls for a dedicated machine is a quarantine even beside rules that block |
| RiskMapper.MoreEvidenceCanTurnBlockIntoQuarantine | src/repo_health_doctor/gate/evaluator.py:537-546 | a secret blocks, and beside a Docker socket that reaches the host it is only a quarantine |
| ExternalEvidence.ValidateSuite | src/repo_health_doctor/gate/external_evidence.py:108-231 | a reason is given exactly if it applies: shape, fingerprint, age, subject, size, duplicate, truncation |
| ExternalEvidence.ValidExactlyWhen | src/repo_health_doctor/gate/external_evidence.py:108-231 | a document is valid exactly if its fields stand up: whole entries, no truncation, fingerprint, freshness, size, subject |
| ExternalEvidence.FaithfulCopyIsValidExactlyWhen | src/repo_health_doctor/gate/external_evidence.py:189-215 | a fresh, unaltered copy of a report is valid exactly if its fingerprint is that of all the rest, nothing was cut from it and it is within the size limit |
| ExternalEvidence.UncutReportIsRefusedForMicrosecondsOnly | src/repo_health_doctor/gate/external_evidence.py:180-204 | a faithful copy of an uncut report is refused exactly if the report as measured, which is within the byte budget, exceeds the validator's size with the microseconds of its time |
| ExternalEvidence.UncutReportIsRefused | src/repo_health_doctor/external_scanner/real_scanner_suite.py:224-258 | any suite whose byte budget is what its uncut report measures, and whose time has microseconds, cuts nothing and is refused by a validator of the same size |
| ExternalEvidence.EmptyReportIsRefused | src/repo_health_doctor/external_scanner/real_scanner_suite.py:176-258 | a concrete report that its suite leaves uncut and the validator refuses |
| ExternalEvidence.PassingSuiteIsWhole | src/repo_health_doctor/gate/external_evidence.py:341-364 | a verdict below unknown means a valid report of valid, completed entries that nothing was cut from |
| ExternalEvidence.NoScanIsLostSilently | src/repo_health_doctor/gate/evaluator.py:454-480 | from the scanners to the gate: below unknown, every requested scanner ran, is valid, and is in the report with all its findings |
| ExternalEvidence.ScannedRiskReachesGate | src/repo_health_doctor/gate/evaluator.py:489-526 | a completed scan holds the verdict at what its due rules call for under the shipped policy, at a warning for an unmapped finding, and at unknown for an unverified binary |
| ExternalEvidence.NoRiskIsLostSilently | src/repo_health_doctor/gate/evaluator.py:454-531 | from the scanners through the risk mapper to the gate: below unknown, every requested scanner's result is interpretable and only the three observing rules are due |
| SandboxEvidence.EverySignalIsKnown | src/repo_health_doctor/gate/evaluator.py:119-130 | every signal of normalizer and validator is in the gate's table, with its verdict |
| SandboxEvidence.CategoryLacksItsSignalExactlyWhen | src/repo_health_doctor/evidence/sandbox_run.py:356-381 | a run is categorized without the signal that goes with it exactly when only its result status says that the observer was degraded |
| SandboxEvidence.DegradedByStatusIsSilentExactlyWhen | src/repo_health_doctor/evidence/sandbox_run.py:356-381 | such a run is categorized by its degraded observer, and leaves every verdict alone exactly when nothing else speaks against it |
| SandboxEvidence.DegradedRunCanBeSilent | src/repo_health_doctor/evidence/sandbox_run.py:356-381 | a concrete run with a degraded observer that changes no verdict |
| SandboxEvidence.NormalizeSandboxRun | src/repo_health_doctor/evidence/sandbox_run.py:54-196 | a signal is emitted exactly if it is due |
| SandboxEvidence.ValidateSandboxRun | src/repo_health_doctor/gate/sandbox_evidence.py:123-268 | a reason is given exactly if it applies, and the signals are the normalizer's and those of the reasons |
| SandboxEvidence.GateItemVerdicts | src/repo_health_doctor/gate/evaluator.py:392-442 | the gate takes from a validated report exactly the verdicts of its signals |
| SandboxEvidence.FailedValidationHoldsTheGate | src/repo_health_doctor/gate/sandbox_evidence.py:211-242 | however a report fails validation the verdict is at least unknown, and a block if it does not name its snapshot, or for another subject, a recorded binding mismatch or a policy block |
| SandboxEvidence.SilentExactlyWhen | src/repo_health_doctor/gate/sandbox_evidence.py:211-268 | a report leaves every verdict alone exactly when no reason stands against it, its run was nothing out of the ordinary, and it names its snapshot |
| SandboxEvidence.SilentReportExactlyWhen | src/repo_health_doctor/gate/sandbox_evidence.py:123-268 | the same on the fields of the report: form, claims, freshness, subject, size, an ordinary run, and both fingerprints |
| SandboxEvidence.OddRunHoldsTheGate | src/repo_health_doctor/gate/evaluator.py:392-442 | an uncertain cleanup holds the verdict at quarantine; a timeout, a degraded observer and an unreal or stale run hold it at unknown |
| SandboxEvidence.FailedRunCanBeSilent | src/repo_health_doctor/evidence/sandbox_run.py:114-132 | a real run of a snapshot-bound subject with exit code 1 that changes no verdict |
| PolicyYaml.ParseSimplePolicyYaml | src/repo_health_doctor/doctor.py:373-411 | the line loop computes the parse of the text |
| PolicyGrammar.AcceptedExactlyWhen | src/repo_health_doctor/doctor.py:373-411 | a text is accepted exactly if every significant line fits: a top-level line has a colon, other lines stand below one, and what is no list item has a colon and follows an entry |
| PolicyGrammar.EveryLineIsRead | src/repo_health_doctor/doctor.py:373-411 | in an accepted text every significant line is, in one way only, the top-level line, list item or field of a section, and the document is what the sections mean |
| PolicyGrammar.GrammaticalTextIsAccepted | src/repo_health_doctor/doctor.py:373-411 | any text whose significant lines are those of grammatical sections is accepted and means what they mean |
| PolicyGrammar.LineIsSignificantExactlyWhen | src/repo_health_doctor/doctor.py:377-380 | exactly the lines with text before any number sign are significant, in order |
| PolicyGrammar.ForgottenDashIsRefused | src/repo_health_doctor/doctor.py:407-408 | an indented line without a dash right below a top-level line is refused |
| PolicyYaml.ScalarReadsBack | src/repo_health_doctor/doctor.py:366-370 | a bare or quoted value reads back as its text behind any white space |
| PolicyYaml.DecorationsAreInsignificant | src/repo_health_doctor/doctor.py:377-380 | comments, blank lines and trailing space leave the same lines to parse |
| PolicyYaml.SplitInvertsJoin | src/repo_health_doctor/doctor.py:377 | splitting into lines undoes joining them, with either line end |
| PolicyYaml.ParseInvertsRender | src/repo_health_doctor/doctor.py:373-411 | parsing the rendering of any legal sections, however decorated, gives what they mean |
| PolicyYaml.DashKeyStartsAnItem | src/repo_health_doctor/doctor.py:395-410 | a field whose key begins with a dash and a space starts a new list item instead |
| PolicyYaml.MeaningOfDistinctSections | src/repo_health_doctor/doctor.py:388-391 | with distinct keys the document holds exactly what each section says |
| PolicyYaml.EmptyListItemIsNeverReported | src/repo_health_doctor/doctor.py:395-397 | no text at all is refused for an empty list item |
| Authorization.ValidateExecutionAuthorization | src/repo_health_doctor/gate/authorization.py:600-820 | valid and authorized exactly if everything that is asked for holds |
| Authorization.ValidMeans | src/repo_health_doctor/gate/authorization.py:600-820 | what is valid was decided `warn` or `allow_limited`, refers to that decision, was approved by somebody for this command, has not expired, and is bound to the image and the snapshot of the run |
| Authorization.OneCommandOneDecision | src/repo_health_doctor/gate/authorization.py:671-686 | an authorization valid twice is so for one command and one decision fingerprint |
| Authorization.OwnPairExactlyWhen | src/repo_health_doctor/gate/authorization.py:548-820 | an approved, otherwise unchanged draft is valid for its own decision and command exactly under conditions that can be checked before |
| Authorization.DraftFitsOnePair | src/repo_health_doctor/gate/authorization.py:548-820 | it is valid for another pair only if the command is the same and the fingerprints agree |
| Authorization.EmptyCommandIsAccepted | src/repo_health_doctor/gate/authorization.py:671-675 | what could be authorized with a command could be authorized with the empty one |
| Authorization.UnapprovedIsNeverValid | src/repo_health_doctor/gate/authorization.py:647-651 | what is valid is approved, and so is no draft |
| V3Report.ApplyAllowFindings | src/repo_health_doctor/doctor.py:652-670 | every finding is marked by the first allow entry that covers it, or as not allowed |
| V3Report.DiagnoseRepo | src/repo_health_doctor/doctor.py:1211-1408 | the report lists the checks with the statuses that their findings call for |
| V3Report.CountIsPositiveExactlyWhen | src/repo_health_doctor/doctor.py:787-801 | the overall status is decided by whether any check has a status |
| V3Report.DiagnosisExactlyWhen | src/repo_health_doctor/doctor.py:1211-1408 | a scan is blocked exactly for an uncovered secret, under public safety an uncovered text or artifact, or a policy issue; else it warns exactly for something missing or an uncovered large file |
| V3Report.ExtractCandidates | src/repo_health_doctor/evidence/v3_adapter.py:37-60 | one candidate per finding, or one for a check without findings, in order |
| V3Report.BlockIsNeitherLostNorInvented | src/repo_health_doctor/evidence/v3_adapter.py:108-226 | some candidate recommends a block exactly if the overall status is a block |
| V3Report.ReboundCandidatesAreRepresented | src/repo_health_doctor/gate/v3_evaluator.py:357-380 | bound to any subject, the candidates still say the same |
| V3Report.BlockedDiagnosisIsBlocked | src/repo_health_doctor/gate/v3_evaluator.py:231-301 | a blocked diagnosis is blocked at the gate under any policy, after rebinding, whatever other evidence there is |
| V3Report.UncoveredSecretIsBlocked | src/repo_health_doctor/gate/v3_evaluator.py:231-301 | from the scan to the gate: an uncovered secret, or any of these, is blocked under any policy, whatever other evidence there is |
| V3Report.DiagnosisIsNeverAllowed | src/repo_health_doctor/evidence/v3_adapter.py:26-31 | no policy without a severity table lets a diagnosis through, even if it accepts all missing evidence |
| V3Report.UnlessAcceptedNeverAllowed | src/repo_health_doctor/gate/v3_evaluator.py:274-291 | nor does a policy, or none, that neither names nor fully accepts the missing evidence |
| V3Report.EvaluationIsNoWeakerThanCandidate | src/repo_health_doctor/evidence/v3_adapter.py:63-105 | the evaluated verdict is never weaker than the compatibility candidate's |

## Left out

- Subprocesses, Docker, real git invocation, process groups and stream copying: abstract steps that may succeed or fail.
- Failing writes of the Goal Loop's own files inside `finalize_iteration`: the files are fields that are assigned.
- Legacy and kickoff modes of `host_commit.py`, prompts, log files and receipts: they do not feed the commit boundary.
- `git check-ignore` and path checks are one answer per path; `validate_path_text` is a parameter.
- Decoding of paths: they stay byte strings, which `os.fsdecode` maps injectively.
- JSON decoding, lone surrogates, and lower-casing outside ASCII.
- Object members are kept in the order in which they are printed; how `sort_keys` orders unknown keys of a scanner result is not part of this model, because only sizes and lookups matter.
- Placeholder results of scanners that did not run, and the assessment of scanner versions, are parameters of a suite run.
- How the printed scanner result of a suite entry is decoded into the evidence and the context that `RiskMapper` maps: `ExternalEvidence` takes this reading as a parameter, and the mapping of what was read is that of `RiskMapper`.
- Findings, nodes and edges that are not objects: the risk mapper skips them, and they are not part of a document here.
- The prose of decisions (`_build_explanation`, reasons, required actions, confidence): it never feeds the verdict.
- `validate_evidence`, `validate_gate_decision` and the other closed-schema validators: long lists of local checks; their outcome is a field.
- `PolicyYaml.ParseInvertsRender`: renderings use one indentation and line feeds with or without carriage returns; other indentations are read alike by the code but are not printed.
- `Authorization.ValidateExecutionAuthorization`: a schema version or verdict that Python cannot hash raises in the code; here it is an unsupported version or an invalid verdict. Worktree and snapshot bindings checked at run time are left out.
- `V3Report.DiagnoseRepo`: file scanning, pattern matching of paths and loading of policies are inputs; so are the summaries and categories of candidates.
- Error lists are characterized by whether they are empty; which error text comes first is presentation.
- Summaries, formatters, diff and release reports, the command line, examples and maintenance scripts.
