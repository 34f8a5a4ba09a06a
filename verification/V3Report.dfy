/** From a repository scan to a gate verdict: the check statuses of src/repo_health_doctor/doctor.py, the evidence
    candidates of src/repo_health_doctor/evidence/v3_adapter.py, and the policy and subject with which
    src/repo_health_doctor/gate/v3_evaluator.py puts them to the gate. */
module V3Report {
  import opened Wrappers
  import opened Verdicts
  import opened GateEvaluator
  import opened GateEvaluation
  import opened ItemLaws
  import Text

  // ----- scans and reports -----

  datatype Status = Pass | Warning | Blocking

  /** A finding; `allowed` is absent where allow entries do not apply. */
  datatype Finding = Finding(rule: string, severity: Status, file: string, pattern: string, redacted: bool,
                             allowed: Option<bool>, allowId: Option<string>)

  datatype Check = Check(name: string, status: Status, findings: Option<seq<Finding>>)

  datatype Report = Report(overall: Status, passes: nat, warnings: nat, blocks: nat, checks: seq<Check>)

  datatype Allow = Allow(id: string, rule: string, pathPattern: string)

  /** What a finding scanner reports. */
  datatype Hit = Hit(rule: string, file: string, pattern: string, redacted: bool)

  /** What was found in a repository, and the policy that was loaded: its issues, whether it had a source, and its allow
      entries. */
  datatype Scan = Scan(
    readme: bool, license: bool, gitignore: bool, ci: bool, tests: bool, docs: bool, scripts: bool,
    secrets: seq<Hit>,
    largeFiles: seq<Hit>,
    publicSafety: bool,
    publicText: seq<Hit>,
    trackedArtifacts: seq<Hit>,
    issues: seq<Hit>,
    hasPolicy: bool,
    allows: seq<Allow>)

  type PathMatcher = (string, string) -> bool

  function Findings(hits: seq<Hit>, severity: Status): (r: seq<Finding>)
    ensures |r| == |hits| && forall i :: 0 <= i < |r| ==> r[i].severity == severity && r[i].allowed == None
  {
    seq(|hits|, i requires 0 <= i < |hits| =>
      Finding(hits[i].rule, severity, hits[i].file, hits[i].pattern, hits[i].redacted, None, None))
  }

  // ----- allow entries -----

  predicate Covers(a: Allow, f: Finding, matches: PathMatcher) {
    a.rule == f.rule && matches(f.file, a.pathPattern)
  }

  predicate IsCovered(f: Finding, allows: seq<Allow>, matches: PathMatcher) {
    exists a :: a in allows && Covers(a, f, matches)
  }

  /** The finding after `_apply_allow_findings`: marked as allowed by the first entry that covers it. */
  function FirstCover(f: Finding, allows: seq<Allow>, matches: PathMatcher): (r: Finding)
    ensures r.allowed == Some(IsCovered(f, allows, matches))
    ensures r.severity == f.severity
  {
    if allows == [] then f.(allowed := Some(false))
    else if Covers(allows[0], f, matches) then f.(allowed := Some(true), allowId := Some(allows[0].id))
    else FirstCover(f, allows[1..], matches)
  }

  function Applied(findings: seq<Finding>, allows: seq<Allow>, matches: PathMatcher): (r: seq<Finding>)
    ensures |r| == |findings|
    ensures forall i :: 0 <= i < |r| ==> r[i] == FirstCover(findings[i], allows, matches)
  {
    seq(|findings|, i requires 0 <= i < |findings| => FirstCover(findings[i], allows, matches))
  }

  method ApplyToFinding(f: Finding, allows: seq<Allow>, matches: PathMatcher) returns (r: Finding)
    ensures r == FirstCover(f, allows, matches)
  {
    for n := 0 to |allows|
      invariant FirstCover(f, allows, matches) == FirstCover(f, allows[n..], matches)
    {
      assert allows[n..][0] == allows[n] && allows[n..][1..] == allows[n + 1..];
      if Covers(allows[n], f, matches) {
        return f.(allowed := Some(true), allowId := Some(allows[n].id));
      }
    }
    r := f.(allowed := Some(false));
  }

  /** `_apply_allow_findings`. */
  method ApplyAllowFindings(findings: seq<Finding>, allows: seq<Allow>, matches: PathMatcher)
    returns (r: seq<Finding>)
    ensures r == Applied(findings, allows, matches)
  {
    r := [];
    for n := 0 to |findings|
      invariant r == Applied(findings, allows, matches)[..n]
    {
      var f := ApplyToFinding(findings[n], allows, matches);
      r := r + [f];
    }
  }

  // ----- checks -----

  predicate HasUnallowed(findings: seq<Finding>) {
    exists f :: f in findings && f.allowed != Some(true)
  }

  /** A check that warns unless something is there. */
  function PresenceCheck(name: string, found: bool, missing: Option<Hit>): Check {
    Check(name, if found then Pass else Warning,
          if missing.None? then None else Some(if found then [] else Findings([missing.value], Warning)))
  }

  /** A check that has the given status unless every finding is allowed. */
  function FindingsCheck(name: string, findings: seq<Finding>, status: Status): Check {
    Check(name, if HasUnallowed(findings) then status else Pass, Some(findings))
  }

  /** The check of a scanner whose findings have one severity. */
  function ScanCheck(name: string, hits: seq<Hit>, severity: Status, allows: seq<Allow>, matches: PathMatcher): Check {
    FindingsCheck(name, Applied(Findings(hits, severity), allows, matches), severity)
  }

  function PolicyCheck(issues: seq<Hit>): Check {
    Check("policy", if issues != [] then Blocking else Pass, Some(Findings(issues, Blocking)))
  }

  function Missing(rule: string, pattern: string): Option<Hit> {
    Some(Hit(rule, ".", pattern, false))
  }

  function PresenceChecks(s: Scan): seq<Check> {
    [PresenceCheck("readme", s.readme, Missing("rhd.repository.missing_readme", "missing_readme")),
     PresenceCheck("license", s.license, Missing("rhd.repository.missing_license", "missing_license")),
     PresenceCheck("gitignore", s.gitignore, None),
     PresenceCheck("ci", s.ci, Missing("rhd.repository.missing_ci", "missing_ci")),
     PresenceCheck("tests", s.tests, Missing("rhd.repository.missing_tests", "missing_tests")),
     PresenceCheck("docs", s.docs, None),
     PresenceCheck("scripts", s.scripts, None)]
  }

  function ScanChecks(s: Scan, matches: PathMatcher): seq<Check> {
    [ScanCheck("secrets_scan", s.secrets, Blocking, s.allows, matches),
     ScanCheck("large_files", s.largeFiles, Warning, s.allows, matches)]
    + (if s.publicSafety then
         [ScanCheck("public_text_safety", s.publicText, Blocking, s.allows, matches),
          ScanCheck("tracked_artifacts", s.trackedArtifacts, Blocking, s.allows, matches)]
       else [])
    + (if s.hasPolicy || s.issues != [] then [PolicyCheck(s.issues)] else [])
  }

  function CountOf(checks: seq<Check>, status: Status): nat {
    if checks == [] then 0
    else CountOf(checks[..|checks| - 1], status) + if checks[|checks| - 1].status == status then 1 else 0
  }

  /** `_build_report`. */
  function BuildReport(checks: seq<Check>): Report {
    var passes, warnings, blocks := CountOf(checks, Pass), CountOf(checks, Warning), CountOf(checks, Blocking);
    Report(if blocks > 0 then Blocking else if warnings > 0 then Warning else Pass, passes, warnings, blocks, checks)
  }

  /** What `diagnose_repo` reports. */
  function Diagnosis(s: Scan, matches: PathMatcher): Report {
    BuildReport(PresenceChecks(s) + ScanChecks(s, matches))
  }

  method RunScanCheck(name: string, hits: seq<Hit>, severity: Status, allows: seq<Allow>, matches: PathMatcher)
    returns (c: Check)
    ensures c == ScanCheck(name, hits, severity, allows, matches)
  {
    var findings := ApplyAllowFindings(Findings(hits, severity), allows, matches);
    c := FindingsCheck(name, findings, severity);
  }

  /** The check-status part of `diagnose_repo`. */
  method DiagnoseRepo(s: Scan, matches: PathMatcher) returns (r: Report)
    ensures r == Diagnosis(s, matches)
  {
    var checks := PresenceChecks(s);
    var secrets := RunScanCheck("secrets_scan", s.secrets, Blocking, s.allows, matches);
    var largeFiles := RunScanCheck("large_files", s.largeFiles, Warning, s.allows, matches);
    var scanned := [secrets, largeFiles];
    if s.publicSafety {
      var publicText := RunScanCheck("public_text_safety", s.publicText, Blocking, s.allows, matches);
      var artifacts := RunScanCheck("tracked_artifacts", s.trackedArtifacts, Blocking, s.allows, matches);
      scanned := scanned + [publicText, artifacts];
    }
    if s.hasPolicy || s.issues != [] {
      scanned := scanned + [PolicyCheck(s.issues)];
    }
    assert scanned == ScanChecks(s, matches);
    r := BuildReport(checks + scanned);
  }

  lemma {:induction false} CountIsPositiveExactlyWhen(checks: seq<Check>, status: Status)
    ensures CountOf(checks, status) > 0 <==> exists c :: c in checks && c.status == status
  {
    if checks != [] {
      var n := |checks| - 1;
      CountIsPositiveExactlyWhen(checks[..n], status);
      assert checks == checks[..n] + [checks[n]];
      assert checks[n] in checks;
    }
  }

  // ----- when a diagnosis blocks or warns -----

  /** No allow entry has the finding's rule and matches its file. */
  predicate IsUncovered(h: Hit, s: Scan, matches: PathMatcher) {
    forall a :: a in s.allows ==> !(a.rule == h.rule && matches(h.file, a.pathPattern))
  }

  predicate SomeUncovered(hits: seq<Hit>, s: Scan, matches: PathMatcher) {
    exists h :: h in hits && IsUncovered(h, s, matches)
  }

  lemma UncoveredIsUnallowed(hits: seq<Hit>, severity: Status, s: Scan, matches: PathMatcher)
    ensures HasUnallowed(Applied(Findings(hits, severity), s.allows, matches)) <==> SomeUncovered(hits, s, matches)
  {
    var findings := Applied(Findings(hits, severity), s.allows, matches);
    forall i | 0 <= i < |hits|
      ensures findings[i] in findings && hits[i] in hits
      ensures findings[i].allowed != Some(true) <==> IsUncovered(hits[i], s, matches)
    {
    }
    if HasUnallowed(findings) {
      var i :| 0 <= i < |findings| && findings[i].allowed != Some(true);
      assert IsUncovered(hits[i], s, matches);
    }
    if SomeUncovered(hits, s, matches) {
      var i :| 0 <= i < |hits| && IsUncovered(hits[i], s, matches);
      assert findings[i].allowed != Some(true);
    }
  }

  lemma ScanStatus(name: string, hits: seq<Hit>, severity: Status, s: Scan, matches: PathMatcher)
    ensures ScanCheck(name, hits, severity, s.allows, matches).status ==
            if SomeUncovered(hits, s, matches) then severity else Pass
  {
    UncoveredIsUnallowed(hits, severity, s, matches);
  }

  predicate SomeStatus(checks: seq<Check>, status: Status) {
    exists c :: c in checks && c.status == status
  }

  lemma StatusOfBoth(a: seq<Check>, b: seq<Check>, status: Status)
    ensures SomeStatus(a + b, status) <==> SomeStatus(a, status) || SomeStatus(b, status)
  {
    assert forall c :: c in a + b <==> c in a || c in b;
  }

  lemma StatusOfOne(c: Check, status: Status)
    ensures SomeStatus([c], status) <==> c.status == status
  {
    assert c in [c];
  }

  lemma StatusOfTwo(c: Check, d: Check, status: Status)
    ensures SomeStatus([c, d], status) <==> c.status == status || d.status == status
  {
    assert [c, d] == [c] + [d];
    StatusOfBoth([c], [d], status);
    StatusOfOne(c, status);
    StatusOfOne(d, status);
  }

  lemma PresenceStatusAt(s: Scan, i: int)
    requires 0 <= i < 7
    ensures PresenceChecks(s)[i].status == if PresentAt(s, i) then Pass else Warning
  {
  }

  lemma StatusesFrom(checks: seq<Check>, present: int -> bool)
    requires forall i :: 0 <= i < |checks| ==> checks[i].status == if present(i) then Pass else Warning
    ensures !SomeStatus(checks, Blocking)
    ensures SomeStatus(checks, Warning) <==> exists i :: 0 <= i < |checks| && !present(i)
  {
    forall i | 0 <= i < |checks| && !present(i) ensures SomeStatus(checks, Warning) {
      assert checks[i] in checks;
    }
  }

  lemma PresenceStatuses(s: Scan)
    ensures !SomeStatus(PresenceChecks(s), Blocking)
    ensures SomeStatus(PresenceChecks(s), Warning) <==>
              !(s.readme && s.license && s.gitignore && s.ci && s.tests && s.docs && s.scripts)
  {
    var present := (i: int) => PresentAt(s, i);
    forall i | 0 <= i < 7
      ensures PresenceChecks(s)[i].status == if present(i) then Pass else Warning
    {
      PresenceStatusAt(s, i);
    }
    StatusesFrom(PresenceChecks(s), present);
    assert !present(0) || !present(1) || !present(2) || !present(3) || !present(4) || !present(5) || !present(6) <==>
           !(s.readme && s.license && s.gitignore && s.ci && s.tests && s.docs && s.scripts);
  }

  predicate PresentAt(s: Scan, i: int) {
    match i
    case 0 => s.readme
    case 1 => s.license
    case 2 => s.gitignore
    case 3 => s.ci
    case 4 => s.tests
    case 5 => s.docs
    case _ => s.scripts
  }

  lemma ScanStatuses(s: Scan, matches: PathMatcher)
    ensures SomeStatus(ScanChecks(s, matches), Blocking) <==>
              || SomeUncovered(s.secrets, s, matches)
              || (s.publicSafety
                  && (SomeUncovered(s.publicText, s, matches) || SomeUncovered(s.trackedArtifacts, s, matches)))
              || s.issues != []
    ensures SomeStatus(ScanChecks(s, matches), Warning) <==> SomeUncovered(s.largeFiles, s, matches)
  {
    var secrets := ScanCheck("secrets_scan", s.secrets, Blocking, s.allows, matches);
    var large := ScanCheck("large_files", s.largeFiles, Warning, s.allows, matches);
    var text := ScanCheck("public_text_safety", s.publicText, Blocking, s.allows, matches);
    var tracked := ScanCheck("tracked_artifacts", s.trackedArtifacts, Blocking, s.allows, matches);
    var public := if s.publicSafety then [text, tracked] else [];
    var policy := if s.hasPolicy || s.issues != [] then [PolicyCheck(s.issues)] else [];
    assert ScanChecks(s, matches) == [secrets, large] + public + policy;
    ScanStatus("secrets_scan", s.secrets, Blocking, s, matches);
    ScanStatus("large_files", s.largeFiles, Warning, s, matches);
    ScanStatus("public_text_safety", s.publicText, Blocking, s, matches);
    ScanStatus("tracked_artifacts", s.trackedArtifacts, Blocking, s, matches);
    forall status: Status
      ensures SomeStatus([secrets, large] + public + policy, status) <==>
                || secrets.status == status || large.status == status
                || (s.publicSafety && (text.status == status || tracked.status == status))
                || (policy != [] && PolicyCheck(s.issues).status == status)
    {
      StatusOfBoth([secrets, large] + public, policy, status);
      StatusOfBoth([secrets, large], public, status);
      StatusOfTwo(secrets, large, status);
      StatusOfTwo(text, tracked, status);
      StatusOfOne(PolicyCheck(s.issues), status);
    }
  }

  /** A scan is blocked exactly for a secret that no allow entry covers, under public safety also for such a public text
      or a tracked artifact, or for an issue of the policy. If it is not, it warns exactly for something missing or a large
      file that no allow entry covers. */
  lemma DiagnosisExactlyWhen(s: Scan, matches: PathMatcher)
    ensures Diagnosis(s, matches).overall == Blocking <==>
              || SomeUncovered(s.secrets, s, matches)
              || (s.publicSafety
                  && (SomeUncovered(s.publicText, s, matches) || SomeUncovered(s.trackedArtifacts, s, matches)))
              || s.issues != []
    ensures Diagnosis(s, matches).overall == Warning <==>
              && Diagnosis(s, matches).overall != Blocking
              && (!(s.readme && s.license && s.gitignore && s.ci && s.tests && s.docs && s.scripts)
                  || SomeUncovered(s.largeFiles, s, matches))
  {
    var checks := PresenceChecks(s) + ScanChecks(s, matches);
    CountIsPositiveExactlyWhen(checks, Blocking);
    CountIsPositiveExactlyWhen(checks, Warning);
    assert CountOf(checks, Blocking) > 0 <==> SomeStatus(checks, Blocking);
    assert CountOf(checks, Warning) > 0 <==> SomeStatus(checks, Warning);
    StatusOfBoth(PresenceChecks(s), ScanChecks(s, matches), Blocking);
    StatusOfBoth(PresenceChecks(s), ScanChecks(s, matches), Warning);
    PresenceStatuses(s);
    ScanStatuses(s, matches);
  }

  // ----- evidence candidates -----

  /** One candidate: a finding of a check, or the check itself. */
  datatype Source = OfFinding(check: Check, finding: Finding) | OfCheck(check: Check)

  function FindingSources(c: Check, findings: seq<Finding>): (r: seq<Source>)
    ensures |r| == |findings|
    ensures forall i :: 0 <= i < |r| ==> r[i] == OfFinding(c, findings[i])
  {
    seq(|findings|, i requires 0 <= i < |findings| => OfFinding(c, findings[i]))
  }

  function CheckSources(c: Check): seq<Source> {
    if c.findings.Some? && c.findings.value != [] then FindingSources(c, c.findings.value) else [OfCheck(c)]
  }

  function Sources(checks: seq<Check>): seq<Source> {
    if checks == [] then [] else Sources(checks[..|checks| - 1]) + CheckSources(checks[|checks| - 1])
  }

  method ListFindings(c: Check, findings: seq<Finding>) returns (sources: seq<Source>)
    ensures sources == FindingSources(c, findings)
  {
    sources := [];
    for k := 0 to |findings|
      invariant sources == FindingSources(c, findings)[..k]
    {
      sources := sources + [OfFinding(c, findings[k])];
    }
  }

  /** `extract_evidence_candidates_from_v3_report`. */
  method ExtractCandidates(r: Report) returns (sources: seq<Source>)
    ensures sources == Sources(r.checks)
  {
    sources := [];
    for n := 0 to |r.checks|
      invariant sources == Sources(r.checks[..n])
    {
      assert r.checks[..n + 1][..n] == r.checks[..n];
      var c := r.checks[n];
      if c.findings.Some? && c.findings.value != [] {
        var found := ListFindings(c, c.findings.value);
        sources := sources + found;
      } else {
        sources := sources + [OfCheck(c)];
      }
    }
    assert r.checks[..|r.checks|] == r.checks;
  }

  function SeverityName(s: Status): string {
    match s
    case Pass => "info"
    case Warning => "warn"
    case Blocking => "block"
  }

  /** The severity of a candidate: an allowed finding is a warning, whatever it was. */
  function SeverityOf(x: Source): Status {
    match x
    case OfCheck(c) => c.status
    case OfFinding(_, f) => if f.allowed == Some(true) then Warning else f.severity
  }

  const BASE_LIMITATIONS := [
    "v3_report_candidate_only",
    "not_execution_authorization",
    "no_finding_is_not_safety_proof",
    "missing_evidence_must_not_become_confidence"]
  const BASE_RESIDUAL_RISKS := ["v3_report_does_not_prove_safety", "commit_and_tree_binding_missing"]

  /** What the model does not compute of a candidate: its category, token and summary, and whether it is
      valid. */
  datatype Judged = Judged(category: string, token: string, summary: string, valid: bool)

  function CandidateLimitations(present: bool, token: string): (r: seq<string>)
    ensures BASE_LIMITATIONS <= r
  {
    BASE_LIMITATIONS + ["v3_check:" + token] + if present then [] else ["no_finding_scoped_to_current_check_only"]
  }

  /** `_base_candidate`, as the gate reads it. */
  function Candidate(x: Source, j: Judged): Item {
    var present := x.OfFinding?;
    RawItem(
      j.valid, false, Acceptable, Some(true), true, Some(present), if present then 1 else 0, false, false,
      Some(if SeverityOf(x).Blocking? then "block" else "requires_human_review"),
      Some(if !present then "not_applicable" else if x.finding.redacted then "redacted" else "unknown"),
      Some(j.category),
      Some(if present then (if x.finding.pattern != "" then x.finding.pattern else x.finding.rule) else "check_" + j.token),
      Some(SeverityName(SeverityOf(x))),
      Some(j.summary),
      CandidateLimitations(present, j.token),
      BASE_RESIDUAL_RISKS)
  }

  type Judge = Source -> Judged

  function Candidates(sources: seq<Source>, judge: Judge): (r: seq<Item>)
    ensures |r| == |sources| && forall i :: 0 <= i < |r| ==> r[i] == Candidate(sources[i], judge(sources[i]))
  {
    seq(|sources|, i requires 0 <= i < |sources| => Candidate(sources[i], judge(sources[i])))
  }

  /** Item i says of the same source what the candidate says, whatever its subject. */
  predicate SaysTheSame(i: Item, candidate: Item) {
    && i.effect == candidate.effect && i.present == candidate.present && i.count == candidate.count
    && i.limitations == candidate.limitations
  }

  /** An item of which all but the subject and the binding is as the validator asks. */
  predicate IsSoundButForSubject(i: Item) {
    IsChecked(i.(subject := Some(true), binding := Acceptable))
  }

  /** `_bind_evidence_candidate_to_subject`: another subject and binding. What the validator says may change with them,
      but it never accepts a malformed subject or binding. */
  function Rebound(i: Item, binding: Binding, subjectOk: bool, accepted: bool): Item
    requires IsSoundButForSubject(i)
  {
    i.(binding := binding, subject := Some(subjectOk), valid := accepted && subjectOk && binding != NoBinding)
  }

  function AllRebound(candidates: seq<Item>, binding: Binding, subjectOk: bool, isValid: Item -> bool): (r: seq<Item>)
    requires forall c :: c in candidates ==> IsSoundButForSubject(c)
    ensures |r| == |candidates|
    ensures forall k :: 0 <= k < |r| ==> r[k] == Rebound(candidates[k], binding, subjectOk, isValid(candidates[k]))
  {
    seq(|candidates|, k requires 0 <= k < |candidates| =>
      assert candidates[k] in candidates;
      Rebound(candidates[k], binding, subjectOk, isValid(candidates[k])))
  }

  /** Among the items there is one for every candidate. */
  predicate Represents(items: seq<Item>, candidates: seq<Item>) {
    forall c :: c in candidates ==> exists i :: i in items && SaysTheSame(i, c)
  }

  lemma CandidatesAreSound(sources: seq<Source>, judge: Judge)
    ensures forall c :: c in Candidates(sources, judge) ==> IsSoundButForSubject(c)
  {
    forall c | c in Candidates(sources, judge) ensures IsSoundButForSubject(c) {
      var k :| 0 <= k < |sources| && Candidates(sources, judge)[k] == c;
      CandidateIsSound(sources[k], judge(sources[k]));
    }
  }

  lemma CandidateIsSound(x: Source, j: Judged)
    ensures IsSoundButForSubject(Candidate(x, j))
  {
    assert Candidate(x, j).limitations[0] == BASE_LIMITATIONS[0];
  }

  /** Rebound to any subject, and joined by any other evidence, the candidates are still represented. */
  lemma ReboundCandidatesAreRepresented(sources: seq<Source>, judge: Judge, binding: Binding, subjectOk: bool,
                                        isValid: Item -> bool, others: seq<Item>)
    ensures var candidates := Candidates(sources, judge);
            && (forall c :: c in candidates ==> IsSoundButForSubject(c))
            && Represents(AllRebound(candidates, binding, subjectOk, isValid) + others, candidates)
  {
    CandidatesAreSound(sources, judge);
    ReboundAreRepresented(Candidates(sources, judge), binding, subjectOk, isValid, others);
  }

  lemma ReboundAreRepresented(candidates: seq<Item>, binding: Binding, subjectOk: bool, isValid: Item -> bool,
                              others: seq<Item>)
    requires forall c :: c in candidates ==> IsSoundButForSubject(c)
    ensures Represents(AllRebound(candidates, binding, subjectOk, isValid) + others, candidates)
  {
    var items := AllRebound(candidates, binding, subjectOk, isValid) + others;
    forall c | c in candidates ensures exists i :: i in items && SaysTheSame(i, c) {
      var k :| 0 <= k < |candidates| && candidates[k] == c;
      assert items[k] in items && SaysTheSame(items[k], c);
    }
  }

  // ----- blocking -----

  predicate Recommends(x: Source) {
    SeverityOf(x).Blocking?
  }

  /** Where a check stands in for its findings: it blocks exactly if one of its candidates does. */
  predicate IsCandid(c: Check) {
    c.status.Blocking? <==> exists x :: x in CheckSources(c) && Recommends(x)
  }

  lemma FindingsCheckIsCandid(name: string, findings: seq<Finding>, status: Status)
    requires status in {Warning, Blocking} && forall f :: f in findings ==> f.severity == status
    ensures IsCandid(FindingsCheck(name, findings, status))
  {
    var c := FindingsCheck(name, findings, status);
    if status.Blocking? && HasUnallowed(findings) {
      var i :| 0 <= i < |findings| && findings[i].allowed != Some(true);
      assert CheckSources(c)[i] == OfFinding(c, findings[i]);
      assert Recommends(CheckSources(c)[i]);
    }
    if x :| x in CheckSources(c) && Recommends(x) {
      assert findings != [] ==> x.OfFinding? && x.finding in findings;
    }
  }

  lemma ScannedIsCandid(name: string, hits: seq<Hit>, severity: Status, allows: seq<Allow>, matches: PathMatcher)
    requires severity in {Warning, Blocking}
    ensures IsCandid(ScanCheck(name, hits, severity, allows, matches))
  {
    FindingsCheckIsCandid(name, Applied(Findings(hits, severity), allows, matches), severity);
  }

  lemma PresenceCheckIsCandid(name: string, found: bool, missing: Option<Hit>)
    ensures IsCandid(PresenceCheck(name, found, missing))
  {
    var c := PresenceCheck(name, found, missing);
    forall x | x in CheckSources(c) && x.OfFinding? ensures x.finding.severity == Warning {
      assert x.finding in c.findings.value;
    }
  }

  lemma PolicyCheckIsCandid(issues: seq<Hit>)
    ensures IsCandid(PolicyCheck(issues))
  {
    var c := PolicyCheck(issues);
    if issues != [] {
      assert CheckSources(c)[0] == OfFinding(c, Findings(issues, Blocking)[0]);
      assert Recommends(CheckSources(c)[0]);
    }
  }

  lemma ChecksAreCandid(s: Scan, matches: PathMatcher)
    ensures forall c :: c in PresenceChecks(s) + ScanChecks(s, matches) ==> IsCandid(c)
  {
    forall c | c in PresenceChecks(s) ensures IsCandid(c) {
      var i :| 0 <= i < 7 && PresenceChecks(s)[i] == c;
      PresenceAt(s, i);
    }
    forall c | c in ScanChecks(s, matches) ensures IsCandid(c) {
      ScanCheckIsCandid(s, matches, c);
    }
  }

  lemma PresenceAt(s: Scan, i: nat)
    requires i < 7
    ensures IsCandid(PresenceChecks(s)[i])
  {
    var c := PresenceChecks(s)[i];
    var name, found, missing :| c == PresenceCheck(name, found, missing);
    PresenceCheckIsCandid(name, found, missing);
  }

  ghost predicate IsScanCheck(c: Check, s: Scan, matches: PathMatcher) {
    || c == PolicyCheck(s.issues)
    || exists name, hits, severity ::
         severity in {Warning, Blocking} && c == ScanCheck(name, hits, severity, s.allows, matches)
  }

  lemma EveryScanCheck(s: Scan, matches: PathMatcher, c: Check)
    requires c in ScanChecks(s, matches)
    ensures IsScanCheck(c, s, matches)
  {
  }

  lemma ScanCheckIsCandid(s: Scan, matches: PathMatcher, c: Check)
    requires c in ScanChecks(s, matches)
    ensures IsCandid(c)
  {
    EveryScanCheck(s, matches, c);
    if c == PolicyCheck(s.issues) {
      PolicyCheckIsCandid(s.issues);
    } else {
      var name, hits, severity :| severity in {Warning, Blocking} && c == ScanCheck(name, hits, severity, s.allows, matches);
      ScannedIsCandid(name, hits, severity, s.allows, matches);
    }
  }

  lemma {:induction false} SourcesOfChecks(checks: seq<Check>, x: Source)
    ensures x in Sources(checks) <==> exists c :: c in checks && x in CheckSources(c)
  {
    if checks != [] {
      var n := |checks| - 1;
      SourcesOfChecks(checks[..n], x);
      assert checks == checks[..n] + [checks[n]];
      assert checks[n] in checks;
    }
  }

  /** The candidates of a diagnosis recommend a block exactly if its overall status is a block: neither is a block lost
      on the way, nor made up. */
  lemma BlockIsNeitherLostNorInvented(s: Scan, matches: PathMatcher)
    ensures var r := Diagnosis(s, matches);
            r.overall == Blocking <==> exists x :: x in Sources(r.checks) && Recommends(x)
  {
    var r := Diagnosis(s, matches);
    ChecksAreCandid(s, matches);
    CountIsPositiveExactlyWhen(r.checks, Blocking);
    forall x ensures x in Sources(r.checks) <==> exists c :: c in r.checks && x in CheckSources(c) {
      SourcesOfChecks(r.checks, x);
    }
  }

  // ----- at the gate -----

  lemma BlockEffectBlocks(i: Item, policy: Policy, see: Item -> Seen)
    requires IsSeer(see, policy) && i.effect == Some("block")
    ensures Block in see(i).verdicts
  {
    ItemVerdictIsSeen(i, Block, policy, see);
  }

  lemma BlockSeenBlocks(i: Item, items: seq<Item>, see: Item -> Seen, subject: Option<bool>, policy: Policy,
                        suites: seq<Suite>, sandbox: seq<SandboxItem>)
    requires i in items && Block in see(i).verdicts
    ensures GateVerdict(Question(subject, Digests(items, see), suites, sandbox), policy) == Block
  {
    SeenVerdictReachesGate(i, items, see, Block, subject, policy, suites, sandbox);
    NothingIsAboveBlock(GateVerdict(Question(subject, Digests(items, see), suites, sandbox), policy));
  }

  lemma NothingIsAboveBlock(v: Verdict)
    requires AtLeast(v, Block)
    ensures v == Block
  {
  }

  lemma BlockingItemBlocks(i: Item, items: seq<Item>, see: Item -> Seen, subject: Option<bool>, policy: Policy,
                           suites: seq<Suite>, sandbox: seq<SandboxItem>)
    requires IsSeer(see, policy) && i in items && i.effect == Some("block")
    ensures GateVerdict(Question(subject, Digests(items, see), suites, sandbox), policy) == Block
  {
    BlockEffectBlocks(i, policy, see);
    BlockSeenBlocks(i, items, see, subject, policy, suites, sandbox);
  }

  /** Some item stands for a candidate that recommends a block. */
  lemma BlockingItem(s: Scan, matches: PathMatcher, judge: Judge, items: seq<Item>) returns (i: Item)
    requires Represents(items, Candidates(Sources(Diagnosis(s, matches).checks), judge))
    requires Diagnosis(s, matches).overall == Blocking
    ensures i in items && i.effect == Some("block")
  {
    var sources := Sources(Diagnosis(s, matches).checks);
    BlockIsNeitherLostNorInvented(s, matches);
    var x :| x in sources && Recommends(x);
    i := Representative(sources, judge, items, x);
    assert Candidate(x, judge(x)).effect == Some("block");
  }

  lemma Representative(sources: seq<Source>, judge: Judge, items: seq<Item>, x: Source) returns (i: Item)
    requires Represents(items, Candidates(sources, judge)) && x in sources
    ensures i in items && SaysTheSame(i, Candidate(x, judge(x)))
  {
    var k :| 0 <= k < |sources| && sources[k] == x;
    var c := Candidates(sources, judge)[k];
    assert c in Candidates(sources, judge);
    i :| i in items && SaysTheSame(i, c);
  }

  /** A diagnosis whose overall status is a block is blocked at the gate: under any policy, whatever subject its
      candidates are bound to, and whatever other evidence, suites and sandbox items there are. */
  lemma BlockedDiagnosisIsBlocked(s: Scan, matches: PathMatcher, judge: Judge, items: seq<Item>, subject: Option<bool>,
                                  policy: Policy, suites: seq<Suite>, sandbox: seq<SandboxItem>)
    requires Represents(items, Candidates(Sources(Diagnosis(s, matches).checks), judge))
    requires Diagnosis(s, matches).overall == Blocking
    ensures GateVerdict(Ask(subject, items, policy, suites, sandbox), policy) == Block
  {
    var i := BlockingItem(s, matches, judge, items);
    SeerIsSeer(policy);
    BlockingItemBlocks(i, items, Seer(policy), subject, policy, suites, sandbox);
  }

  /** From the scan to the gate: a secret that no allow entry covers is a block under any policy, whatever other evidence
      there is; and so is, under public safety, such a public text or tracked artifact, and always an issue of the
      policy. */
  lemma UncoveredSecretIsBlocked(s: Scan, matches: PathMatcher, judge: Judge, items: seq<Item>, subject: Option<bool>,
                                 policy: Policy, suites: seq<Suite>, sandbox: seq<SandboxItem>)
    requires Represents(items, Candidates(Sources(Diagnosis(s, matches).checks), judge))
    requires || SomeUncovered(s.secrets, s, matches)
             || (s.publicSafety
                 && (SomeUncovered(s.publicText, s, matches) || SomeUncovered(s.trackedArtifacts, s, matches)))
             || s.issues != []
    ensures GateVerdict(Ask(subject, items, policy, suites, sandbox), policy) == Block
  {
    DiagnosisExactlyWhen(s, matches);
    BlockedDiagnosisIsBlocked(s, matches, judge, items, subject, policy, suites, sandbox);
  }

  // ----- never allow_limited -----

  const NEEDS_CONFIDENCE := "missing_evidence_must_not_become_confidence"

  lemma {:induction false} LowerKeepsPrefix(s: string, part: string)
    requires part <= s && Text.Lower(part) == part
    ensures Text.Contains(Text.Lower(s), part)
  {
    assert part <= Text.Lower(s) by {
      assert forall k :: 0 <= k < |part| ==> Text.Lower(s)[k] == Text.Lower(part)[k];
    }
  }

  /** Without a severity table of its own a policy takes a limitation that begins with "missing" for no less than
      medium. */
  lemma MissingIsNotLow(limitation: string, policy: Policy)
    requires "missing" <= limitation && policy.severities.NoTable?
    ensures LimitationVerdict(limitation, policy) != AllowLimited
  {
    assert Text.Lower("missing") == "missing";
    LowerKeepsPrefix(limitation, "missing");
  }

  lemma CandidateLimits(x: Source, j: Judged, i: Item)
    requires SaysTheSame(i, Candidate(x, j))
    ensures NEEDS_CONFIDENCE in i.limitations
  {
    assert i.limitations[3] == BASE_LIMITATIONS[3] == NEEDS_CONFIDENCE;
  }

  lemma LimitationIsSeen(i: Item, limitation: string, policy: Policy, see: Item -> Seen) returns (v: Verdict)
    requires IsSeer(see, policy) && limitation in i.limitations && LimitationVerdict(limitation, policy) != AllowLimited
    ensures v in see(i).verdicts && v != AllowLimited
  {
    v := LimitationVerdict(limitation, policy);
    assert v in LimitationVerdicts(i.limitations, policy);
    ItemVerdictIsSeen(i, v, policy, see);
  }

  lemma LimitedItemIsSeen(i: Item, policy: Policy, see: Item -> Seen) returns (v: Verdict)
    requires IsSeer(see, policy) && NEEDS_CONFIDENCE in i.limitations && policy.severities.NoTable?
    ensures v in see(i).verdicts && v != AllowLimited
  {
    MissingIsNotLow(NEEDS_CONFIDENCE, policy);
    v := LimitationIsSeen(i, NEEDS_CONFIDENCE, policy, see);
  }

  lemma SeenWarningWarns(i: Item, items: seq<Item>, see: Item -> Seen, v: Verdict, subject: Option<bool>, policy: Policy,
                         suites: seq<Suite>, sandbox: seq<SandboxItem>)
    requires i in items && v in see(i).verdicts && v != AllowLimited
    ensures AtLeast(GateVerdict(Question(subject, Digests(items, see), suites, sandbox), policy), Warn)
  {
    SeenVerdictReachesGate(i, items, see, v, subject, policy, suites, sandbox);
  }

  lemma LimitedItemWarns(i: Item, items: seq<Item>, see: Item -> Seen, subject: Option<bool>, policy: Policy,
                         suites: seq<Suite>, sandbox: seq<SandboxItem>)
    requires IsSeer(see, policy) && i in items && NEEDS_CONFIDENCE in i.limitations && policy.severities.NoTable?
    ensures AtLeast(GateVerdict(Question(subject, Digests(items, see), suites, sandbox), policy), Warn)
  {
    var v := LimitedItemIsSeen(i, policy, see);
    SeenWarningWarns(i, items, see, v, subject, policy, suites, sandbox);
  }

  lemma {:induction false} EveryCheckIsASource(checks: seq<Check>)
    requires checks != []
    ensures Sources(checks) != []
  {
  }

  /** No policy without a severity table lets a diagnosis through: every candidate carries a limitation that such a
      policy warns about, even if the policy accepts all missing evidence. */
  lemma DiagnosisIsNeverAllowed(s: Scan, matches: PathMatcher, judge: Judge, items: seq<Item>, subject: Option<bool>,
                                policy: Policy, suites: seq<Suite>, sandbox: seq<SandboxItem>)
    requires Represents(items, Candidates(Sources(Diagnosis(s, matches).checks), judge))
    requires policy.severities.NoTable?
    ensures AtLeast(GateVerdict(Ask(subject, items, policy, suites, sandbox), policy), Warn)
  {
    var sources := Sources(Diagnosis(s, matches).checks);
    EveryCheckIsASource(Diagnosis(s, matches).checks);
    var x := sources[0];
    var i := Representative(sources, judge, items, x);
    CandidateLimits(x, judge(x), i);
    SeerIsSeer(policy);
    LimitedItemWarns(i, items, Seer(policy), subject, policy, suites, sandbox);
  }

  const V3_MISSING_EVIDENCE := [
    "v3_report_lacks_commit_binding",
    "v3_report_lacks_tree_hash",
    "v3_report_lacks_formal_confidence_model",
    "v3_report_lacks_structured_raw_handling",
    "v3_report_is_check_oriented_not_gate_evaluator"]

  /** A caller's policy; what it does not mention is absent. */
  datatype CallerPolicy = CallerPolicy(
    severities: SeverityTable,
    missing: Option<seq<string>>,
    mandatory: Option<seq<string>>,
    acceptedMissing: Option<seq<string>>,
    dynamicJudgment: Option<bool>)

  function Or<T>(value: Option<T>, other: T): T {
    if value.Some? then value.value else other
  }

  /** The policy that `_evaluate_gate_decision_from_candidates` makes of it. */
  function EffectivePolicy(p: CallerPolicy, demoMissing: seq<string>): Policy {
    Policy(p.severities, Or(p.missing, V3_MISSING_EVIDENCE) + demoMissing, Or(p.mandatory, []), Or(p.acceptedMissing, []),
           Or(p.dynamicJudgment, false))
  }

  lemma MissingNameIsNotAllowed(q: Question, policy: Policy, name: string)
    requires name in policy.missing && name !in policy.acceptedMissing
    ensures AtLeast(GateVerdict(q, policy), Warn)
  {
    assert name in Unaccepted(MissingNames(q.items, policy), policy);
    AllowLimitedNeedsNothingMissing(q, policy);
  }

  lemma AllowLimitedNeedsNothingMissing(q: Question, policy: Policy)
    requires Unaccepted(MissingNames(q.items, policy), policy) != {}
    ensures AtLeast(GateVerdict(q, policy), Warn)
  {
    var names := Unaccepted(MissingNames(q.items, policy), policy);
    var v := if BlindToRuntime(names, policy) then Quarantine else Warn;
    assert v in AllVerdicts(q, policy);
    CalledForIsReached(q, policy, v);
  }

  /** A caller's policy that neither names its own missing evidence nor accepts all that v3 reports lack never lets
      anything through, whatever its severity table; no policy at all is the first of these. */
  lemma UnlessAcceptedNeverAllowed(p: CallerPolicy, demoMissing: seq<string>, q: Question)
    requires p.missing.None? && exists n :: n in V3_MISSING_EVIDENCE && n !in Or(p.acceptedMissing, [])
    ensures AtLeast(GateVerdict(q, EffectivePolicy(p, demoMissing)), Warn)
  {
    var n :| n in V3_MISSING_EVIDENCE && n !in Or(p.acceptedMissing, []);
    MissingNameIsNotAllowed(q, EffectivePolicy(p, demoMissing), n);
  }

  /** `build_gate_decision_candidate_from_v3_report`: the verdict of the compatibility candidate. */
  function CandidateVerdict(r: Report): Verdict {
    if r.overall == Blocking then Block else Warn
  }

  /** Evaluated under a policy that accepts no missing evidence, a diagnosis never gets a weaker verdict than its
      compatibility candidate promised. */
  lemma EvaluationIsNoWeakerThanCandidate(s: Scan, matches: PathMatcher, judge: Judge, items: seq<Item>,
                                          subject: Option<bool>, p: CallerPolicy, demoMissing: seq<string>,
                                          suites: seq<Suite>, sandbox: seq<SandboxItem>)
    requires Represents(items, Candidates(Sources(Diagnosis(s, matches).checks), judge))
    requires p.missing.None? && p.acceptedMissing.None?
    ensures var policy := EffectivePolicy(p, demoMissing);
            AtLeast(GateVerdict(Ask(subject, items, policy, suites, sandbox), policy),
                    CandidateVerdict(Diagnosis(s, matches)))
  {
    var policy := EffectivePolicy(p, demoMissing);
    if Diagnosis(s, matches).overall == Blocking {
      BlockedDiagnosisIsBlocked(s, matches, judge, items, subject, policy, suites, sandbox);
    } else {
      assert V3_MISSING_EVIDENCE[0] in V3_MISSING_EVIDENCE;
      UnlessAcceptedNeverAllowed(p, demoMissing, Ask(subject, items, policy, suites, sandbox));
    }
  }
}
