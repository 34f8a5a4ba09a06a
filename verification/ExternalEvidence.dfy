/** Validation of imported scanner suite reports, src/repo_health_doctor/gate/external_evidence.py, and what the gate
    makes of them: no dropped or missing scan gets past it unnoticed. */
module ExternalEvidence {
  import opened Wrappers
  import opened Verdicts
  import opened GateEvaluator
  import SS = ScannerSuite
  import BB = ByteBudget
  import SR = SuiteRun
  import RM = RiskMapper
  import Json

  const MAX_FUTURE_SKEW := 300

  /** SHA-256 of a canonical form, which is taken to be injective. */
  type Digest = string

  /** What the gate reads from a completed entry's scanner result: nothing if it is no object. */
  datatype ScanView = NoScanView | ScanView(mapped: Option<Verdict>, count: int, unverified: bool)

  /** An entry as found. `fieldErrors` are the findings of the field checks; a status or a count of another type than
      asked for is absent. */
  datatype DocumentEntry =
    | NotAnEntry
    | DocumentEntry(fieldErrors: seq<string>, valid: bool, status: Option<string>, truncated: bool,
                    omitted: Option<int>, scan: ScanView)

  datatype SuiteSubject = SuiteSubject(commit: Option<string>, dirty: Option<string>)

  /** A suite report as found. A claimed fingerprint that is missing or not well formed is absent. */
  datatype Document =
    | NotADocument
    | Document(fieldErrors: seq<string>, entries: Option<seq<DocumentEntry>>, limitations: Option<seq<string>>,
               claimed: Option<Digest>, fingerprint: Option<Digest>, generatedAt: Option<int>,
               subject: Option<SuiteSubject>)

  /** What the caller expects. Of the expected subject, a field may be absent or null. */
  datatype Expectation = Expectation(
    subject: Option<(Option<Option<string>>, Option<Option<string>>)>,
    now: int,
    maxAge: int,
    maxBytes: int,
    sourceSize: Option<nat>,
    compactSize: Option<nat>,
    seen: set<Digest>)

  datatype Reason =
    | Invalid | FingerprintMismatch | Stale | SubjectMismatch | OverBudget | Duplicate | Truncated

  // ----- what each reason means -----

  predicate Inconsistent(e: DocumentEntry) {
    e.DocumentEntry? && e.omitted.Some? && e.omitted.value > 0 && !e.truncated
  }

  predicate MalformedEntry(e: DocumentEntry) {
    e.NotAnEntry? || e.fieldErrors != [] || Inconsistent(e)
  }

  predicate CutEntry(e: DocumentEntry) {
    e.DocumentEntry? && (e.truncated || (e.omitted.Some? && e.omitted.value > 0))
  }

  predicate SomeMalformed(entries: seq<DocumentEntry>) {
    exists e :: e in entries && MalformedEntry(e)
  }

  predicate SomeCut(entries: seq<DocumentEntry>) {
    exists e :: e in entries && CutEntry(e)
  }

  /** `_is_truncated`. */
  predicate IsTruncated(d: Document) {
    && d.Document?
    && ((d.limitations.Some? && SR.IsMarkedTruncated(d.limitations.value))
        || (d.entries.Some? && SomeCut(d.entries.value)))
  }

  predicate FromFuture(d: Document, x: Expectation) {
    d.Document? && d.generatedAt.Some? && x.now - d.generatedAt.value < -MAX_FUTURE_SKEW
  }

  predicate Malformed(d: Document, x: Expectation) {
    || d.NotADocument?
    || d.fieldErrors != [] || d.entries.None? || SomeMalformed(d.entries.value)
    || (x.sourceSize.None? && x.compactSize.None?)
    || FromFuture(d, x)
  }

  predicate Mismatched(d: Document) {
    d.Document? && d.claimed.Some? && d.fingerprint.Some? && d.claimed != d.fingerprint
  }

  predicate SubjectFits(d: Document, x: Expectation) {
    x.subject.Some? ==>
      && d.Document? && d.subject.Some?
      && (x.subject.value.0.Some? ==> x.subject.value.0.value == d.subject.value.commit)
      && (x.subject.value.1.Some? ==> x.subject.value.1.value == d.subject.value.dirty)
  }

  function MeasuredSize(x: Expectation): Option<nat> {
    if x.sourceSize.Some? then x.sourceSize else x.compactSize
  }

  predicate Applies(r: Reason, d: Document, x: Expectation) {
    match r
    case Invalid => Malformed(d, x) || Mismatched(d)
    case FingerprintMismatch => Mismatched(d)
    case Stale => d.Document? && d.generatedAt.Some? && x.now - d.generatedAt.value > x.maxAge
    case SubjectMismatch => !SubjectFits(d, x)
    case OverBudget => MeasuredSize(x).Some? && MeasuredSize(x).value > x.maxBytes
    case Duplicate => d.Document? && d.claimed.Some? && d.claimed.value in x.seen
    case Truncated => IsTruncated(d)
  }

  // ----- the validator -----

  lemma OneMoreEntry(entries: seq<DocumentEntry>, n: nat)
    requires n < |entries|
    ensures SomeMalformed(entries[..n + 1]) <==> SomeMalformed(entries[..n]) || MalformedEntry(entries[n])
  {
    assert entries[..n + 1] == entries[..n] + [entries[n]];
    assert entries[n] in entries[..n + 1];
  }

  method EntryErrors(entries: seq<DocumentEntry>, before: seq<string>) returns (errors: seq<string>)
    ensures errors == [] <==> before == [] && !SomeMalformed(entries)
  {
    errors := before;
    for n := 0 to |entries|
      invariant errors == [] <==> before == [] && !SomeMalformed(entries[..n])
    {
      OneMoreEntry(entries, n);
      var e := entries[n];
      if e.NotAnEntry? {
        errors := errors + ["entry_must_be_object"];
      } else {
        errors := errors + e.fieldErrors;
        if Inconsistent(e) {
          errors := errors + ["entry_truncation_inconsistent"];
        }
      }
    }
    assert entries[..|entries|] == entries;
  }

  method SuiteErrors(d: Document, x: Expectation) returns (errors: seq<string>)
    ensures errors == [] <==> !Malformed(d, x)
  {
    errors := [];
    if d.NotADocument? {
      errors := ["schema_input_must_be_object"];
    } else {
      errors := d.fieldErrors;
      if d.entries.None? {
        errors := errors + ["entries_must_be_array"];
      } else {
        errors := EntryErrors(d.entries.value, errors);
      }
    }
    if x.sourceSize.None? && x.compactSize.None? {
      errors := errors + ["schema_input_must_be_json_serializable"];
    }
    if FromFuture(d, x) {
      errors := errors + ["generated_at_in_future"];
    }
  }

  method CollectReasons(invalid: bool, mismatched: bool, stale: bool, otherSubject: bool, overBudget: bool,
                        duplicate: bool, truncated: bool)
    returns (reasons: seq<Reason>)
    ensures Invalid in reasons <==> invalid
    ensures FingerprintMismatch in reasons <==> mismatched
    ensures Stale in reasons <==> stale
    ensures SubjectMismatch in reasons <==> otherSubject
    ensures OverBudget in reasons <==> overBudget
    ensures Duplicate in reasons <==> duplicate
    ensures Truncated in reasons <==> truncated
  {
    reasons := AppendIf([], invalid, Invalid);
    reasons := AppendIf(reasons, mismatched, FingerprintMismatch);
    reasons := AppendIf(reasons, stale, Stale);
    reasons := AppendIf(reasons, otherSubject, SubjectMismatch);
    reasons := AppendIf(reasons, overBudget, OverBudget);
    reasons := AppendIf(reasons, duplicate, Duplicate);
    reasons := AppendIf(reasons, truncated, Truncated);
  }

  datatype BadLimit = BadMaxAge | BadMaxBytes

  /** `validate_external_suite_evidence`: the reasons against a report, which is valid if there are none. */
  method ValidateSuite(d: Document, x: Expectation) returns (r: Result<seq<Reason>, BadLimit>)
    ensures r.Ok? <==> x.maxAge > 0 && x.maxBytes > 0
    ensures r.Ok? ==> forall reason :: reason in r.value <==> Applies(reason, d, x)
  {
    if x.maxAge <= 0 {
      return Err(BadMaxAge);
    }
    if x.maxBytes <= 0 {
      return Err(BadMaxBytes);
    }
    var errors := SuiteErrors(d, x);
    var mismatched, stale, duplicate := Mismatched(d), false, false;
    if d.Document? {
      stale := d.generatedAt.Some? && x.now - d.generatedAt.value > x.maxAge;
      duplicate := d.claimed.Some? && d.claimed.value in x.seen;
    }
    var size := if x.sourceSize.Some? then x.sourceSize else x.compactSize;
    var overBudget := size.Some? && size.value > x.maxBytes;
    var reasons := CollectReasons(errors != [] || mismatched, mismatched, stale, !SubjectFits(d, x), overBudget, duplicate,
                                  IsTruncated(d));
    r := Ok(reasons);
  }

  predicate IsValid(d: Document, x: Expectation) {
    forall r: Reason :: !Applies(r, d, x)
  }

  /** An entry is an object with good fields, and nothing was cut from it. */
  predicate IsUncutEntry(e: DocumentEntry) {
    e.DocumentEntry? && e.fieldErrors == [] && !e.truncated && (e.omitted.Some? ==> e.omitted.value <= 0)
  }

  /** The fields of a document that make it valid. */
  predicate StandsUp(d: Document, x: Expectation) {
    && d.Document? && d.fieldErrors == [] && d.entries.Some?
    && (forall e :: e in d.entries.value ==> IsUncutEntry(e))
    && (d.limitations.Some? ==>
          "report_truncated" !in d.limitations.value && "report_byte_budget_exceeded" !in d.limitations.value)
    && (d.claimed.Some? ==> (d.fingerprint.Some? ==> d.claimed == d.fingerprint) && d.claimed.value !in x.seen)
    && (d.generatedAt.Some? ==> x.now - x.maxAge <= d.generatedAt.value <= x.now + 300)
    && (if x.sourceSize.Some? then x.sourceSize.value <= x.maxBytes
        else x.compactSize.Some? && x.compactSize.value <= x.maxBytes)
    && (x.subject.Some? ==>
          && d.subject.Some?
          && (x.subject.value.0.Some? ==> x.subject.value.0.value == d.subject.value.commit)
          && (x.subject.value.1.Some? ==> x.subject.value.1.value == d.subject.value.dirty))
  }

  lemma UncutEntries(entries: seq<DocumentEntry>)
    ensures (forall e :: e in entries ==> IsUncutEntry(e)) <==> !SomeMalformed(entries) && !SomeCut(entries)
  {
    if e :| e in entries && !IsUncutEntry(e) {
      assert MalformedEntry(e) || CutEntry(e);
    }
  }

  lemma SomeReasonApplies(d: Document, x: Expectation)
    requires !StandsUp(d, x)
    ensures exists r: Reason :: Applies(r, d, x)
  {
    if d.Document? && d.entries.Some? { UncutEntries(d.entries.value); }
    assert Applies(Invalid, d, x) || Applies(Stale, d, x) || Applies(SubjectMismatch, d, x) || Applies(OverBudget, d, x)
           || Applies(Duplicate, d, x) || Applies(Truncated, d, x);
  }

  /** A document is valid exactly if its fields stand up. */
  lemma ValidExactlyWhen(d: Document, x: Expectation)
    ensures IsValid(d, x) <==> StandsUp(d, x)
  {
    if StandsUp(d, x) {
      UncutEntries(d.entries.value);
    } else {
      SomeReasonApplies(d, x);
    }
  }

  // ----- at the gate -----

  function GateEntry(e: DocumentEntry): SuiteEntry {
    if e.NotAnEntry? then NoObject
    else if !e.valid || e.status != Some("completed") then NotCompleted
    else if e.scan.NoScanView? then NoResult
    else Scanned(e.scan.mapped, e.scan.count, e.scan.unverified)
  }

  /** The suite that reaches the gate with a report and its validation, whose reference to it is always well formed: it
      keeps a fingerprint, a time, a subject and reasons only if they have the form asked for. */
  function GateSuite(d: Document, x: Expectation): Suite {
    Suite(IsValid(d, x),
          if d.Document? && d.entries.Some? then
            Some(seq(|d.entries.value|, i requires 0 <= i < |d.entries.value| => GateEntry(d.entries.value[i])))
          else None,
          true)
  }

  lemma SuiteVerdictReachesGate(s: Suite, v: Verdict, q: Question, policy: Policy)
    requires s in q.suites && v in SuiteVerdicts(s)
    ensures AtLeast(GateVerdict(q, policy), v)
  {
    assert v in AllSuiteVerdicts(q.suites);
    CalledForIsReached(q, policy, v);
  }

  lemma UnfinishedEntryMakesUnknown(d: Document, x: Expectation, e: DocumentEntry)
    requires d.Document? && d.entries.Some? && e in d.entries.value && !GateEntry(e).Scanned?
    ensures Unknown in SuiteVerdicts(GateSuite(d, x))
  {
    var s := GateSuite(d, x);
    var i :| 0 <= i < |d.entries.value| && d.entries.value[i] == e;
    assert s.entries.value[i] == GateEntry(e);
    assert GateEntry(e) in s.entries.value && Unknown in EntryVerdicts(GateEntry(e));
  }

  predicate EntryPasses(e: DocumentEntry) {
    e.DocumentEntry? && e.valid && e.status == Some("completed") && !CutEntry(e)
  }

  /** A verdict below unknown means that the report stood up to every check and that every entry of it is a valid,
      completed scan that nothing was cut from. */
  lemma PassingSuiteIsWhole(d: Document, x: Expectation, q: Question, policy: Policy)
    requires GateSuite(d, x) in q.suites
    requires GateVerdict(q, policy) in {AllowLimited, Warn}
    ensures IsValid(d, x)
    ensures d.Document? && d.entries.Some? && forall e :: e in d.entries.value ==> EntryPasses(e)
    ensures d.limitations.Some? ==> !SR.IsMarkedTruncated(d.limitations.value)
  {
    var s := GateSuite(d, x);
    if Unknown in SuiteVerdicts(s) {
      SuiteVerdictReachesGate(s, Unknown, q, policy);
    }
    assert !Applies(Truncated, d, x);
    forall e | e in d.entries.value ensures EntryPasses(e) {
      if !GateEntry(e).Scanned? {
        UnfinishedEntryMakesUnknown(d, x, e);
      }
      assert !CutEntry(e);
    }
  }

  // ----- from the scanners to the gate -----

  /** How the printed entries read back; `scan` stands for reading a printed scanner result. */
  function ReadBack(e: SS.Entry, scan: seq<Json.Member> -> ScanView): DocumentEntry {
    DocumentEntry([], e.valid, Some(e.status), e.truncated, Some(e.omitted), scan(e.normalized))
  }

  /** A document that carries the entries and the limitations of a finished report; the rest of it may be anything. */
  predicate Carries(d: Document, r: BB.Report, scan: seq<Json.Member> -> ScanView) {
    && d.Document?
    && d.entries == Some(seq(|r.entries|, i requires 0 <= i < |r.entries| => ReadBack(r.entries[i], scan)))
    && d.limitations == Some(r.limitations)
  }

  /** A suite's digest, as the validator computes it too. */
  type Digester = Json.Json -> BB.FingerprintText

  /** Everything but size and truncation speaks for the document: it has the right fields, claims the report's fingerprint
      and digests as the report does, is fresh, of the right subject and new, and its size is that of the printed
      report. */
  predicate IsFaithfulCopy(d: Document, r: BB.Report, scan: seq<Json.Member> -> ScanView, x: Expectation,
                           digest: Digester)
  {
    && Carries(d, r, scan)
    && d.fieldErrors == [] && d.claimed == Some(r.fingerprint) && d.fingerprint == Some(digest(SR.Unsigned(r)))
    && d.generatedAt.Some? && -MAX_FUTURE_SKEW <= x.now - d.generatedAt.value <= x.maxAge
    && SubjectFits(d, x)
    && r.fingerprint !in x.seen
    && x.sourceSize.None? && x.compactSize == Some(BB.PrintedSize(r))
  }

  predicate IsCut(e: SS.Entry) {
    e.truncated || e.omitted > 0
  }

  predicate SomeIsCut(entries: seq<SS.Entry>) {
    exists e :: e in entries && IsCut(e)
  }

  predicate CutShort(r: BB.Report) {
    SR.IsMarkedTruncated(r.limitations) || SomeIsCut(r.entries)
  }

  lemma CutsAreReadBack(entries: seq<DocumentEntry>, own: seq<SS.Entry>, scan: seq<Json.Member> -> ScanView)
    requires |entries| == |own| && forall i :: 0 <= i < |own| ==> entries[i] == ReadBack(own[i], scan)
    ensures SomeCut(entries) <==> SomeIsCut(own)
    ensures SomeMalformed(entries) ==> SomeCut(entries)
  {
    if SomeCut(entries) {
      var i :| 0 <= i < |entries| && CutEntry(entries[i]);
      assert own[i] in own && IsCut(own[i]);
    }
    if SomeIsCut(own) {
      var i :| 0 <= i < |own| && IsCut(own[i]);
      assert entries[i] in entries && CutEntry(entries[i]);
    }
    if SomeMalformed(entries) {
      var i :| 0 <= i < |entries| && MalformedEntry(entries[i]);
      assert entries[i] in entries && CutEntry(entries[i]);
    }
  }

  lemma CarriedTruncation(d: Document, r: BB.Report, scan: seq<Json.Member> -> ScanView)
    requires Carries(d, r, scan)
    ensures IsTruncated(d) <==> CutShort(r)
    ensures SomeMalformed(d.entries.value) ==> CutShort(r)
  {
    CutsAreReadBack(d.entries.value, r.entries, scan);
  }

  /** A faithful copy of a report is valid exactly if the report was signed, as the suite's are, nothing was cut from it,
      and it is within the validator's size. */
  lemma FaithfulCopyIsValidExactlyWhen(d: Document, r: BB.Report, scan: seq<Json.Member> -> ScanView, x: Expectation,
                                       digest: Digester)
    requires IsFaithfulCopy(d, r, scan, x, digest)
    ensures IsValid(d, x) <==> SR.IsSigned(r, digest) && !CutShort(r) && BB.PrintedSize(r) <= x.maxBytes
  {
    CarriedTruncation(d, r, scan);
    assert Applies(Truncated, d, x) <==> CutShort(r);
    assert Applies(OverBudget, d, x) <==> BB.PrintedSize(r) > x.maxBytes;
    assert Applies(FingerprintMismatch, d, x) <==> !SR.IsSigned(r, digest);
    if SR.IsSigned(r, digest) && !CutShort(r) && BB.PrintedSize(r) <= x.maxBytes {
      assert forall reason :: !Applies(reason, d, x);
    }
  }

  /** A suite that cut nothing is refused exactly if its size as measured and the microseconds of its time together are
      too much for the validator. So one that was given the validator's own size as its byte budget is refused for the
      microseconds only. */
  lemma UncutReportIsRefusedForMicrosecondsOnly(suite: BB.Request, r: BB.Report, d: Document,
                                                scan: seq<Json.Member> -> ScanView, x: Expectation, digest: Digester)
    requires |suite.outcomes| == |suite.scanners| && SR.ReportOk(suite, r) && SR.IsSigned(r, digest)
    requires IsFaithfulCopy(d, r, scan, x, digest) && !CutShort(r)
    ensures IsValid(d, x) <==> SR.UncutSize(suite) + |r.generatedAt| - |SS.PLACEHOLDER_TIME| <= x.maxBytes
    ensures SR.UncutSize(suite) <= suite.maxBytes
  {
    FaithfulCopyIsValidExactlyWhen(d, r, scan, x, digest);
    SR.UncutReportSize(suite, r);
  }

  /** It does happen: a suite whose byte budget is what its uncut report measures, and which finishes at a time with
      microseconds, cuts nothing, and a validator with the same limit refuses every faithful copy of its report. */
  lemma UncutReportIsRefused(suite: BB.Request, r: BB.Report, d: Document, scan: seq<Json.Member> -> ScanView,
                             x: Expectation, digest: Digester)
    requires |suite.outcomes| == |suite.scanners| && SR.ReportOk(suite, r) && SR.IsSigned(r, digest)
    requires IsFaithfulCopy(d, r, scan, x, digest)
    requires !SomeIsCut(SR.Granted(suite)) && suite.maxBytes == SR.UncutSize(suite) == x.maxBytes
    requires |r.generatedAt| == |SS.PLACEHOLDER_TIME| + BB.MICROSECONDS_LENGTH
    ensures !CutShort(r) && !IsValid(d, x)
  {
    SR.FittingReportIsUncut(suite, r);
    UncutReportIsRefusedForMicrosecondsOnly(suite, r, d, scan, x, digest);
  }

  /** So is the report of a suite without scanners. */
  lemma EmptyReportIsRefused(placeholders: BB.Placeholders, now: BB.TimestampText, digest: Digester, d: Document,
                             scan: seq<Json.Member> -> ScanView, x: Expectation)
    requires IsFaithfulCopy(d, SR.EmptyReport(now, digest), scan, x, digest)
    requires x.maxBytes == SR.EmptySuite(placeholders).maxBytes
    requires |now| == |SS.PLACEHOLDER_TIME| + BB.MICROSECONDS_LENGTH
    ensures SR.ReportOk(SR.EmptySuite(placeholders), SR.EmptyReport(now, digest))
    ensures !CutShort(SR.EmptyReport(now, digest)) && !IsValid(d, x)
  {
    SR.EmptyReportIsOk(placeholders, now, digest);
    UncutReportIsRefused(SR.EmptySuite(placeholders), SR.EmptyReport(now, digest), d, scan, x, digest);
  }

  /** The i-th requested scanner ran, its result is valid, and the report holds every one of its findings, each with
      its long strings cut. */
  ghost predicate FullyReported(suite: BB.Request, i: nat, r: BB.Report)
    requires i < |suite.scanners| == |suite.outcomes|
  {
    && |r.entries| == |suite.scanners|
    && r.entries[i].scanner == suite.scanners[i]
    && BB.Ran(suite.scanners[i], suite.offline, suite.outcomes[i])
    && suite.outcomes[i].valid
    && SS.FindingCount(suite.outcomes[i].normalized) <= suite.maxPer
    && r.entries[i].omitted == 0
    && SS.ItemsAt(r.entries[i].normalized, "findings") ==
         Json.BoundedItems(SS.ItemsAt(suite.outcomes[i].normalized, "findings"))
  }

  lemma UncutResultKeepsItsFindings(members: seq<Json.Member>, keep: nat)
    requires keep >= |SS.ItemsAt(members, "findings")|
    ensures SS.ItemsAt(SS.Truncated(Json.BoundedMembers(members), keep), "findings") ==
            Json.BoundedItems(SS.ItemsAt(members, "findings"))
  {
    var bounded := Json.BoundedMembers(members);
    SS.RetainedFindingsArePrefix(bounded, keep);
    SS.GetOfBounded(members, "findings");
    Json.BoundedItemsIsIdempotent(SS.ItemsAt(members, "findings"));
  }

  lemma WholeEntryIsFullyReported(suite: BB.Request, i: nat, r: BB.Report)
    requires i < |suite.scanners| == |suite.outcomes| && SR.ReportOk(suite, r)
    requires SR.IsWhole(r.entries[i])
    ensures FullyReported(suite, i, r)
  {
    var e, outcome := r.entries[i], suite.outcomes[i];
    assert SR.EntryIsAccountedFor(suite, i, e);
    var allowed: nat :| allowed <= suite.maxPer
      && e == BB.EntryFor(suite.scanners[i], suite.offline, outcome, suite.placeholders, allowed);
    SS.BoundingKeepsFindingCount(outcome.normalized);
    UncutResultKeepsItsFindings(outcome.normalized, SS.FindingCount(outcome.normalized));
  }

  lemma PassingEntryIsFullyReported(suite: BB.Request, r: BB.Report, scan: seq<Json.Member> -> ScanView, i: nat)
    requires i < |suite.scanners| == |suite.outcomes| && SR.ReportOk(suite, r)
    requires EntryPasses(ReadBack(r.entries[i], scan))
    ensures FullyReported(suite, i, r)
  {
    WholeEntryIsFullyReported(suite, i, r);
  }

  /** No dropped or missing scan is silent. If a finished suite report reaches the gate and the verdict is below
      unknown, then every requested scanner ran, is valid, and is in the report with all its findings. */
  lemma NoScanIsLostSilently(suite: BB.Request, r: BB.Report, scan: seq<Json.Member> -> ScanView, d: Document,
                             x: Expectation, q: Question, policy: Policy)
    requires |suite.outcomes| == |suite.scanners| && SR.ReportOk(suite, r)
    requires Carries(d, r, scan) && GateSuite(d, x) in q.suites
    requires GateVerdict(q, policy) in {AllowLimited, Warn}
    ensures forall i :: 0 <= i < |suite.scanners| ==> FullyReported(suite, i, r)
    ensures !SR.IsMarkedTruncated(r.limitations)
  {
    PassingSuiteIsWhole(d, x, q, policy);
    forall i | 0 <= i < |suite.scanners| ensures FullyReported(suite, i, r) {
      assert d.entries.value[i] == ReadBack(r.entries[i], scan);
      assert d.entries.value[i] in d.entries.value;
      PassingEntryIsFullyReported(suite, r, scan, i);
    }
  }

  // ----- what the scans found -----

  /** A scanner result as the gate reads it: what it states, the rest of it with its validation, the finding count of its
      entry, and whether its binary was unverified. */
  datatype ScanResult = NotAResult | ScanResult(evidence: RM.Evidence, context: RM.Context, count: int, unverified: bool)

  /** The gate's view of it, under the policy that ships. */
  function ViewOf(s: ScanResult): ScanView {
    if s.NotAResult? then NoScanView
    else ScanView(RM.MappedVerdict(RM.MappingOf(s.evidence, s.context, RM.ShippedPolicy())), s.count, s.unverified)
  }

  function Viewer(read: seq<Json.Member> -> ScanResult): seq<Json.Member> -> ScanView {
    (members: seq<Json.Member>) => ViewOf(read(members))
  }

  function ReasonsOf(s: ScanResult): RM.Reasons
    requires s.ScanResult?
  {
    RM.ReasonsFor(s.evidence, s.context, RM.ShippedPolicy())
  }

  lemma EntryVerdictReachesGate(d: Document, x: Expectation, e: DocumentEntry, v: Verdict, q: Question, policy: Policy)
    requires d.Document? && d.entries.Some? && e in d.entries.value && IsValid(d, x)
    requires GateSuite(d, x) in q.suites && v in EntryVerdicts(GateEntry(e))
    ensures AtLeast(GateVerdict(q, policy), v)
  {
    var s := GateSuite(d, x);
    var i :| 0 <= i < |d.entries.value| && d.entries.value[i] == e;
    assert s.entries.value[i] == GateEntry(e);
    assert GateEntry(e) in s.entries.value;
    SuiteVerdictReachesGate(s, v, q, policy);
  }

  /** A valid, completed entry holds the gate at what its scan calls for: by the rules that are due, by its count if none
      says anything, and at unknown if its binary was unverified. */
  lemma ScannedRiskReachesGate(d: Document, x: Expectation, e: DocumentEntry, s: ScanResult, q: Question, policy: Policy)
    requires d.Document? && d.entries.Some? && e in d.entries.value && IsValid(d, x) && GateSuite(d, x) in q.suites
    requires e.DocumentEntry? && e.valid && e.status == Some("completed") && s.ScanResult? && e.scan == ViewOf(s)
    ensures var v, risk := GateVerdict(q, policy), RM.ShippedVerdict(ReasonsOf(s));
            && (risk.Some? ==> AtLeast(v, risk.value))
            && (risk.None? && s.count != 0 ==> AtLeast(v, Warn))
            && (s.unverified ==> AtLeast(v, Unknown))
  {
    RM.ShippedPolicyVerdict(s.evidence, s.context);
    var risk := RM.ShippedVerdict(ReasonsOf(s));
    assert GateEntry(e) == Scanned(risk, s.count, s.unverified);
    if risk.Some? { EntryVerdictReachesGate(d, x, e, risk.value, q, policy); }
    if risk.None? && s.count != 0 { EntryVerdictReachesGate(d, x, e, Warn, q, policy); }
    if s.unverified { EntryVerdictReachesGate(d, x, e, Unknown, q, policy); }
  }

  /** The scan was read, its binary is not unverified, and it found nothing but what is only observed. */
  predicate IsMild(s: ScanResult) {
    s.ScanResult? && !s.unverified && RM.OnlyObserved(ReasonsOf(s))
  }

  lemma PassingScanIsMild(d: Document, x: Expectation, e: DocumentEntry, s: ScanResult, q: Question, policy: Policy)
    requires d.Document? && d.entries.Some? && e in d.entries.value && IsValid(d, x) && GateSuite(d, x) in q.suites
    requires EntryPasses(e) && e.scan == ViewOf(s)
    requires GateVerdict(q, policy) in {AllowLimited, Warn}
    ensures IsMild(s)
  {
    UnreadScanMakesUnknown(d, x, e, q, policy);
    if s.ScanResult? {
      ScannedRiskReachesGate(d, x, e, s, q, policy);
      WeakRiskIsObserved(ReasonsOf(s), GateVerdict(q, policy));
    }
  }

  lemma UnreadScanMakesUnknown(d: Document, x: Expectation, e: DocumentEntry, q: Question, policy: Policy)
    requires d.Document? && d.entries.Some? && e in d.entries.value && IsValid(d, x) && GateSuite(d, x) in q.suites
    ensures e.DocumentEntry? && e.scan.NoScanView? ==> AtLeast(GateVerdict(q, policy), Unknown)
  {
    if e.DocumentEntry? && e.scan.NoScanView? {
      EntryVerdictReachesGate(d, x, e, Unknown, q, policy);
    }
  }

  lemma WeakRiskIsObserved(r: RM.Reasons, v: Verdict)
    requires v in {AllowLimited, Warn}
    requires RM.ShippedVerdict(r).Some? ==> AtLeast(v, RM.ShippedVerdict(r).value)
    ensures RM.OnlyObserved(r)
  {
    RM.WeakExactlyWhenOnlyObserved(r);
  }

  /** No risk is silent either. If a finished suite report reaches the gate and the verdict is below unknown, then in the
      result of every requested scanner, read back from the report, everything can be interpreted, and of the rules of the
      policy that ships none is due but the three that only observe. */
  lemma NoRiskIsLostSilently(suite: BB.Request, r: BB.Report, read: seq<Json.Member> -> ScanResult, d: Document,
                             x: Expectation, q: Question, policy: Policy)
    requires |suite.outcomes| == |suite.scanners| && SR.ReportOk(suite, r)
    requires Carries(d, r, Viewer(read)) && GateSuite(d, x) in q.suites
    requires GateVerdict(q, policy) in {AllowLimited, Warn}
    ensures |r.entries| == |suite.scanners|
    ensures forall i :: 0 <= i < |suite.scanners| ==> IsMild(read(r.entries[i].normalized))
  {
    PassingSuiteIsWhole(d, x, q, policy);
    forall i | 0 <= i < |suite.scanners| ensures IsMild(read(r.entries[i].normalized)) {
      var e := d.entries.value[i];
      assert e == ReadBack(r.entries[i], Viewer(read));
      assert e in d.entries.value;
      PassingScanIsMild(d, x, e, read(r.entries[i].normalized), q, policy);
    }
  }
}
