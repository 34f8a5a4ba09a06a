/** Sandbox run reports on their way to the gate: src/repo_health_doctor/evidence/sandbox_run.py normalizes them into
    decision signals, src/repo_health_doctor/gate/sandbox_evidence.py validates them and adds signals of its own. */
module SandboxEvidence {
  import opened Wrappers
  import opened Verdicts
  import opened GateEvaluator
  import Text

  const MAX_FUTURE_SKEW := 300

  // ----- signals -----

  datatype Signal =
    | PolicyBlocked | BindingMismatch | TimedOut | CleanupFailed | ObserverDegraded | NotReal | InvalidReport | StaleReport
    | TruncatedReport | OverBudgetReport

  function SignalName(s: Signal): string {
    match s
    case PolicyBlocked => "execution_policy_blocked"
    case BindingMismatch => "subject_binding_mismatch"
    case TimedOut => "execution_timeout"
    case CleanupFailed => "workspace_cleanup_failed"
    case ObserverDegraded => "observer_degraded"
    case NotReal => "not_real_execution_evidence"
    case InvalidReport => "sandbox_evidence_invalid"
    case StaleReport => "sandbox_evidence_stale"
    case TruncatedReport => "sandbox_evidence_truncated"
    case OverBudgetReport => "sandbox_evidence_over_budget"
  }

  function SignalVerdict(s: Signal): Verdict {
    if s.PolicyBlocked? || s.BindingMismatch? then Block
    else if s.CleanupFailed? then Quarantine
    else Unknown
  }

  /** Every signal that the normalizer or the validator can emit is in the gate's table. */
  lemma EverySignalIsKnown(s: Signal)
    ensures SignalName(s) in SIGNAL_VERDICTS && SIGNAL_VERDICTS[SignalName(s)] == SignalVerdict(s)
  {
    match s
    case PolicyBlocked =>
    case BindingMismatch =>
    case TimedOut =>
    case CleanupFailed =>
    case ObserverDegraded =>
    case NotReal =>
    case InvalidReport =>
    case StaleReport =>
    case TruncatedReport =>
    case OverBudgetReport =>
  }

  // ----- reports -----

  type Digest = string

  datatype BindingText = MismatchText | UnresolvedText | DirtyText | OtherText

  datatype BindingRecord = BindingRecord(checked: bool, matched: bool, status: BindingText, refusals: seq<string>)

  datatype ObserverRecord = ObserverRecord(saysDegraded: bool, isDegraded: bool)

  datatype Claim = NoClaim | BadClaim | Claim(digest: Digest)

  /** A run id in angle brackets is a safe label, but not an id. */
  datatype RunId = NoRunId | Bracketed | ProperRunId

  datatype Time = UnsafeTime | UnparsableTime | At(seconds: int)

  datatype ResultStatus = StatusTimedOut | StatusCleanupUncertain | StatusDryRun | StatusObserverDegraded | StatusCompleted
                        | OtherStatus

  datatype Subject = Subject(repo: Option<string>, commit: Option<string>, tree: Option<string>,
                             snapshot: Option<Digest>, manifest: Option<Digest>, kind: Option<string>)

  /** What is read from a report. A binding or observer record that is absent or empty is `None`; they are listed in
      the order in which they are looked for. `shapeErrors` are the findings of the source's field checks. */
  datatype RunReport = RunReport(
    shapeErrors: seq<string>,
    versionOk: bool,
    kindOk: bool,
    claim: Claim,
    fingerprint: Option<Digest>,
    runId: RunId,
    time: Time,
    gateFingerprintOk: bool,
    policyBlocked: bool,
    gateBlocked: bool,
    timedOut: bool,
    status: ResultStatus,
    cleanupFailed: bool,
    observers: seq<Option<ObserverRecord>>,
    observerDegraded: bool,
    bindings: seq<Option<BindingRecord>>,
    dryRun: bool,
    fakeRunner: bool,
    commandStarted: bool,
    exitCode: Option<int>,
    stale: bool,
    truncated: bool,
    subject: Subject,
    policyVersion: Option<string>)

  /** What is read from something that is not an object. */
  const NOTHING := RunReport([], false, false, NoClaim, None, NoRunId, UnsafeTime, false, false, false, false, OtherStatus,
                             false, [], false, [], false, false, false, None, false, false,
                             Subject(Some("<repo>"), None, None, None, None, Some("unbound")), None)

  datatype Data = NotAnObject | Object(report: RunReport)

  function SourceOf(d: Data): RunReport {
    if d.Object? then d.report else NOTHING
  }

  /** `_subject`: the two fingerprints of the snapshot are kept only together. */
  function SubjectOf(d: Data): Subject {
    var s := SourceOf(d).subject;
    if s.snapshot.Some? && s.manifest.Some? then s else s.(snapshot := None, manifest := None)
  }

  function FirstPresent<T>(records: seq<Option<T>>): Option<T> {
    if records == [] then None
    else if records[0].Some? then records[0]
    else FirstPresent(records[1..])
  }

  // ----- the normalizer -----

  datatype BindingOutcome = NotChecked | Matched | Mismatched

  /** `_binding_status`. */
  function BindingOutcomeOf(records: seq<Option<BindingRecord>>): BindingOutcome {
    var first := FirstPresent(records);
    if first.None? then NotChecked
    else
      var b := first.value;
      if b.checked && (!b.matched || !b.status.OtherText?) then Mismatched
      else if b.checked && b.matched then Matched
      else if !b.status.OtherText? then Mismatched
      else if MentionsMismatch(b.refusals) then Mismatched
      else NotChecked
  }

  predicate MentionsMismatch(refusals: seq<string>) {
    exists r :: r in refusals && Text.Contains(r, "mismatch")
  }

  /** What makes a record a mismatch: its status, that it was checked and did not match, or, if it was not checked, a
      refusal for a mismatch. */
  predicate RecordsMismatch(b: BindingRecord) {
    !b.status.OtherText? || (b.checked && !b.matched) || (!b.checked && MentionsMismatch(b.refusals))
  }

  /** The record that counts is the first one. */
  predicate RecordedMismatch(r: RunReport) {
    FirstPresent(r.bindings).Some? && RecordsMismatch(FirstPresent(r.bindings).value)
  }

  /** A run is bound to something else exactly if the first record says so, and to the right thing only if that record was
      checked and matched. */
  lemma BindingOutcomeExactlyWhen(r: RunReport)
    ensures BindingOutcomeOf(r.bindings) == Mismatched <==> RecordedMismatch(r)
    ensures var first := FirstPresent(r.bindings);
            BindingOutcomeOf(r.bindings) == Matched <==>
              first.Some? && first.value.checked && first.value.matched && first.value.status.OtherText?
  {
  }

  predicate IsDegraded(r: RunReport) {
    || r.observerDegraded
    || (FirstPresent(r.observers).Some?
        && (FirstPresent(r.observers).value.saysDegraded || FirstPresent(r.observers).value.isDegraded))
  }

  predicate IsDryRun(r: RunReport) {
    r.dryRun || r.status.StatusDryRun?
  }

  predicate IsTimedOut(r: RunReport) {
    r.timedOut || r.status.StatusTimedOut?
  }

  predicate IsCleanupFailed(r: RunReport) {
    r.cleanupFailed || r.status.StatusCleanupUncertain?
  }

  predicate IsBlocked(r: RunReport) {
    r.policyBlocked || r.gateBlocked
  }

  /** What the normalizer calls invalid. */
  predicate Unusable(d: Data) {
    var r := SourceOf(d);
    || d.NotAnObject? || !r.versionOk || !r.kindOk
    || (!r.claim.NoClaim? && (r.claim.BadClaim? || Some(r.claim.digest) != r.fingerprint))
    || r.runId.NoRunId? || r.time.UnsafeTime?
  }

  /** When the normalizer emits a signal. */
  predicate Emits(s: Signal, d: Data) {
    var r := SourceOf(d);
    match s
    case PolicyBlocked => IsBlocked(r)
    case BindingMismatch => BindingOutcomeOf(r.bindings).Mismatched?
    case TimedOut => IsTimedOut(r)
    case CleanupFailed => IsCleanupFailed(r)
    case ObserverDegraded => IsDegraded(r)
    case NotReal => IsDryRun(r) || r.fakeRunner
    case InvalidReport => Unusable(d)
    case StaleReport => r.stale
    case TruncatedReport => r.truncated
    case OverBudgetReport => false
  }

  datatype Category = CategoryBlocked | CategoryTimeout | CategoryCleanup | CategoryObserver | CategoryDryRun
                    | CategorySuccess | CategoryNotStarted | CategoryFailure

  /** `_execution_category`. */
  function CategoryOf(r: RunReport): Category {
    if IsBlocked(r) then CategoryBlocked
    else if IsTimedOut(r) then CategoryTimeout
    else if IsCleanupFailed(r) then CategoryCleanup
    else if IsDegraded(r) || r.status.StatusObserverDegraded? then CategoryObserver
    else if IsDryRun(r) then CategoryDryRun
    else if r.status.StatusCompleted? && r.commandStarted && r.exitCode == Some(0) then CategorySuccess
    else if !r.commandStarted then CategoryNotStarted
    else CategoryFailure
  }

  /** The signal that goes with a category. */
  function CategorySignal(c: Category): Option<Signal> {
    match c
    case CategoryBlocked => Some(PolicyBlocked)
    case CategoryTimeout => Some(TimedOut)
    case CategoryCleanup => Some(CleanupFailed)
    case CategoryObserver => Some(ObserverDegraded)
    case CategoryDryRun => Some(NotReal)
    case _ => None
  }

  /** A run is reported under a category without the signal that goes with it exactly when only its result status says
      that the observer was degraded. A run with none of the five signals is one of the four categories below. */
  lemma CategoryLacksItsSignalExactlyWhen(d: Data)
    ensures var r, c := SourceOf(d), CategoryOf(SourceOf(d));
            && (CategorySignal(c).Some? && !Emits(CategorySignal(c).value, d) <==>
                  && r.status.StatusObserverDegraded? && !IsDegraded(r)
                  && !IsBlocked(r) && !IsTimedOut(r) && !IsCleanupFailed(r))
            && ((forall s :: s in {PolicyBlocked, TimedOut, CleanupFailed, ObserverDegraded, NotReal} ==> !Emits(s, d)) ==>
                  c in {CategoryObserver, CategorySuccess, CategoryNotStarted, CategoryFailure})
  {
    assert forall s :: s in {PolicyBlocked, TimedOut, CleanupFailed, ObserverDegraded, NotReal} <==>
        s.PolicyBlocked? || s.TimedOut? || s.CleanupFailed? || s.ObserverDegraded? || s.NotReal?;
    assert Emits(PolicyBlocked, d) <==> IsBlocked(SourceOf(d));
    assert Emits(TimedOut, d) <==> IsTimedOut(SourceOf(d));
    assert Emits(CleanupFailed, d) <==> IsCleanupFailed(SourceOf(d));
    assert Emits(NotReal, d) <==> IsDryRun(SourceOf(d)) || SourceOf(d).fakeRunner;
  }

  datatype Normalized = Normalized(signals: seq<Signal>, category: Category, binding: BindingOutcome)

  /** The signals that describe the run. */
  method ListRunSignals(blocked: bool, mismatched: bool, timedOut: bool, cleanupFailed: bool, degraded: bool,
                        notReal: bool)
    returns (signals: seq<Signal>)
    ensures PolicyBlocked in signals <==> blocked
    ensures BindingMismatch in signals <==> mismatched
    ensures TimedOut in signals <==> timedOut
    ensures CleanupFailed in signals <==> cleanupFailed
    ensures ObserverDegraded in signals <==> degraded
    ensures NotReal in signals <==> notReal
    ensures forall s :: s in signals ==>
              s in {PolicyBlocked, BindingMismatch, TimedOut, CleanupFailed, ObserverDegraded, NotReal}
  {
    signals := AppendIf([], blocked, PolicyBlocked);
    signals := AppendIf(signals, mismatched, BindingMismatch);
    signals := AppendIf(signals, timedOut, TimedOut);
    signals := AppendIf(signals, cleanupFailed, CleanupFailed);
    signals := AppendIf(signals, degraded, ObserverDegraded);
    signals := AppendIf(signals, notReal, NotReal);
  }

  /** The signals that describe the report follow. */
  method ListReportSignals(run: seq<Signal>, invalid: bool, stale: bool, truncated: bool) returns (signals: seq<Signal>)
    ensures forall s :: s in signals <==>
              || s in run || (invalid && s == InvalidReport) || (stale && s == StaleReport)
              || (truncated && s == TruncatedReport)
  {
    signals := AppendIf(run, invalid, InvalidReport);
    signals := AppendIf(signals, stale, StaleReport);
    signals := AppendIf(signals, truncated, TruncatedReport);
  }

  /** `normalize_sandbox_run_evidence`: a signal is listed exactly when it is due. */
  method NormalizeSandboxRun(d: Data) returns (n: Normalized)
    ensures forall s :: s in n.signals <==> Emits(s, d)
    ensures n.category == CategoryOf(SourceOf(d)) && n.binding == BindingOutcomeOf(SourceOf(d).bindings)
  {
    var r := SourceOf(d);
    var binding := BindingOutcomeOf(r.bindings);
    var run := ListRunSignals(IsBlocked(r), binding.Mismatched?, IsTimedOut(r), IsCleanupFailed(r), IsDegraded(r),
                              IsDryRun(r) || r.fakeRunner);
    var signals := ListReportSignals(run, Unusable(d), r.stale, r.truncated);
    n := Normalized(signals, CategoryOf(r), binding);
  }

  // ----- the validator -----

  datatype Expectation = Expectation(
    subject: Option<Subject>,
    policyVersion: Option<string>,
    now: int,
    maxAge: int,
    maxBytes: int,
    sourceSize: Option<nat>,
    totalOverBudget: bool,
    seen: set<Digest>)

  datatype Reason =
    | Invalid | FingerprintMismatch | Stale | SubjectMismatch | PolicyMismatch | OverBudget | Duplicate | Truncated

  predicate Malformed(d: Data, x: Expectation) {
    var r := SourceOf(d);
    || d.NotAnObject? || r.shapeErrors != [] || r.fingerprint.None? || r.claim.BadClaim?
    || Unusable(d) || !r.runId.ProperRunId? || !r.gateFingerprintOk
    || !r.time.At? || x.now - r.time.seconds < -MAX_FUTURE_SKEW
  }

  predicate Misclaims(d: Data) {
    d.Object? && d.report.claim.Claim? && d.report.fingerprint.Some? && Some(d.report.claim.digest) != d.report.fingerprint
  }

  predicate Applies(reason: Reason, d: Data, x: Expectation) {
    var r := SourceOf(d);
    match reason
    case Invalid => Malformed(d, x) || Misclaims(d)
    case FingerprintMismatch => Misclaims(d)
    case Stale => r.time.At? && x.now - r.time.seconds > x.maxAge
    case SubjectMismatch => x.subject.Some? && SubjectOf(d) != x.subject.value
    case PolicyMismatch => x.policyVersion.Some? && r.policyVersion != x.policyVersion
    case OverBudget => x.totalOverBudget || (x.sourceSize.Some? && x.sourceSize.value > x.maxBytes)
    case Duplicate => d.Object? && r.fingerprint.Some? && r.fingerprint.value in x.seen
    case Truncated => r.truncated
  }

  /** The signal that a reason leaves behind. */
  function ReasonSignal(reason: Reason): Signal {
    match reason
    case Stale => StaleReport
    case SubjectMismatch => BindingMismatch
    case OverBudget => OverBudgetReport
    case Truncated => TruncatedReport
    case _ => InvalidReport
  }

  predicate Signals(s: Signal, d: Data, x: Expectation) {
    Emits(s, d) || exists reason :: Applies(reason, d, x) && ReasonSignal(reason) == s
  }

  method SandboxErrors(d: Data, x: Expectation, signals: seq<Signal>) returns (errors: seq<string>)
    requires InvalidReport in signals <==> Unusable(d)
    ensures errors == [] <==> !Malformed(d, x)
  {
    var r := SourceOf(d);
    errors := [];
    if d.Object? {
      errors := r.shapeErrors;
      if r.fingerprint.None? {
        errors := errors + ["report_not_json_serializable"];
      }
    } else {
      errors := errors + ["schema_input_must_be_object"];
    }
    if r.claim.BadClaim? {
      errors := errors + ["report_fingerprint_invalid"];
    }
    if InvalidReport in signals {
      errors := errors + ["sandbox_report_shape_invalid"];
    }
    if !r.runId.ProperRunId? {
      errors := errors + ["run_id_invalid"];
    }
    if !r.gateFingerprintOk {
      errors := errors + ["gate_decision_fingerprint_invalid"];
    }
    if !r.time.At? {
      errors := errors + ["generated_at_invalid"];
    } else if x.now - r.time.seconds < -MAX_FUTURE_SKEW {
      errors := errors + ["generated_at_in_future"];
    }
  }

  /** What speaks against the form of the report. */
  method CheckForm(d: Data, x: Expectation, errors: seq<string>) returns (invalid: bool, misclaims: bool, stale: bool)
    requires errors == [] <==> !Malformed(d, x)
    ensures invalid == Applies(Invalid, d, x) && misclaims == Applies(FingerprintMismatch, d, x)
    ensures stale == Applies(Stale, d, x)
  {
    var r := SourceOf(d);
    misclaims := d.Object? && r.claim.Claim? && r.fingerprint.Some? && r.claim.digest != r.fingerprint.value;
    invalid := errors != [] || misclaims;
    stale := r.time.At? && x.now - r.time.seconds > x.maxAge;
  }

  /** What speaks against it where it is used. */
  method CheckUse(d: Data, x: Expectation)
    returns (otherSubject: bool, otherPolicy: bool, overBudget: bool, duplicate: bool)
    ensures otherSubject == Applies(SubjectMismatch, d, x) && otherPolicy == Applies(PolicyMismatch, d, x)
    ensures overBudget == Applies(OverBudget, d, x) && duplicate == Applies(Duplicate, d, x)
  {
    var r := SourceOf(d);
    otherSubject := x.subject.Some? && SubjectOf(d) != x.subject.value;
    otherPolicy := x.policyVersion.Some? && r.policyVersion != x.policyVersion;
    overBudget := x.totalOverBudget || (x.sourceSize.Some? && x.sourceSize.value > x.maxBytes);
    duplicate := d.Object? && r.fingerprint.Some? && r.fingerprint.value in x.seen;
  }

  method ListReasons(invalid: bool, misclaims: bool, stale: bool, subject: bool, policy: bool, overBudget: bool,
                     duplicate: bool, truncated: bool)
    returns (reasons: seq<Reason>)
    ensures Invalid in reasons <==> invalid
    ensures FingerprintMismatch in reasons <==> misclaims
    ensures Stale in reasons <==> stale
    ensures SubjectMismatch in reasons <==> subject
    ensures PolicyMismatch in reasons <==> policy
    ensures OverBudget in reasons <==> overBudget
    ensures Duplicate in reasons <==> duplicate
    ensures Truncated in reasons <==> truncated
  {
    reasons := AppendIf([], invalid, Invalid);
    reasons := AppendIf(reasons, misclaims, FingerprintMismatch);
    reasons := AppendIf(reasons, stale, Stale);
    reasons := AppendIf(reasons, subject, SubjectMismatch);
    reasons := AppendIf(reasons, policy, PolicyMismatch);
    reasons := AppendIf(reasons, overBudget, OverBudget);
    reasons := AppendIf(reasons, duplicate, Duplicate);
    reasons := AppendIf(reasons, truncated, Truncated);
  }

  /** A list that holds each reason exactly if the predicate does. */
  lemma EachExactlyIf(reasons: seq<Reason>, applies: Reason -> bool)
    requires Invalid in reasons <==> applies(Invalid)
    requires FingerprintMismatch in reasons <==> applies(FingerprintMismatch)
    requires Stale in reasons <==> applies(Stale)
    requires SubjectMismatch in reasons <==> applies(SubjectMismatch)
    requires PolicyMismatch in reasons <==> applies(PolicyMismatch)
    requires OverBudget in reasons <==> applies(OverBudget)
    requires Duplicate in reasons <==> applies(Duplicate)
    requires Truncated in reasons <==> applies(Truncated)
    ensures forall reason :: reason in reasons <==> applies(reason)
  {
    forall reason ensures reason in reasons <==> applies(reason) {
      match reason
      case Invalid =>
      case FingerprintMismatch =>
      case Stale =>
      case SubjectMismatch =>
      case PolicyMismatch =>
      case OverBudget =>
      case Duplicate =>
      case Truncated =>
    }
  }

  method SandboxReasons(d: Data, x: Expectation, errors: seq<string>, truncated: bool) returns (reasons: seq<Reason>)
    requires (errors == [] <==> !Malformed(d, x)) && (truncated <==> SourceOf(d).truncated)
    ensures forall reason :: reason in reasons <==> Applies(reason, d, x)
  {
    var invalid, misclaims, stale := CheckForm(d, x, errors);
    var otherSubject, otherPolicy, overBudget, duplicate := CheckUse(d, x);
    reasons := ListReasons(invalid, misclaims, stale, otherSubject, otherPolicy, overBudget, duplicate, truncated);
    EachExactlyIf(reasons, reason => Applies(reason, d, x));
  }

  /** The signals that the validator adds for its reasons. */
  predicate Adds(s: Signal, reasons: seq<Reason>) {
    match s
    case InvalidReport => Invalid in reasons || Duplicate in reasons || PolicyMismatch in reasons
    case StaleReport => Stale in reasons
    case BindingMismatch => SubjectMismatch in reasons
    case OverBudgetReport => OverBudget in reasons
    case TruncatedReport => Truncated in reasons
    case _ => false
  }

  method AddSignals(signals: seq<Signal>, reasons: seq<Reason>) returns (r: seq<Signal>)
    ensures forall s :: s in r <==> s in signals || Adds(s, reasons)
  {
    r := AppendIf(signals, Adds(InvalidReport, reasons), InvalidReport);
    r := AppendIf(r, Adds(StaleReport, reasons), StaleReport);
    r := AppendIf(r, Adds(BindingMismatch, reasons), BindingMismatch);
    r := AppendIf(r, Adds(OverBudgetReport, reasons), OverBudgetReport);
    r := AppendIf(r, Adds(TruncatedReport, reasons), TruncatedReport);
  }

  /** No reason goes without its signal, and no signal is added without a reason. */
  lemma AddedExactlyForReasons(s: Signal, reasons: seq<Reason>)
    requires FingerprintMismatch in reasons ==> Invalid in reasons
    ensures Adds(s, reasons) <==> exists reason :: reason in reasons && ReasonSignal(reason) == s
  {
  }

  datatype Validated = Validated(reasons: seq<Reason>, signals: seq<Signal>)

  datatype BadLimit = BadMaxAge | BadMaxBytes

  /** `validate_sandbox_run_evidence`: the reasons against a report, which is valid if there are none, and the signals
      that go to the gate. */
  method ValidateSandboxRun(d: Data, x: Expectation) returns (v: Result<Validated, BadLimit>)
    ensures v.Ok? <==> x.maxAge > 0 && x.maxBytes > 0
    ensures v.Ok? ==> forall reason :: reason in v.value.reasons <==> Applies(reason, d, x)
    ensures v.Ok? ==> forall s :: s in v.value.signals <==> Signals(s, d, x)
  {
    if x.maxAge <= 0 {
      return Err(BadMaxAge);
    }
    if x.maxBytes <= 0 {
      return Err(BadMaxBytes);
    }
    var normalized := NormalizeSandboxRun(d);
    var errors := SandboxErrors(d, x, normalized.signals);
    var reasons := SandboxReasons(d, x, errors, TruncatedReport in normalized.signals);
    var signals := AddSignals(normalized.signals, reasons);
    forall s ensures s in signals <==> Signals(s, d, x) {
      AddedExactlyForReasons(s, reasons);
    }
    v := Ok(Validated(reasons, signals));
  }

  // ----- at the gate -----

  function Names(signals: seq<Signal>): (r: seq<string>)
    ensures |r| == |signals|
    ensures forall i :: 0 <= i < |r| ==> r[i] == SignalName(signals[i])
  {
    seq(|signals|, i requires 0 <= i < |signals| => SignalName(signals[i]))
  }

  /** Whether the reference that the decision makes to a report is well formed: it must name the snapshot. All else in it
      is bounded by the validator. */
  predicate RefOk(d: Data) {
    SubjectOf(d).snapshot.Some?
  }

  /** A validated report as the gate gets it. */
  function GateItem(d: Data, v: Validated): SandboxItem {
    SandboxItem(Some(Names(v.signals)), Some(RefOk(d)))
  }

  /** The gate takes from a validated report exactly the verdicts of its signals. */
  lemma GateItemVerdicts(d: Data, v: Validated)
    ensures SandboxVerdicts(GateItem(d, v)) == set s | s in v.signals :: SignalVerdict(s)
  {
    var names := Names(v.signals);
    forall n | n in names ensures n in SIGNAL_VERDICTS {
      var i :| 0 <= i < |names| && names[i] == n;
      EverySignalIsKnown(v.signals[i]);
    }
    var verdicts := set n | n in names && n in SIGNAL_VERDICTS :: SIGNAL_VERDICTS[n];
    forall s | s in v.signals ensures SignalVerdict(s) in verdicts {
      var i :| 0 <= i < |v.signals| && v.signals[i] == s;
      assert names[i] in names;
      EverySignalIsKnown(s);
    }
    forall w | w in verdicts ensures exists s :: s in v.signals && SignalVerdict(s) == w {
      var n :| n in names && n in SIGNAL_VERDICTS && SIGNAL_VERDICTS[n] == w;
      var i :| 0 <= i < |names| && names[i] == n;
      EverySignalIsKnown(v.signals[i]);
    }
  }

  predicate IsValidationOf(v: Validated, d: Data, x: Expectation) {
    (forall reason :: reason in v.reasons <==> Applies(reason, d, x)) && (forall s :: s in v.signals <==> Signals(s, d, x))
  }

  lemma SandboxVerdictReachesGate(item: SandboxItem, v: Verdict, q: Question, policy: Policy)
    requires item in q.sandbox && v in SandboxVerdicts(item)
    ensures AtLeast(GateVerdict(q, policy), v)
  {
    assert v in AllSandboxVerdicts(q.sandbox);
    CalledForIsReached(q, policy, v);
  }

  lemma SignalReachesGate(d: Data, v: Validated, s: Signal, q: Question, policy: Policy)
    requires s in v.signals && GateItem(d, v) in q.sandbox
    ensures AtLeast(GateVerdict(q, policy), SignalVerdict(s))
  {
    GateItemVerdicts(d, v);
    var item := GateItem(d, v);
    assert SignalVerdict(s) in SandboxVerdicts(item);
    SandboxVerdictReachesGate(item, SignalVerdict(s), q, policy);
  }

  /** However a report fails validation, the verdict is at least unknown; and it is a block if the report does not name
      its snapshot, if the subject is another one, if the report itself recorded a binding mismatch, or if the run was
      blocked by policy. */
  lemma FailedValidationHoldsTheGate(d: Data, x: Expectation, v: Validated, q: Question, policy: Policy)
    requires IsValidationOf(v, d, x) && GateItem(d, v) in q.sandbox
    ensures v.reasons != [] ==> AtLeast(GateVerdict(q, policy), Unknown)
    ensures !RefOk(d) || Applies(SubjectMismatch, d, x) || RecordedMismatch(SourceOf(d)) || IsBlocked(SourceOf(d)) ==>
              GateVerdict(q, policy) == Block
  {
    BindingOutcomeExactlyWhen(SourceOf(d));
    assert GateItem(d, v).refOk == Some(RefOk(d));
    if v.reasons != [] {
      var reason := v.reasons[0];
      assert reason in v.reasons;
      assert ReasonSignal(reason) in v.signals;
      SignalReachesGate(d, v, ReasonSignal(reason), q, policy);
    }
    if Applies(SubjectMismatch, d, x) || Emits(BindingMismatch, d) {
      assert ReasonSignal(SubjectMismatch) == BindingMismatch;
      assert BindingMismatch in v.signals;
      SignalReachesGate(d, v, BindingMismatch, q, policy);
    }
    if Emits(PolicyBlocked, d) {
      SignalReachesGate(d, v, PolicyBlocked, q, policy);
    }
  }

  /** The run was blocked, timed out, observed degraded, left uncleaned, unreal, stale by its own word, or recorded as
      bound to something else. */
  predicate RunIsOdd(r: RunReport) {
    || IsBlocked(r) || RecordedMismatch(r) || IsTimedOut(r) || IsCleanupFailed(r) || IsDegraded(r) || IsDryRun(r)
    || r.fakeRunner || r.stale
  }

  lemma OddRunsEmit(d: Data)
    ensures RunIsOdd(SourceOf(d)) <==>
              || Emits(PolicyBlocked, d) || Emits(BindingMismatch, d) || Emits(TimedOut, d) || Emits(CleanupFailed, d)
              || Emits(ObserverDegraded, d) || Emits(NotReal, d) || Emits(StaleReport, d)
  {
    BindingOutcomeExactlyWhen(SourceOf(d));
  }

  lemma NoSignalExactlyWhen(d: Data, x: Expectation, v: Validated)
    requires IsValidationOf(v, d, x)
    ensures v.signals == [] <==> v.reasons == [] && !RunIsOdd(SourceOf(d))
  {
    OddRunsEmit(d);
    if v.signals != [] {
      assert v.signals[0] in v.signals;
      if Emits(v.signals[0], d) && !RunIsOdd(SourceOf(d)) {
        assert Applies(Invalid, d, x) || Applies(Truncated, d, x);
      }
    }
    if v.reasons != [] {
      assert v.reasons[0] in v.reasons;
      assert ReasonSignal(v.reasons[0]) in v.signals;
    }
    if RunIsOdd(SourceOf(d)) {
      var s :| Emits(s, d);
      assert s in v.signals;
    }
  }

  lemma SaysNothingExactlyWhen(d: Data, x: Expectation, v: Validated)
    requires IsValidationOf(v, d, x)
    ensures SandboxVerdicts(GateItem(d, v)) == {} <==> v.reasons == [] && !RunIsOdd(SourceOf(d))
    ensures forall w :: w in SandboxVerdicts(GateItem(d, v)) ==> AtLeast(w, Unknown)
  {
    GateItemVerdicts(d, v);
    NoSignalExactlyWhen(d, x, v);
    if v.signals != [] {
      assert v.signals[0] in v.signals;
      assert SignalVerdict(v.signals[0]) in SandboxVerdicts(GateItem(d, v));
    }
  }

  // ----- what a report does to a verdict -----

  function WithItem(q: Question, i: SandboxItem): Question {
    q.(sandbox := q.sandbox + [i])
  }

  /** The number of references that a decision makes; there is room for sixteen. */
  function References(q: Question): nat {
    |q.suites| + ValidatedCount(q.sandbox)
  }

  /** Adding the item changes no verdict, as long as there is room for another reference. */
  ghost predicate LeavesVerdictsAlone(i: SandboxItem) {
    forall q, policy :: References(q) < 16 ==> GateVerdict(WithItem(q, i), policy) == GateVerdict(q, policy)
  }

  lemma OneMoreReference(sandbox: seq<SandboxItem>, i: SandboxItem)
    requires i.refOk == Some(true)
    ensures ValidatedCount(sandbox + [i]) == ValidatedCount(sandbox) + 1
    ensures (forall j :: j in sandbox + [i] ==> j.refOk != Some(false)) <==>
              (forall j :: j in sandbox ==> j.refOk != Some(false))
  {
    assert (sandbox + [i])[..|sandbox|] == sandbox;
    assert forall j :: j in sandbox ==> j in sandbox + [i];
  }

  lemma SilentItemAddsNothing(sandbox: seq<SandboxItem>, i: SandboxItem)
    requires SandboxVerdicts(i) == {}
    ensures AllSandboxVerdicts(sandbox + [i]) == AllSandboxVerdicts(sandbox)
  {
    assert forall j :: j in sandbox + [i] <==> j in sandbox || j == i;
  }

  lemma SilentItemLeavesVerdictAlone(q: Question, i: SandboxItem, policy: Policy)
    requires References(q) < 16 && i.refOk == Some(true) && SandboxVerdicts(i) == {}
    ensures GateVerdict(WithItem(q, i), policy) == GateVerdict(q, policy)
  {
    OneMoreReference(q.sandbox, i);
    SilentItemAddsNothing(q.sandbox, i);
    SameSaidSameVerdict(q, WithItem(q, i), policy);
  }

  lemma SameSaidSameVerdict(q: Question, r: Question, policy: Policy)
    requires r.subject == q.subject && r.items == q.items && r.suites == q.suites
    requires RefsOk(r) == RefsOk(q) && AllSandboxVerdicts(r.sandbox) == AllSandboxVerdicts(q.sandbox)
    ensures GateVerdict(r, policy) == GateVerdict(q, policy)
  {
    assert AddedVerdicts(r) == AddedVerdicts(q);
    assert AllVerdicts(r, policy) == AllVerdicts(q, policy);
  }

  const NO_POLICY := Policy(NoTable, [], [], [], false)

  /** A question whose verdict is a warning. */
  const WARNED := Question(Some(true), [RawSeen({Warn}, false, false, Acceptable, Some(true), 0)], [], [])

  lemma WarnedIsWarned()
    ensures GateVerdict(WARNED, NO_POLICY) == Warn
  {
    assert WARNED.items[0] in WARNED.items;
    assert AllItemVerdicts(WARNED.items) == {Warn};
    assert !SomeUnbound(WARNED.items) && SomeBound(WARNED.items);
    assert MissingNames(WARNED.items, NO_POLICY) == {} && MandatoryMissing(NO_POLICY) == {};
    assert AllVerdicts(WARNED, NO_POLICY) == {Warn};
  }

  lemma MalformedReferenceBlocks(i: SandboxItem, q: Question, policy: Policy)
    requires i in q.sandbox && i.refOk == Some(false)
    ensures GateVerdict(q, policy) == Block
  {
    assert !RefsOk(q);
  }

  lemma SpeakingItemChangesAVerdict(i: SandboxItem, w: Verdict)
    requires i.refOk == Some(false) || (w in SandboxVerdicts(i) && AtLeast(w, Unknown))
    ensures AtLeast(GateVerdict(WithItem(WARNED, i), NO_POLICY), Unknown)
  {
    var r := WithItem(WARNED, i);
    assert r.sandbox[0] == i;
    if i.refOk == Some(false) {
      MalformedReferenceBlocks(i, r, NO_POLICY);
    } else {
      SandboxVerdictReachesGate(i, w, r, NO_POLICY);
    }
  }

  /** A report leaves every verdict alone exactly when no reason stands against it, its run was nothing out of the
      ordinary, and it names its snapshot. */
  lemma SilentExactlyWhen(d: Data, x: Expectation, v: Validated)
    requires IsValidationOf(v, d, x)
    ensures LeavesVerdictsAlone(GateItem(d, v)) <==> v.reasons == [] && !RunIsOdd(SourceOf(d)) && RefOk(d)
  {
    var i := GateItem(d, v);
    SaysNothingExactlyWhen(d, x, v);
    if SandboxVerdicts(i) == {} && RefOk(d) {
      forall q, policy | References(q) < 16 ensures GateVerdict(WithItem(q, i), policy) == GateVerdict(q, policy) {
        SilentItemLeavesVerdictAlone(q, i, policy);
      }
    } else {
      var w := if SandboxVerdicts(i) != {} then var u :| u in SandboxVerdicts(i); u else Block;
      SpeakingItemChangesAVerdict(i, w);
      WarnedIsWarned();
      assert References(WARNED) == 0;
    }
  }

  /** A real run of a snapshot-bound subject that ended with exit code 1. */
  function FailedRun(digest: Digest, snapshot: Digest, manifest: Digest, now: int): RunReport {
    NOTHING.(versionOk := true, kindOk := true, fingerprint := Some(digest), runId := ProperRunId, time := At(now),
             gateFingerprintOk := true, commandStarted := true, exitCode := Some(1), status := StatusCompleted,
             subject := Subject(Some("<repo>"), None, None, Some(snapshot), Some(manifest), Some("snapshot_bound")))
  }

  lemma NothingAgainstFailedRun(x: Expectation, digest: Digest, snapshot: Digest, manifest: Digest)
    requires x.subject.None? && x.policyVersion.None? && !x.totalOverBudget && x.sourceSize.None? && digest !in x.seen
    requires x.maxAge > 0
    ensures var d := Object(FailedRun(digest, snapshot, manifest, x.now));
            (forall reason :: !Applies(reason, d, x)) && !RunIsOdd(SourceOf(d)) && RefOk(d)
  {
  }

  lemma EmptyOrInhabited(reasons: seq<Reason>)
    ensures reasons == [] || exists reason :: reason in reasons
  {
    if reasons != [] { assert reasons[0] in reasons; }
  }

  /** Silence is not success: the failure of that run changes no verdict. */
  lemma FailedRunCanBeSilent(x: Expectation, digest: Digest, snapshot: Digest, manifest: Digest, v: Validated)
    requires x.subject.None? && x.policyVersion.None? && !x.totalOverBudget && x.sourceSize.None? && digest !in x.seen
    requires x.maxAge > 0
    requires IsValidationOf(v, Object(FailedRun(digest, snapshot, manifest, x.now)), x)
    ensures CategoryOf(FailedRun(digest, snapshot, manifest, x.now)).CategoryFailure?
    ensures LeavesVerdictsAlone(GateItem(Object(FailedRun(digest, snapshot, manifest, x.now)), v))
  {
    var d := Object(FailedRun(digest, snapshot, manifest, x.now));
    NothingAgainstFailedRun(x, digest, snapshot, manifest);
    EmptyOrInhabited(v.reasons);
    SilentExactlyWhen(d, x, v);
  }

  /** The observer of the run was degraded, by its result status alone. */
  predicate IsDegradedByStatusAlone(r: RunReport) {
    CategoryOf(r).CategoryObserver? && !IsDegraded(r)
  }

  /** Such a run is categorized as observed in a degraded way, and yet, if nothing else speaks against it, leaves every
      verdict alone. */
  lemma DegradedByStatusIsSilentExactlyWhen(d: Data, x: Expectation, v: Validated)
    requires IsValidationOf(v, d, x) && IsDegradedByStatusAlone(SourceOf(d))
    ensures CategorySignal(CategoryOf(SourceOf(d))) == Some(ObserverDegraded) && !Emits(ObserverDegraded, d)
    ensures var r := SourceOf(d);
            LeavesVerdictsAlone(GateItem(d, v)) <==>
              v.reasons == [] && RefOk(d) && !RecordedMismatch(r) && !IsDryRun(r) && !r.fakeRunner && !r.stale
  {
    SilentExactlyWhen(d, x, v);
  }

  /** The same real run, with the degraded observer as its result status. */
  function DegradedRun(digest: Digest, snapshot: Digest, manifest: Digest, now: int): RunReport {
    FailedRun(digest, snapshot, manifest, now).(status := StatusObserverDegraded)
  }

  lemma NothingAgainstDegradedRun(x: Expectation, digest: Digest, snapshot: Digest, manifest: Digest)
    requires x.subject.None? && x.policyVersion.None? && !x.totalOverBudget && x.sourceSize.None? && digest !in x.seen
    requires x.maxAge > 0
    ensures var d := Object(DegradedRun(digest, snapshot, manifest, x.now));
            (forall reason :: !Applies(reason, d, x)) && !RunIsOdd(SourceOf(d)) && RefOk(d)
  {
  }

  /** The degraded observation of that run changes no verdict. */
  lemma DegradedRunCanBeSilent(x: Expectation, digest: Digest, snapshot: Digest, manifest: Digest, v: Validated)
    requires x.subject.None? && x.policyVersion.None? && !x.totalOverBudget && x.sourceSize.None? && digest !in x.seen
    requires x.maxAge > 0
    requires IsValidationOf(v, Object(DegradedRun(digest, snapshot, manifest, x.now)), x)
    ensures IsDegradedByStatusAlone(DegradedRun(digest, snapshot, manifest, x.now))
    ensures LeavesVerdictsAlone(GateItem(Object(DegradedRun(digest, snapshot, manifest, x.now)), v))
  {
    var d := Object(DegradedRun(digest, snapshot, manifest, x.now));
    NothingAgainstDegradedRun(x, digest, snapshot, manifest);
    EmptyOrInhabited(v.reasons);
    SilentExactlyWhen(d, x, v);
  }

  // ----- the same on the fields of a report -----

  /** The report has the right form and is whole, new and fresh, and it fits what the caller expects. */
  predicate StandsUp(d: Data, x: Expectation) {
    && d.Object?
    && var r := d.report;
       && r.shapeErrors == [] && r.versionOk && r.kindOk && r.runId == ProperRunId && r.gateFingerprintOk
       && r.fingerprint.Some? && (r.claim == NoClaim || r.claim == Claim(r.fingerprint.value))
       && r.fingerprint.value !in x.seen && !r.truncated
       && r.time.At? && x.now - x.maxAge <= r.time.seconds <= x.now + 300
       && (x.subject.Some? ==> SubjectOf(d) == x.subject.value)
       && (x.policyVersion.Some? ==> r.policyVersion == x.policyVersion)
       && !x.totalOverBudget && (x.sourceSize.Some? ==> x.sourceSize.value <= x.maxBytes)
  }

  /** Nothing in the report says that its run was out of the ordinary. */
  predicate RunIsOrdinary(r: RunReport) {
    && !r.policyBlocked && !r.gateBlocked && !r.timedOut && !r.cleanupFailed && !r.observerDegraded
    && !r.dryRun && !r.fakeRunner && !r.stale
    && r.status !in {StatusTimedOut, StatusCleanupUncertain, StatusDryRun}
    && (FirstPresent(r.observers).Some? ==>
          !FirstPresent(r.observers).value.saysDegraded && !FirstPresent(r.observers).value.isDegraded)
    && (FirstPresent(r.bindings).Some? ==>
          var b := FirstPresent(r.bindings).value;
          && b.status == OtherText && (b.checked ==> b.matched)
          && (!b.checked ==> forall text :: text in b.refusals ==> !Text.Contains(text, "mismatch")))
  }

  lemma OrdinaryExactlyWhen(r: RunReport)
    ensures RunIsOrdinary(r) <==> !RunIsOdd(r)
  {
  }

  lemma StandsUpExactlyWhen(d: Data, x: Expectation)
    ensures StandsUp(d, x) <==> forall reason :: !Applies(reason, d, x)
  {
    if !StandsUp(d, x) {
      if Malformed(d, x) || Misclaims(d) { assert Applies(Invalid, d, x); }
      else {
        DefectApplies(d, x);
      }
    }
  }

  lemma DefectApplies(d: Data, x: Expectation)
    requires !StandsUp(d, x) && !Malformed(d, x) && !Misclaims(d)
    ensures exists reason :: Applies(reason, d, x)
  {
    assert Applies(Stale, d, x) || Applies(SubjectMismatch, d, x) || Applies(PolicyMismatch, d, x)
           || Applies(OverBudget, d, x) || Applies(Duplicate, d, x) || Applies(Truncated, d, x);
  }

  /** A report leaves every verdict alone exactly when it stands up to the validator, its run was ordinary, and it names
      both fingerprints of its snapshot. */
  lemma SilentReportExactlyWhen(d: Data, x: Expectation, v: Validated)
    requires IsValidationOf(v, d, x)
    ensures LeavesVerdictsAlone(GateItem(d, v)) <==>
              && StandsUp(d, x) && RunIsOrdinary(SourceOf(d))
              && SourceOf(d).subject.snapshot.Some? && SourceOf(d).subject.manifest.Some?
  {
    SilentExactlyWhen(d, x, v);
    OrdinaryExactlyWhen(SourceOf(d));
    StandsUpExactlyWhen(d, x);
    EmptyOrInhabited(v.reasons);
  }

  /** What an odd run calls for, whatever else there is: an uncertain cleanup is a quarantine, and a timeout, a degraded
      observer, a run that was not real or says that it is stale is unknown. */
  lemma OddRunHoldsTheGate(d: Data, x: Expectation, v: Validated, q: Question, policy: Policy)
    requires IsValidationOf(v, d, x) && GateItem(d, v) in q.sandbox
    ensures var r, verdict := SourceOf(d), GateVerdict(q, policy);
            && (r.cleanupFailed || r.status == StatusCleanupUncertain ==> AtLeast(verdict, Quarantine))
            && (r.timedOut || r.status == StatusTimedOut || r.observerDegraded ==> AtLeast(verdict, Unknown))
            && (r.dryRun || r.status == StatusDryRun || r.fakeRunner || r.stale ==> AtLeast(verdict, Unknown))
  {
    forall s | Emits(s, d) ensures AtLeast(GateVerdict(q, policy), SignalVerdict(s)) {
      SignalReachesGate(d, v, s, q, policy);
    }
    EmittedVerdicts(d);
  }

  lemma EmittedVerdicts(d: Data)
    ensures var r := SourceOf(d);
            && (r.cleanupFailed || r.status == StatusCleanupUncertain ==> Emits(CleanupFailed, d))
            && (r.timedOut || r.status == StatusTimedOut ==> Emits(TimedOut, d))
            && (r.observerDegraded ==> Emits(ObserverDegraded, d))
            && (r.dryRun || r.status == StatusDryRun || r.fakeRunner ==> Emits(NotReal, d))
            && (r.stale ==> Emits(StaleReport, d))
  {
  }
}
