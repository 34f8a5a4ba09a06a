/** The pre-execution gate of src/repo_health_doctor/gate/evaluator.py, with the limitation severities of
    limitation_policy.py: evidence items, scanner suites and sandbox items are joined into one verdict. */
module GateEvaluator {
  import opened Wrappers
  import opened Verdicts
  import Text

  // ----- policy -----

  datatype Severity = Low | Medium | High | Critical

  /** The patterns of a severity table, or of a policy without one. */
  datatype SeverityTable = NoTable | Table(critical: seq<string>, high: seq<string>, medium: seq<string>, low: seq<string>)

  datatype Policy = Policy(
    severities: SeverityTable,
    missing: seq<string>,
    mandatory: seq<string>,
    acceptedMissing: seq<string>,
    dynamicJudgment: bool)

  predicate AnyIn(patterns: seq<string>, text: string) {
    exists p :: p in patterns && Text.Contains(text, Text.Lower(p))
  }

  /** `limitation_severity`. */
  function LimitationSeverity(limitation: string, table: SeverityTable): Severity {
    var text := Text.Lower(limitation);
    if table.Table? && AnyIn(table.critical, text) then Critical
    else if table.Table? && AnyIn(table.high, text) then High
    else if table.Table? && AnyIn(table.medium, text) then Medium
    else if table.Table? && AnyIn(table.low, text) then Low
    else if Text.Contains(text, "critical") || Text.Contains(text, "mismatch")
            || Text.Contains(text, "raw output retained") then Critical
    else if Text.Contains(text, "runtime observer") || Text.Contains(text, "degraded")
            || Text.Contains(text, "unavailable") then High
    else if Text.Contains(text, "missing") || Text.Contains(text, "unverified")
            || Text.Contains(text, "parse failed") then Medium
    else Low
  }

  function LimitationVerdict(limitation: string, policy: Policy): Verdict {
    match LimitationSeverity(limitation, policy.severities)
    case Critical => Block
    case High => Quarantine
    case Medium => Warn
    case Low => AllowLimited
  }

  // ----- evidence -----

  datatype Binding = Unbound | Acceptable | NoBinding

  /** One evidence item: the fields that the gate reads, and the verdict of `validate_evidence` on the whole.
      `subject` says whether the item has a subject and whether a decision about it would be well formed. */
  datatype RawItem = RawItem(
    valid: bool,
    runtime: bool,
    binding: Binding,
    subject: Option<bool>,
    lowTrust: bool,
    present: Option<bool>,
    count: int,
    authorizes: bool,
    rawRetained: bool,
    effect: Option<string>,
    redactionStatus: Option<string>,
    category: Option<string>,
    subcategory: Option<string>,
    severity: Option<string>,
    summary: Option<string>,
    limitations: seq<string>,
    residualRisks: seq<string>)

  /** What `validate_evidence` makes sure of. It tests a subject just as the decision's validator does. */
  predicate IsChecked(i: RawItem) {
    && i.count >= 0 && i.present.Some? && i.limitations != []
    && i.subject == Some(true) && i.binding != NoBinding
    && !i.authorizes && !i.rawRetained
  }

  type Item = i: RawItem | i.valid ==> IsChecked(i)
    witness RawItem(false, false, NoBinding, None, false, None, 0, false, false, None, None, None, None, None, None, [], [])

  function NormalizeToken(value: string): string {
    Text.Replace(Text.Replace(Text.Replace(Text.Lower(value), '-', '_'), ' ', '_'), '/', '_')
  }

  function OptionalToken(value: Option<string>): set<string> {
    if value.Some? then {NormalizeToken(value.value)} else {}
  }

  /** `_tokens`. */
  function Tokens(i: RawItem): set<string> {
    OptionalToken(i.category) + OptionalToken(i.subcategory) + OptionalToken(i.severity) + OptionalToken(i.summary)
    + OptionalToken(i.redactionStatus) + OptionalToken(i.effect)
    + (set l | l in i.limitations :: NormalizeToken(l)) + (set r | r in i.residualRisks :: NormalizeToken(r))
  }

  const BLOCKING_MARKERS := {
    "raw secret leakage", "raw host path leak", "expected commit mismatch", "approval mismatch",
    "policy violation that attempted execution without approval", "network allowed during target scan",
    "docker socket mount", "host home mount", "credential mount"}
  const QUARANTINE_MARKERS := {
    "verified_secret", "credential_access_network", "install_download_exec", "obfuscation_eval_network",
    "ci_token_abuse_chain", "pull_request_target_untrusted_checkout", "docker_socket_subprocess",
    "critical_vulnerability_runtime", "observer_degraded_risky_execution"}
  const WARN_MARKERS := {
    "tool unavailable", "tool output parse failed", "known_vulnerability", "low_repo_posture",
    "unsupported_scanner_version", "dirty workspace binding", "content digest binding without commit"}

  predicate HasAny(tokens: set<string>, markers: set<string>) {
    exists m, t :: m in markers && t in tokens && Text.Contains(t, Text.Replace(Text.Lower(m), ' ', '_'))
  }

  predicate HasBlockingSignal(tokens: set<string>) {
    HasAny(tokens, BLOCKING_MARKERS) || "raw_secret_leak" in tokens || "raw_host_path_leak" in tokens
  }

  predicate HasQuarantineSignal(tokens: set<string>, category: Option<string>) {
    || HasAny(tokens, QUARANTINE_MARKERS)
    || (category == Some("secret") && "verified_secret" in tokens)
    || ("credential_path_reference" in tokens && ("network_request" in tokens || "network_attempt" in tokens))
    || {"install_script_execution", "download_exec_chain"} <= tokens
    || {"obfuscation", "dynamic_eval", "network_request"} <= tokens
    || {"pull_request_target_misuse", "untrusted_checkout"} <= tokens
    || (exists t :: t in tokens && Text.Contains(t, "pull_request_target_misuse") && Text.Contains(t, "untrusted_checkout"))
    || {"broad_token_permission", "unpinned_action"} <= tokens
    || {"docker_socket_reference", "subprocess_indicator"} <= tokens
    || {"known_critical_vulnerability", "suspicious_runtime_behavior"} <= tokens
  }

  predicate HasWarnSignal(tokens: set<string>, i: RawItem) {
    || HasAny(tokens, WARN_MARKERS)
    || i.category == Some("known_vulnerability")
    || i.subcategory == Some("low_repo_posture") || i.subcategory == Some("unsupported_scanner_version")
  }

  function When(condition: bool, v: Verdict): set<Verdict> {
    if condition then {v} else {}
  }

  /** The verdicts that the limitations of an item call for. */
  function LimitationVerdicts(limitations: seq<string>, policy: Policy): set<Verdict> {
    (set l | l in limitations :: LimitationVerdict(l, policy)) - {AllowLimited}
  }

  predicate WantsBlock(i: RawItem, signal: bool) {
    || !i.valid || i.authorizes || i.rawRetained || i.redactionStatus == Some("failed") || i.effect == Some("block")
    || signal
  }

  predicate WantsQuarantine(i: RawItem, signal: bool) {
    i.effect == Some("quarantine") || signal
  }

  predicate WantsWarning(i: RawItem, signal: bool) {
    i.effect == Some("warn") || signal || i.present == Some(false)
  }

  /** The verdicts that one item calls for, whatever else is there. */
  function ItemVerdicts(i: RawItem, policy: Policy): set<Verdict> {
    var tokens := Tokens(i);
    VerdictsFrom(i, HasBlockingSignal(tokens), HasQuarantineSignal(tokens, i.category), HasWarnSignal(tokens, i),
                 LimitationVerdicts(i.limitations, policy))
  }

  /** The same, given the signals among its tokens and what its limitations call for. */
  function VerdictsFrom(i: RawItem, blocking: bool, quarantine: bool, warn: bool, limited: set<Verdict>): set<Verdict> {
    When(WantsBlock(i, blocking), Block) + When(WantsQuarantine(i, quarantine), Quarantine)
    + When(WantsWarning(i, warn), Warn) + When(i.binding == Unbound, Unknown) + limited
  }

  /** What the gate takes from one item: the verdicts it calls for, and what is asked of all items together. */
  datatype RawSeen = RawSeen(
    verdicts: set<Verdict>,
    lowTrust: bool,
    runtime: bool,
    binding: Binding,
    subject: Option<bool>,
    findings: int)

  /** An item with a negative finding count or a malformed subject is invalid, and so calls for a block. */
  type Seen = s: RawSeen | s.findings < 0 || s.subject == Some(false) ==> Block in s.verdicts
    witness RawSeen({}, false, false, NoBinding, None, 0)

  function See(i: Item, policy: Policy): Seen {
    RawSeen(ItemVerdicts(i, policy), i.lowTrust, i.runtime, i.binding, i.subject,
            if i.present == Some(true) then i.count else 0)
  }

  function Seer(policy: Policy): Item -> Seen {
    (i: Item) => See(i, policy)
  }

  function Digests(items: seq<Item>, see: Item -> Seen): (r: seq<Seen>)
    ensures |r| == |items|
  {
    if items == [] then []
    else Digests(items[..|items| - 1], see) + [see(items[|items| - 1])]
  }

  // ----- scanner suites -----

  /** One entry of a suite report: not an object, not a valid completed scan, without an object as its result, or
      scanned, with the verdict that the risk mapper derives, if any. */
  datatype SuiteEntry =
    | NoObject
    | NotCompleted
    | NoResult
    | Scanned(mapped: Option<Verdict>, count: int, unverified: bool)

  /** A suite with the outcome of its validation; `refOk`: its reference in the decision is well formed. */
  datatype Suite = Suite(valid: bool, entries: Option<seq<SuiteEntry>>, refOk: bool)

  function EntryVerdicts(e: SuiteEntry): set<Verdict> {
    match e
    case Scanned(mapped, count, unverified) =>
      When(unverified, Unknown) + if mapped.Some? then {mapped.value} else When(count != 0, Warn)
    case _ => {Unknown}
  }

  function SuiteVerdicts(s: Suite): set<Verdict> {
    if !s.valid || s.entries.None? then {Unknown}
    else set e, v | e in s.entries.value && v in EntryVerdicts(e) :: v
  }

  // ----- sandbox evidence -----

  /** The table of decision signals. */
  const SIGNAL_VERDICTS := map[
    "execution_policy_blocked" := Block,
    "subject_binding_mismatch" := Block,
    "workspace_cleanup_failed" := Quarantine,
    "execution_timeout" := Unknown,
    "observer_degraded" := Unknown,
    "not_real_execution_evidence" := Unknown,
    "sandbox_evidence_invalid" := Unknown,
    "sandbox_evidence_stale" := Unknown,
    "sandbox_evidence_truncated" := Unknown,
    "sandbox_evidence_over_budget" := Unknown]

  /** A sandbox item: its decision signals if it has the right shape, and, if it was validated, whether its
      reference in the decision is well formed. */
  datatype SandboxItem = SandboxItem(signals: Option<seq<string>>, refOk: Option<bool>)

  function SandboxVerdicts(i: SandboxItem): set<Verdict> {
    if i.signals.None? || exists s :: s in i.signals.value && s !in SIGNAL_VERDICTS then {Unknown}
    else set s | s in i.signals.value && s in SIGNAL_VERDICTS :: SIGNAL_VERDICTS[s]
  }

  // ----- the verdict as a function of sets -----

  /** Everything the gate is asked about; `subject` is the caller's, if given. */
  datatype Question = Question(subject: Option<bool>, items: seq<Seen>, suites: seq<Suite>, sandbox: seq<SandboxItem>)

  function AllItemVerdicts(items: seq<Seen>): set<Verdict> {
    set i, v | i in items && v in i.verdicts :: v
  }

  function AllSuiteVerdicts(suites: seq<Suite>): set<Verdict> {
    set s, v | s in suites && v in SuiteVerdicts(s) :: v
  }

  function AllSandboxVerdicts(sandbox: seq<SandboxItem>): set<Verdict> {
    set i, v | i in sandbox && v in SandboxVerdicts(i) :: v
  }

  /** What suites and sandbox items add. */
  function AddedVerdicts(q: Question): set<Verdict> {
    AllSuiteVerdicts(q.suites) + AllSandboxVerdicts(q.sandbox)
  }

  predicate MentionsRuntime(name: string) {
    Text.Contains(name, "runtime") || Text.Contains(name, "observer")
  }

  predicate SomeUnbound(items: seq<Seen>) {
    exists i :: i in items && i.binding == Unbound
  }

  function MissingNames(items: seq<Seen>, policy: Policy): set<string> {
    (set n | n in policy.missing) + (set n | n in policy.mandatory)
    + (if items == [] then {"all_evidence"} else {})
    + (if SomeUnbound(items) then {"commit_or_tree_binding"} else {})
  }

  function Unaccepted(names: set<string>, policy: Policy): set<string> {
    set n | n in names && n !in policy.acceptedMissing
  }

  function MandatoryMissing(policy: Policy): set<string> {
    Unaccepted((set n | n in policy.mandatory), policy)
  }

  /** Whether a dynamic judgment was asked for that these missing names stand in the way of. */
  predicate BlindToRuntime(names: set<string>, policy: Policy) {
    policy.dynamicJudgment && exists n :: n in names && MentionsRuntime(n)
  }

  /** What missing evidence calls for. */
  function MissingVerdicts(items: seq<Seen>, policy: Policy): set<Verdict> {
    var names := Unaccepted(MissingNames(items, policy), policy);
    When(MandatoryMissing(policy) != {}, Unknown)
    + When(names != {} && BlindToRuntime(names, policy), Quarantine)
    + When(names != {} && !BlindToRuntime(names, policy), Warn)
  }

  predicate SomeBound(items: seq<Seen>) {
    exists i :: i in items && i.binding == Acceptable
  }

  /** What the items alone call for, but for the low-trust fallback. */
  function BaseVerdicts(items: seq<Seen>): set<Verdict> {
    When(items == [], Unknown) + AllItemVerdicts(items)
  }

  predicate OnlyLowTrust(items: seq<Seen>) {
    items != [] && forall i :: i in items ==> i.lowTrust && !i.runtime
  }

  /** The low-trust fallback: only low-trust evidence without runtime observation, and nothing said anything. */
  predicate FallbackApplies(q: Question) {
    OnlyLowTrust(q.items) && BaseVerdicts(q.items) + AddedVerdicts(q) == {}
  }

  /** What is called for after the fallback: missing bindings and missing evidence. */
  function LateVerdicts(items: seq<Seen>, policy: Policy): set<Verdict> {
    When(items != [] && !SomeBound(items), Unknown) + MissingVerdicts(items, policy)
  }

  function AllVerdicts(q: Question, policy: Policy): set<Verdict> {
    BaseVerdicts(q.items) + AddedVerdicts(q) + When(FallbackApplies(q), Unknown) + LateVerdicts(q.items, policy)
  }

  /** The number of validated sandbox items, each of which the decision refers to. */
  function ValidatedCount(sandbox: seq<SandboxItem>): nat {
    if sandbox == [] then 0
    else ValidatedCount(sandbox[..|sandbox| - 1]) + if sandbox[|sandbox| - 1].refOk.Some? then 1 else 0
  }

  predicate RefsOk(q: Question) {
    && |q.suites| + ValidatedCount(q.sandbox) <= 16
    && (forall s :: s in q.suites ==> s.refOk)
    && (forall i :: i in q.sandbox ==> i.refOk != Some(false))
  }

  /** The subject of the decision: the caller's, or that of the first item with one. */
  function SubjectOk(q: Question): bool {
    if q.subject.Some? then q.subject.value else FirstSubject(q.items)
  }

  function FirstSubject(items: seq<Seen>): bool {
    if items == [] then true
    else if items[0].subject.Some? then items[0].subject.value
    else FirstSubject(items[1..])
  }

  /** The verdict of the decision. */
  function GateVerdict(q: Question, policy: Policy): Verdict {
    if SubjectOk(q) && RefsOk(q) then StrongestOf(AllVerdicts(q, policy)) else Block
  }

  /** The verdict is no weaker than anything that is called for. */
  lemma CalledForIsReached(q: Question, policy: Policy, v: Verdict)
    requires v in AllVerdicts(q, policy)
    ensures AtLeast(GateVerdict(q, policy), v)
  {
    StrongestIsAtLeast(AllVerdicts(q, policy), v);
  }
}
