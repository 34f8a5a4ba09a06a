/** Budgets of the real scanner suite, src/repo_health_doctor/external_scanner/real_scanner_suite.py: per-scanner
    and suite-wide finding budgets, then a byte budget over the printed report. */
module ScannerSuite {
  import opened Wrappers
  import opened Json

  const BYTE_WARNING := "report_byte_budget_exceeded"
  const FINDING_WARNING := "finding_budget_exceeded"
  const FAMILY_WARNING := "scanner_version_compatible_family_unverified"
  const PLACEHOLDER_TIME := "2000-01-01T00:00:00+00:00"
  const PLACEHOLDER_FINGERPRINT := "sha256:" + Zeros(64)

  function Zeros(n: nat): (s: string)
    ensures |s| == n && forall k :: 0 <= k < n ==> s[k] == '0'
  {
    if n == 0 then [] else Zeros(n - 1) + ['0']
  }

  function Min(a: int, b: int): int { if a < b then a else b }

  function Max(a: int, b: int): int { if a < b then b else a }

  // ----- normalized scanner results -----

  function ItemsAt(members: seq<Member>, key: string): seq<Json> {
    var value := Get(members, key);
    if value.Some? && value.value.Arr? then value.value.items else []
  }

  function MembersAt(members: seq<Member>, key: string): seq<Member> {
    var value := Get(members, key);
    if value.Some? && value.value.Obj? then value.value.members else []
  }

  /** `_nonnegative_int`: Python's booleans are integers. */
  function NonNegativeInt(value: Option<Json>): nat {
    if value.None? then 0
    else match value.value
      case Int(i) => if i >= 0 then i else 0
      case Bool(b) => if b then 1 else 0
      case _ => 0
  }

  function SummaryCount(members: seq<Member>): nat {
    NonNegativeInt(Get(MembersAt(members, "summary"), "finding_count"))
  }

  /** `_result_finding_count`. */
  function FindingCount(members: seq<Member>): nat {
    Max(|ItemsAt(members, "findings")|, SummaryCount(members))
  }

  function Take(items: seq<Json>, keep: nat): seq<Json> {
    if keep < |items| then items[..keep] else items
  }

  function TruncatedMember(m: Member, keep: nat): Member {
    var value := Bounded(m.value);
    if (m.key == "findings" || m.key == "evidence_nodes") && value.Arr? then
      Member(m.key, Arr(Take(value.items, keep)))
    else if m.key == "summary" && value.Obj? then
      Member(m.key, Obj(Set(value.members, "finding_count", Int(keep))))
    else Member(m.key, value)
  }

  /** `_truncate_normalized_result`. */
  function Truncated(members: seq<Member>, keep: nat): (r: seq<Member>)
    ensures |r| == |members|
  {
    if members == [] then [] else [TruncatedMember(members[0], keep)] + Truncated(members[1..], keep)
  }

  lemma {:induction false} BoundedItemsOfTake(items: seq<Json>, keep: nat)
    ensures BoundedItems(Take(items, keep)) == Take(BoundedItems(items), keep)
  {
    if 0 < keep < |items| {
      BoundedItemsOfTake(items[1..], keep - 1);
      assert Take(items, keep)[1..] == Take(items[1..], keep - 1);
    }
  }

  lemma {:induction false} BoundedMembersOfSet(members: seq<Member>, key: string, n: int)
    ensures BoundedMembers(Set(members, key, Int(n))) == Set(BoundedMembers(members), key, Int(n))
  {
    if members != [] && members[0].key != key {
      BoundedMembersOfSet(members[1..], key, n);
      assert Set(members, key, Int(n))[1..] == Set(members[1..], key, Int(n));
      assert BoundedMembers(members)[1..] == BoundedMembers(members[1..]);
    } else if members != [] {
      assert Set(members, key, Int(n))[1..] == members[1..];
    }
  }

  lemma TruncatedMembersCompose(m: Member, a: nat, b: nat)
    requires b <= a
    ensures TruncatedMember(TruncatedMember(m, a), b) == TruncatedMember(m, b)
    ensures Bounded(TruncatedMember(m, a).value) == TruncatedMember(m, a).value
  {
    BoundedIsIdempotent(m.value);
    var value := Bounded(m.value);
    if value.Arr? {
      BoundedItemsOfTake(value.items, a);
      assert BoundedItems(value.items) == value.items;
      assert Take(Take(value.items, a), b) == Take(value.items, b);
    }
    if value.Obj? {
      BoundedMembersOfSet(value.members, "finding_count", a);
      assert BoundedMembers(value.members) == value.members;
      SetTwice(value.members, "finding_count", Int(a), Int(b));
    }
  }

  /** Truncating to a and then to b <= a is truncating to b, and every truncated result is bounded. */
  lemma {:induction false} TruncationsCompose(members: seq<Member>, a: nat, b: nat)
    requires b <= a
    ensures Truncated(Truncated(members, a), b) == Truncated(members, b)
    ensures BoundedMembers(Truncated(members, a)) == Truncated(members, a)
  {
    if members != [] {
      TruncatedMembersCompose(members[0], a, b);
      TruncationsCompose(members[1..], a, b);
      assert Truncated(members, a)[1..] == Truncated(members[1..], a);
    }
  }

  lemma {:induction false} GetOfTruncated(members: seq<Member>, keep: nat, key: string)
    ensures Get(Truncated(members, keep), key) ==
            var value := Get(members, key);
            if value.Some? then Some(TruncatedMember(Member(key, value.value), keep).value) else None
  {
    if members != [] && members[0].key != key {
      GetOfTruncated(members[1..], keep, key);
      assert Truncated(members, keep)[1..] == Truncated(members[1..], keep);
    }
  }

  /** What a truncation retains is a prefix of the findings, each bounded. */
  lemma RetainedFindingsArePrefix(members: seq<Member>, keep: nat)
    ensures ItemsAt(Truncated(members, keep), "findings") ==
            Take(BoundedItems(ItemsAt(members, "findings")), keep)
  {
    GetOfTruncated(members, keep, "findings");
  }

  lemma {:induction false} GetOfBounded(members: seq<Member>, key: string)
    ensures Get(BoundedMembers(members), key) ==
            var value := Get(members, key);
            if value.Some? then Some(Bounded(value.value)) else None
  {
    if members != [] && members[0].key != key {
      GetOfBounded(members[1..], key);
      assert BoundedMembers(members)[1..] == BoundedMembers(members[1..]);
    }
  }

  lemma BoundingKeepsFindingCount(members: seq<Member>)
    ensures FindingCount(BoundedMembers(members)) == FindingCount(members)
    ensures |ItemsAt(BoundedMembers(members), "findings")| == |ItemsAt(members, "findings")|
    ensures SummaryCount(BoundedMembers(members)) == SummaryCount(members)
  {
    GetOfBounded(members, "findings");
    GetOfBounded(members, "summary");
    GetOfBounded(MembersAt(members, "summary"), "finding_count");
  }

  // ----- entries -----

  datatype Entry = Entry(
    scanner: string,
    executed: bool,
    valid: bool,
    status: string,
    blockingErrors: seq<string>,
    warnings: seq<string>,
    riskSummary: Json,
    normalized: seq<Member>,
    findings: nat,
    omitted: nat,
    truncated: bool)

  /** What an adapter returns. `familyUnverified` is the verdict of the version assessment. */
  datatype ScanOutcome =
    | AdapterRaised
    | ScanResult(executed: bool, valid: bool, blockingErrors: seq<string>, warnings: seq<string>,
                 familyUnverified: bool, normalized: seq<Member>)

  function AddOnce(warnings: seq<string>, warning: string): seq<string> {
    if warning in warnings then warnings else warnings + [warning]
  }

  function TextAt(members: seq<Member>, key: string): Json {
    var value := Get(members, key);
    if value.Some? && value.value.Str? && value.value.s != "" then value.value else Str("unknown")
  }

  function StringsOf(items: seq<Json>): seq<Json> {
    if items == [] then []
    else (if items[0].Str? then [items[0]] else []) + StringsOf(items[1..])
  }

  function RiskSummary(normalized: seq<Member>): Json {
    var summary, mapping := MembersAt(normalized, "summary"), MembersAt(normalized, "mapping_result");
    Obj([Member("gate_effects", Arr(StringsOf(ItemsAt(mapping, "gate_effects")))),
         Member("highest_risk_tier_effect", TextAt(summary, "highest_risk_tier_effect")),
         Member("outcome", TextAt(summary, "outcome")),
         Member("risk_lowering_allowed", Bool(Get(mapping, "risk_lowering_allowed") == Some(Bool(true)))),
         Member("risk_tier_effect", TextAt(mapping, "risk_tier_effect"))])
  }

  /** `_entry_from_run_result` with a finding budget. */
  function EntryFromResult(scanner: string, result: ScanOutcome, allowed: nat): Entry
    requires result.ScanResult?
  {
    var bounded := BoundedMembers(result.normalized);
    var original := FindingCount(bounded);
    var records := |ItemsAt(bounded, "findings")|;
    var retained := Min(original, allowed);
    var omitted := original - retained;
    var warnings := result.warnings + if result.familyUnverified then [FAMILY_WARNING] else [];
    Entry(scanner, result.executed, result.valid,
          if result.valid then "completed" else "unknown",
          result.blockingErrors,
          if omitted > 0 then AddOnce(warnings, FINDING_WARNING) else warnings,
          RiskSummary(bounded),
          Truncated(bounded, retained),
          if records == 0 then retained else Min(records, retained),
          omitted,
          omitted > 0)
  }

  /** A result's findings are all accounted for exactly when its summary does not claim more than a non-empty list
      holds, or the budget hides the claim. */
  lemma EntryAccountsForAllFindings(scanner: string, result: ScanOutcome, allowed: nat)
    requires result.ScanResult?
    ensures var e := EntryFromResult(scanner, result, allowed);
            var records := |ItemsAt(result.normalized, "findings")|;
            && (e.findings + e.omitted == FindingCount(result.normalized) <==>
                  records == 0 || SummaryCount(result.normalized) <= records || allowed <= records)
            && e.findings + e.omitted <= FindingCount(result.normalized)
            && e.findings <= allowed
            && (e.truncated <==> e.omitted > 0)
            && (e.omitted > 0 <==> FindingCount(result.normalized) > allowed)
  {
    BoundingKeepsFindingCount(result.normalized);
  }

  /** A claim of two findings over a list of one loses a finding without omitting any. */
  lemma UnbackedClaimIsLost()
    ensures var result := ScanResult(true, true, [], [], false,
                                     [Member("findings", Arr([Null])),
                                      Member("summary", Obj([Member("finding_count", Int(2))]))]);
            var e := EntryFromResult("gitleaks", result, 10);
            FindingCount(result.normalized) == 2 && e.findings == 1 && e.omitted == 0 && !e.truncated
  {
    var findings, summary := Member("findings", Arr([Null])), Member("summary", Obj([Member("finding_count", Int(2))]));
    var members := [findings, summary];
    BoundingKeepsFindingCount(members);
    assert members[1..] == [summary];
    assert Get(members, "findings") == Some(findings.value);
    assert Get([summary], "summary") == Some(summary.value);
    assert Get(members, "summary") == Some(summary.value);
  }

  /** The entry of a scanner that gave no result; `document` is its placeholder result. */
  function EntryWithoutResult(scanner: string, offline: bool, document: seq<Member>): Entry {
    if offline then
      Entry(scanner, false, false, "skipped_offline", [], ["scanner_skipped_offline"], RiskSummary(document), document,
            0, 0, false)
    else
      Entry(scanner, false, false, "unknown", ["suite_runner_error"], [], RiskSummary(document), document, 0, 0, false)
  }

  /** `_truncate_entry` by the byte budget. */
  function TruncatedEntry(e: Entry, keep: nat): Entry {
    e.(warnings := AddOnce(e.warnings, BYTE_WARNING),
       normalized := Truncated(e.normalized, keep),
       findings := keep,
       omitted := e.omitted + Max(0, e.findings - keep),
       truncated := true)
  }

  lemma TruncatedEntriesCompose(e: Entry, a: nat, b: nat)
    requires b <= a <= e.findings
    ensures TruncatedEntry(TruncatedEntry(e, a), b) == TruncatedEntry(e, b)
  {
    TruncationsCompose(e.normalized, a, b);
  }

  /** The findings that the first n entries retain. */
  function FindingsOf(entries: seq<Entry>, n: nat): nat
    requires n <= |entries|
  {
    if n == 0 then 0 else FindingsOf(entries, n - 1) + entries[n - 1].findings
  }

  function TotalFindings(entries: seq<Entry>): nat {
    FindingsOf(entries, |entries|)
  }

  // ----- the printed report -----

  function StringsJson(ss: seq<string>): Json {
    Arr(seq(|ss|, i requires 0 <= i < |ss| => Str(ss[i])))
  }

  function EntryJson(e: Entry): Json {
    Obj([Member("blocking_errors", StringsJson(e.blockingErrors)),
         Member("executed", Bool(e.executed)),
         Member("finding_count", Int(e.findings)),
         Member("normalized_result", Obj(e.normalized)),
         Member("omitted_finding_count", Int(e.omitted)),
         Member("risk_summary", e.riskSummary),
         Member("scanner_name", Str(e.scanner)),
         Member("status", Str(e.status)),
         Member("truncated", Bool(e.truncated)),
         Member("valid", Bool(e.valid)),
         Member("warnings", StringsJson(e.warnings))])
  }

  function ReportMembers(entries: seq<Entry>, status: string, limitations: seq<string>, generatedAt: string,
                         subject: Json, fingerprint: string): seq<Member> {
    [Member("entries", Arr(seq(|entries|, i requires 0 <= i < |entries| => EntryJson(entries[i])))),
     Member("execution_authorized", Bool(false)),
     Member("generated_at", Str(generatedAt)),
     Member("limitations", StringsJson(limitations)),
     Member("report_fingerprint", Str(fingerprint)),
     Member("report_kind", Str("real_scanner_suite")),
     Member("schema_version", Str("0.1-draft")),
     Member("subject", subject),
     Member("suite_status", Str(status))]
  }

  /** `_report_json_size`. */
  function ReportSize(entries: seq<Entry>, status: string, limitations: seq<string>, generatedAt: string,
                      subject: Json, fingerprint: string): nat {
    Size(Obj(ReportMembers(entries, status, limitations, generatedAt, subject, fingerprint)))
  }

  lemma TextReplaced(members: seq<Member>, k: nat, text: string, text': string)
    requires k < |members| && members[k].value == Str(text) && IsPlain(text) && IsPlain(text')
    ensures Size(Obj(members[k := Member(members[k].key, Str(text'))])) == Size(Obj(members)) + |text'| - |text|
  {
    SizeAfterReplacing(members, k, Str(text'));
    PlainIsNotEscaped(text);
    PlainIsNotEscaped(text');
  }

  /** Two reports that differ only in status, time and fingerprint differ in size by the lengths of those. */
  lemma ReportSizesCompare(entries: seq<Entry>, limitations: seq<string>, subject: Json, status: string, time: string,
                           fingerprint: string, status': string, time': string, fingerprint': string)
    requires IsPlain(status) && IsPlain(time) && IsPlain(fingerprint)
    requires IsPlain(status') && IsPlain(time') && IsPlain(fingerprint')
    ensures ReportSize(entries, status', limitations, time', subject, fingerprint') ==
            ReportSize(entries, status, limitations, time, subject, fingerprint)
            + (|status'| - |status|) + (|time'| - |time|) + (|fingerprint'| - |fingerprint|)
  {
    var first := ReportMembers(entries, status, limitations, time, subject, fingerprint);
    TextReplaced(first, 2, time, time');
    var second := first[2 := Member("generated_at", Str(time'))];
    TextReplaced(second, 4, fingerprint, fingerprint');
    var third := second[4 := Member("report_fingerprint", Str(fingerprint'))];
    TextReplaced(third, 8, status, status');
    assert ReportMembers(entries, status', limitations, time', subject, fingerprint') ==
           third[8 := Member("suite_status", Str(status'))];
  }

  /** `_subject_from_entries`. */
  function SubjectOf(entries: seq<Entry>): Json {
    if entries == [] then
      Obj([Member("dirty_state", Str("unknown")), Member("repo_commit", Null)])
    else
      var scope := MembersAt(entries[0].normalized, "input_scope");
      if scope == [] then SubjectOf(entries[1..])
      else
        var commit := Get(scope, "repo_commit");
        Obj([Member("dirty_state", TextAt(scope, "dirty_state")),
             Member("repo_commit", if commit.Some? then commit.value else Null)])
  }

  predicate CompletedWithoutDegradation(e: Entry) {
    e.valid && e.status == "completed" && FAMILY_WARNING !in e.warnings
  }

  function StatusText(degraded: bool): string {
    if degraded then "degraded" else "completed"
  }

  predicate SomeTruncated(entries: seq<Entry>) {
    exists e :: e in entries && e.truncated
  }

  predicate SomeDegraded(entries: seq<Entry>) {
    exists e :: e in entries && !CompletedWithoutDegradation(e)
  }
}
