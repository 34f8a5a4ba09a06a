/** The suite run itself: allocation of the finding budgets over the scanners, and the loop that drops findings one
    at a time until the printed report fits its byte budget. */
module ByteBudget {
  import opened Wrappers
  import opened Json
  import opened ScannerSuite

  // ----- dropping findings from the end -----

  /** The last of the first n entries that still retains a finding, or -1. */
  function LastBelow(entries: seq<Entry>, n: nat): (r: int)
    requires n <= |entries|
    ensures -1 <= r < n
    ensures r >= 0 ==> entries[r].findings > 0
    ensures forall j :: r < j < n ==> entries[j].findings == 0
  {
    if n == 0 then -1
    else if entries[n - 1].findings > 0 then n - 1
    else LastBelow(entries, n - 1)
  }

  function LastWithFindings(entries: seq<Entry>): int {
    LastBelow(entries, |entries|)
  }

  lemma {:induction false} FindingsAfterUpdate(entries: seq<Entry>, i: nat, e: Entry, n: nat)
    requires i < |entries| && n <= |entries|
    ensures FindingsOf(entries[i := e], n) ==
            FindingsOf(entries, n) + if i < n then e.findings - entries[i].findings else 0
    ensures i < n ==> entries[i].findings <= FindingsOf(entries, n)
  {
    if n > 0 {
      FindingsAfterUpdate(entries, i, e, n - 1);
    }
  }

  lemma {:induction false} NoFindingsBelow(entries: seq<Entry>, n: nat)
    requires n <= |entries|
    requires forall j :: 0 <= j < n ==> entries[j].findings == 0
    ensures FindingsOf(entries, n) == 0
  {
    if n > 0 {
      NoFindingsBelow(entries, n - 1);
    }
  }

  lemma TotalIsPositiveExactlyWhenDroppable(entries: seq<Entry>)
    ensures TotalFindings(entries) > 0 <==> LastWithFindings(entries) >= 0
  {
    var i := LastWithFindings(entries);
    if i >= 0 {
      FindingsAfterUpdate(entries, i, entries[i], |entries|);
    } else {
      NoFindingsBelow(entries, |entries|);
    }
  }

  /** One round of the byte-budget loop. */
  function DropOne(entries: seq<Entry>): (r: seq<Entry>)
    requires LastWithFindings(entries) >= 0
    ensures |r| == |entries|
  {
    var i := LastWithFindings(entries);
    entries[i := TruncatedEntry(entries[i], entries[i].findings - 1)]
  }

  /** The entries after k rounds. */
  function Dropped(entries: seq<Entry>, k: nat): (r: seq<Entry>)
    requires k <= TotalFindings(entries)
    ensures |r| == |entries|
    ensures TotalFindings(r) == TotalFindings(entries) - k
  {
    if k == 0 then entries
    else
      var before := Dropped(entries, k - 1);
      TotalIsPositiveExactlyWhenDroppable(before);
      var i := LastWithFindings(before);
      FindingsAfterUpdate(before, i, TruncatedEntry(before[i], before[i].findings - 1), |before|);
      DropOne(before)
  }

  lemma DropOneAt(entries: seq<Entry>, i: nat)
    requires LastWithFindings(entries) >= 0 && i < |entries|
    ensures DropOne(entries)[i] ==
            if i == LastWithFindings(entries) then TruncatedEntry(entries[i], entries[i].findings - 1) else entries[i]
  {
  }

  /** An entry that lost findings is a truncation of the original to what it retains. */
  predicate IsShortened(original: Entry, e: Entry) {
    e.findings < original.findings && e == TruncatedEntry(original, e.findings)
  }

  predicate IsUntouchedOrShortened(original: Entry, e: Entry) {
    e == original || IsShortened(original, e)
  }

  lemma ShorteningAgain(original: Entry, e: Entry)
    requires IsUntouchedOrShortened(original, e) && e.findings > 0
    ensures IsShortened(original, TruncatedEntry(e, e.findings - 1))
  {
    if e != original {
      TruncatedEntriesCompose(original, e.findings, e.findings - 1);
    }
  }

  lemma ShorteningConserves(original: Entry, e: Entry)
    requires IsUntouchedOrShortened(original, e)
    ensures e.findings + e.omitted == original.findings + original.omitted
    ensures e.scanner == original.scanner && e.status == original.status && e.valid == original.valid
    ensures e != original ==> e.truncated
  {
  }

  /** After any number of rounds, every entry is untouched or shortened. */
  lemma {:induction false} DroppedEntry(entries: seq<Entry>, k: nat, i: nat)
    requires k <= TotalFindings(entries) && i < |entries|
    ensures IsUntouchedOrShortened(entries[i], Dropped(entries, k)[i])
  {
    if k > 0 {
      DroppedEntry(entries, k - 1, i);
      var before := Dropped(entries, k - 1);
      TotalIsPositiveExactlyWhenDroppable(before);
      DropOneAt(before, i);
      if LastWithFindings(before) == i {
        ShorteningAgain(entries[i], before[i]);
      }
    }
  }

  /** Only a suffix is touched: after a touched entry nothing is retained. */
  lemma {:induction false} OnlySuffixIsTouched(entries: seq<Entry>, k: nat, i: nat, j: nat)
    requires k <= TotalFindings(entries) && i < j < |entries|
    ensures Dropped(entries, k)[i] != entries[i] ==> Dropped(entries, k)[j].findings == 0
  {
    if k > 0 {
      OnlySuffixIsTouched(entries, k - 1, i, j);
      TotalIsPositiveExactlyWhenDroppable(Dropped(entries, k - 1));
    }
  }

  /** What the byte budget does to the entries, whatever the number of rounds: each keeps its scanner and verdict and
      the sum of its retained and omitted findings, and is untouched or truncated to what it retains; and if one is
      touched, all later ones retain nothing. */
  lemma DroppingIsSuffixTruncation(entries: seq<Entry>, k: nat)
    requires k <= TotalFindings(entries)
    ensures var d := Dropped(entries, k);
            && |d| == |entries|
            && TotalFindings(d) == TotalFindings(entries) - k
            && (forall i :: 0 <= i < |d| ==>
                  && IsUntouchedOrShortened(entries[i], d[i])
                  && d[i].findings + d[i].omitted == entries[i].findings + entries[i].omitted)
            && (forall i, j :: 0 <= i < j < |d| && d[i] != entries[i] ==> d[j].findings == 0)
  {
    var d := Dropped(entries, k);
    forall i | 0 <= i < |d|
      ensures IsUntouchedOrShortened(entries[i], d[i])
              && d[i].findings + d[i].omitted == entries[i].findings + entries[i].omitted
    {
      DroppedEntry(entries, k, i);
      ShorteningConserves(entries[i], d[i]);
    }
    forall i, j | 0 <= i < j < |d| && d[i] != entries[i] ensures d[j].findings == 0 {
      OnlySuffixIsTouched(entries, k, i, j);
    }
  }

  // ----- the byte-budget loop -----

  const BYTE_LIMITATIONS := ["report_byte_budget_exceeded", "report_truncated"]

  function Dedupe(ss: seq<string>): (r: seq<string>)
    ensures forall s :: s in r <==> s in ss
  {
    if ss == [] then []
    else
      var front := Dedupe(ss[..|ss| - 1]);
      if ss[|ss| - 1] in front then front else front + [ss[|ss| - 1]]
  }

  /** What the loop does when no finding is left to drop. */
  function MarkFirst(entries: seq<Entry>): seq<Entry> {
    if entries == [] then []
    else entries[0 := entries[0].(warnings := Dedupe(entries[0].warnings + [BYTE_WARNING]), truncated := true)]
  }

  /** The printed size of a report with these entries, degraded or not, and with the two byte limitations or not. */
  type Measure = (seq<Entry>, bool, bool) -> nat

  /** The size the loop measures after k rounds over entries that were, or were not, degraded to begin with. */
  function SizeAfter(entries: seq<Entry>, degraded: bool, k: nat, size: Measure): nat
    requires k <= TotalFindings(entries)
  {
    size(Dropped(entries, k), k > 0 || degraded, true)
  }

  /** The report does not fit after any number of rounds below n. */
  predicate TooBigBelow(entries: seq<Entry>, degraded: bool, n: nat, maxBytes: int, size: Measure)
    requires n <= TotalFindings(entries) + 1
  {
    n == 0
    || (TooBigBelow(entries, degraded, n - 1, maxBytes, size)
        && SizeAfter(entries, degraded, n - 1, size) > maxBytes)
  }

  lemma {:induction false} TooBigAt(entries: seq<Entry>, degraded: bool, n: nat, maxBytes: int, size: Measure, k: nat)
    requires k < n <= TotalFindings(entries) + 1 && TooBigBelow(entries, degraded, n, maxBytes, size)
    ensures SizeAfter(entries, degraded, k, size) > maxBytes
  {
    if k < n - 1 {
      TooBigAt(entries, degraded, n - 1, maxBytes, size, k);
    }
  }

  /** The least number of rounds after which the report fits, or all of them if it never does. */
  predicate IsLeastFit(entries: seq<Entry>, degraded: bool, rounds: nat, maxBytes: int, size: Measure) {
    && rounds <= TotalFindings(entries)
    && TooBigBelow(entries, degraded, rounds, maxBytes, size)
    && (SizeAfter(entries, degraded, rounds, size) <= maxBytes || rounds == TotalFindings(entries))
  }

  /** One more round is needed and possible. */
  lemma OneMoreRound(entries: seq<Entry>, degraded: bool, rounds: nat, maxBytes: int, size: Measure)
    requires rounds <= TotalFindings(entries) && TooBigBelow(entries, degraded, rounds, maxBytes, size)
    requires SizeAfter(entries, degraded, rounds, size) > maxBytes
    ensures TooBigBelow(entries, degraded, rounds + 1, maxBytes, size)
    ensures LastWithFindings(Dropped(entries, rounds)) >= 0 <==> rounds < TotalFindings(entries)
    ensures rounds < TotalFindings(entries) ==> Dropped(entries, rounds + 1) == DropOne(Dropped(entries, rounds))
  {
    TotalIsPositiveExactlyWhenDroppable(Dropped(entries, rounds));
  }

  /** One round: a finding is dropped, or, if none is left, the first entry is marked. */
  method DropOrMark(entries: seq<Entry>) returns (droppable: bool, r: seq<Entry>)
    ensures droppable <==> LastWithFindings(entries) >= 0
    ensures r == if droppable then DropOne(entries) else MarkFirst(entries)
  {
    droppable := LastWithFindings(entries) >= 0;
    r := if droppable then DropOne(entries) else MarkFirst(entries);
  }

  /** The rounds of the loop: they stop at the first fit. */
  method DropUntilFit(entries: seq<Entry>, startDegraded: bool, maxBytes: int, size: Measure)
    returns (r: seq<Entry>, rounds: nat)
    ensures IsLeastFit(entries, startDegraded, rounds, maxBytes, size)
    ensures r == if SizeAfter(entries, startDegraded, rounds, size) <= maxBytes then Dropped(entries, rounds)
                 else MarkFirst(Dropped(entries, rounds))
  {
    var degraded := startDegraded;
    r, rounds := entries, 0;
    while size(r, degraded, true) > maxBytes
      invariant rounds <= TotalFindings(entries) && r == Dropped(entries, rounds)
      invariant degraded == (rounds > 0 || startDegraded)
      invariant TooBigBelow(entries, startDegraded, rounds, maxBytes, size)
      decreases TotalFindings(entries) - rounds
    {
      OneMoreRound(entries, startDegraded, rounds, maxBytes, size);
      var droppable;
      droppable, r := DropOrMark(r);
      if !droppable {
        break;
      }
      rounds := rounds + 1;
      degraded := true;
    }
  }

  /** If the report fits as it is, nothing changes. Otherwise the least number of findings is dropped from the end
      such that it fits with the two byte limitations, or every finding is dropped and the first entry is marked. */
  method ApplyReportByteBudget(entries: seq<Entry>, maxBytes: int, size: Measure)
    returns (r: seq<Entry>, exceeded: bool, rounds: nat)
    ensures var degraded := SomeDegraded(entries) || SomeTruncated(entries);
            && (exceeded <==> size(entries, degraded, false) > maxBytes)
            && (!exceeded ==> r == entries && rounds == 0)
            && (exceeded ==>
                  && IsLeastFit(entries, degraded, rounds, maxBytes, size)
                  && r == if SizeAfter(entries, degraded, rounds, size) <= maxBytes then Dropped(entries, rounds)
                          else MarkFirst(Dropped(entries, rounds)))
  {
    var degraded := SomeDegraded(entries);
    if SomeTruncated(entries) {
      degraded := true;
    }
    if size(entries, degraded, false) <= maxBytes {
      return entries, false, 0;
    }
    exceeded := true;
    r, rounds := DropUntilFit(entries, degraded, maxBytes, size);
  }

  // ----- allocation of the finding budgets -----

  predicate NeedsNetwork(scanner: string) {
    scanner == "osv-scanner" || scanner == "trivy"
  }

  predicate IsKnownScanner(scanner: string) {
    scanner == "gitleaks" || NeedsNetwork(scanner)
  }

  predicate Ran(scanner: string, offline: bool, outcome: ScanOutcome) {
    !(offline && NeedsNetwork(scanner)) && outcome.ScanResult?
  }

  /** The placeholder results of scanners that did not run: by name, and whether they were skipped offline. */
  type Placeholders = (string, bool) -> seq<Member>

  function EntryFor(scanner: string, offline: bool, outcome: ScanOutcome, placeholders: Placeholders, allowed: nat)
    : Entry
  {
    if Ran(scanner, offline, outcome) then EntryFromResult(scanner, outcome, allowed)
    else
      var skipped := offline && NeedsNetwork(scanner);
      EntryWithoutResult(scanner, skipped, placeholders(scanner, skipped))
  }

  /** The entry of the i-th scanner under an allowance. */
  type EntryMaker = (nat, nat) -> Entry

  /** An entry never retains more than its allowance. */
  predicate IsFrugal(make: EntryMaker, n: nat, maxPer: nat) {
    forall i, allowed :: 0 <= i < n && 0 <= allowed <= maxPer ==> make(i, allowed).findings <= allowed
  }

  function Allowance(maxPer: nat, maxAll: nat, used: nat): nat {
    Min(maxPer, Max(0, maxAll - used))
  }

  /** The entries of the first n scanners, each given what its predecessors left. */
  function Allocated(n: nat, make: EntryMaker, maxPer: nat, maxAll: nat): (r: seq<Entry>)
    ensures |r| == n
  {
    if n == 0 then []
    else
      var before := Allocated(n - 1, make, maxPer, maxAll);
      before + [make(n - 1, Allowance(maxPer, maxAll, TotalFindings(before)))]
  }

  lemma {:induction false} FindingsOfPrefix(entries: seq<Entry>, prefix: seq<Entry>, n: nat)
    requires n <= |prefix| && prefix <= entries
    ensures FindingsOf(entries, n) == FindingsOf(prefix, n)
  {
    if n > 0 {
      FindingsOfPrefix(entries, prefix, n - 1);
    }
  }

  /** All scanners together stay within the suite's budget, and each within its own. */
  lemma {:induction false} AllocationWithinBudgets(n: nat, make: EntryMaker, maxPer: nat, maxAll: nat)
    requires IsFrugal(make, n, maxPer)
    ensures TotalFindings(Allocated(n, make, maxPer, maxAll)) <= maxAll
    ensures forall i :: 0 <= i < n ==> Allocated(n, make, maxPer, maxAll)[i].findings <= maxPer
  {
    if n > 0 {
      AllocationWithinBudgets(n - 1, make, maxPer, maxAll);
      var before := Allocated(n - 1, make, maxPer, maxAll);
      var allowed := Allowance(maxPer, maxAll, TotalFindings(before));
      assert make(n - 1, allowed).findings <= allowed;
      FindingsOfPrefix(Allocated(n, make, maxPer, maxAll), before, n - 1);
    }
  }

  /** The i-th entry depends on the earlier scanners only through what they left. */
  lemma {:induction false} AllocatedAt(n: nat, make: EntryMaker, maxPer: nat, maxAll: nat, i: nat)
    requires i < n
    ensures Allocated(n, make, maxPer, maxAll)[i] ==
            make(i, Allowance(maxPer, maxAll, TotalFindings(Allocated(i, make, maxPer, maxAll))))
  {
    if i < n - 1 {
      AllocatedAt(n - 1, make, maxPer, maxAll, i);
    }
  }

  /** An entry that the byte budget may truncate is bounded already. */
  predicate IsBounded(e: Entry) {
    e.findings > 0 ==> BoundedMembers(e.normalized) == e.normalized
  }

  lemma EntryForFacts(scanner: string, offline: bool, outcome: ScanOutcome, placeholders: Placeholders, allowed: nat)
    ensures var e := EntryFor(scanner, offline, outcome, placeholders, allowed);
            && e.scanner == scanner && e.findings <= allowed
            && (e.truncated <==> e.omitted > 0)
            && IsBounded(e)
            && (e.valid && e.status == "completed" && e.omitted == 0 ==>
                  Ran(scanner, offline, outcome) && outcome.valid && FindingCount(outcome.normalized) <= allowed)
            && (Ran(scanner, offline, outcome) ==>
                  (e.omitted > 0 <==> FindingCount(outcome.normalized) > allowed))
            && (!Ran(scanner, offline, outcome) ==> e.omitted == 0)
  {
    if Ran(scanner, offline, outcome) {
      EntryAccountsForAllFindings(scanner, outcome, allowed);
      var bounded := BoundedMembers(outcome.normalized);
      TruncationsCompose(bounded, Min(FindingCount(bounded), allowed), 0);
    }
  }

  // ----- the subject survives the byte budget -----

  lemma ScopeOfTruncated(members: seq<Member>, keep: nat)
    requires BoundedMembers(members) == members
    ensures MembersAt(Truncated(members, keep), "input_scope") == MembersAt(members, "input_scope")
  {
    GetOfTruncated(members, keep, "input_scope");
    GetOfBounded(members, "input_scope");
  }

  lemma {:induction false} SubjectIsPreserved(entries: seq<Entry>, after: seq<Entry>)
    requires |after| == |entries|
    requires forall i :: 0 <= i < |entries| ==>
               MembersAt(after[i].normalized, "input_scope") == MembersAt(entries[i].normalized, "input_scope")
    ensures SubjectOf(after) == SubjectOf(entries)
  {
    if entries != [] {
      SubjectIsPreserved(entries[1..], after[1..]);
    }
  }

  lemma SubjectSurvivesDropping(entries: seq<Entry>, k: nat)
    requires k <= TotalFindings(entries)
    requires forall e :: e in entries ==> IsBounded(e)
    ensures SubjectOf(Dropped(entries, k)) == SubjectOf(entries)
    ensures SubjectOf(MarkFirst(Dropped(entries, k))) == SubjectOf(entries)
  {
    var d := Dropped(entries, k);
    forall i | 0 <= i < |entries|
      ensures MembersAt(d[i].normalized, "input_scope") == MembersAt(entries[i].normalized, "input_scope")
    {
      DroppedEntry(entries, k, i);
      if d[i] != entries[i] {
        assert d[i].normalized == Truncated(entries[i].normalized, d[i].findings);
        assert IsBounded(entries[i]);
        ScopeOfTruncated(entries[i].normalized, d[i].findings);
      }
    }
    SubjectIsPreserved(entries, d);
    SubjectIsPreserved(entries, MarkFirst(d));
  }

  // ----- the suite -----

  /** What the microseconds of a time add to its text. Without them it is as long as the placeholder. */
  const MICROSECONDS_LENGTH := 7

  type TimestampText =
    s: string | IsPlain(s) && (|s| == |PLACEHOLDER_TIME| || |s| == |PLACEHOLDER_TIME| + MICROSECONDS_LENGTH)
    witness PLACEHOLDER_TIME

  type FingerprintText = s: string | IsPlain(s) && |s| == |PLACEHOLDER_FINGERPRINT| witness PLACEHOLDER_FINGERPRINT

  const SUITE_LIMITATIONS := [
    "real_scanner_execution_is_explicit_not_default_cli",
    "scanner_unavailable_is_fail_closed_not_pass",
    "no_findings_not_safety_proof",
    "raw_scanner_output_not_retained",
    "network_cache_and_privacy_limitations_apply"]

  datatype Report = Report(
    degraded: bool,
    entries: seq<Entry>,
    limitations: seq<string>,
    generatedAt: TimestampText,
    subject: Json,
    fingerprint: FingerprintText)

  /** The printed size of the report. */
  function PrintedSize(r: Report): nat {
    ReportSize(r.entries, StatusText(r.degraded), r.limitations, r.generatedAt, r.subject, r.fingerprint)
  }

  datatype SuiteError = UnknownScanner | BadBudget

  /** The request: which scanners, in which order, with which outcomes of their adapters. */
  datatype Request = Request(
    scanners: seq<string>,
    offline: bool,
    outcomes: seq<ScanOutcome>,
    placeholders: Placeholders,
    maxPer: int,
    maxAll: int,
    maxBytes: int)

  function MakerOf(q: Request): EntryMaker {
    (i: nat, allowed: nat) =>
      if i < |q.scanners| && i < |q.outcomes| then
        EntryFor(q.scanners[i], q.offline, q.outcomes[i], q.placeholders, allowed)
      else EntryWithoutResult("", false, [])
  }

  lemma MakerIsFrugal(q: Request, n: nat, maxPer: nat)
    requires n <= |q.scanners| == |q.outcomes|
    ensures IsFrugal(MakerOf(q), n, maxPer)
  {
    forall i, allowed | 0 <= i < n && 0 <= allowed <= maxPer
      ensures MakerOf(q)(i, allowed).findings <= allowed
    {
      EntryForFacts(q.scanners[i], q.offline, q.outcomes[i], q.placeholders, allowed);
    }
  }

  /** The entry of the i-th scanner before the byte budget. */
  predicate IsEntryOf(q: Request, i: nat, e: Entry)
    requires i < |q.scanners| == |q.outcomes|
  {
    exists allowed: nat ::
      allowed <= q.maxPer && e == EntryFor(q.scanners[i], q.offline, q.outcomes[i], q.placeholders, allowed)
  }
}
