/** One run of the scanner suite, from the requested scanners to the finished report. */
module SuiteRun {
  import opened Wrappers
  import opened Json
  import opened ScannerSuite
  import opened ByteBudget

  function MeasureOf(limitations: seq<string>, subject: Json): Measure {
    (entries: seq<Entry>, degraded: bool, marked: bool) =>
      ReportSize(entries, StatusText(degraded), if marked then limitations + BYTE_LIMITATIONS else limitations,
                 PLACEHOLDER_TIME, subject, PLACEHOLDER_FINGERPRINT)
  }

  lemma SizesCompare(entries: seq<Entry>, limitations: seq<string>, subject: Json, degraded: bool, time: TimestampText,
                     fingerprint: FingerprintText, degraded': bool, time': TimestampText, fingerprint': FingerprintText)
    ensures ReportSize(entries, StatusText(degraded'), limitations, time', subject, fingerprint') ==
            ReportSize(entries, StatusText(degraded), limitations, time, subject, fingerprint) + |time'| - |time|
            + |StatusText(degraded')| - |StatusText(degraded)|
  {
    assert IsPlain(StatusText(degraded)) && IsPlain(StatusText(degraded'));
    ReportSizesCompare(entries, limitations, subject, StatusText(degraded), time, fingerprint,
                       StatusText(degraded'), time', fingerprint');
  }

  /** The placeholders under-measure the finished report by no more than the excess of its timestamp. */
  lemma FinishedSize(entries: seq<Entry>, limitations: seq<string>, subject: Json, degraded: bool, finally: bool,
                     marked: bool, now: TimestampText, fingerprint: FingerprintText)
    requires degraded ==> finally
    ensures ReportSize(entries, StatusText(finally), if marked then limitations + BYTE_LIMITATIONS else limitations,
                       now, subject, fingerprint) <=
            MeasureOf(limitations, subject)(entries, degraded, marked) + |now| - |PLACEHOLDER_TIME|
  {
    SizesCompare(entries, if marked then limitations + BYTE_LIMITATIONS else limitations, subject,
                 degraded, PLACEHOLDER_TIME, PLACEHOLDER_FINGERPRINT, finally, now, fingerprint);
  }

  /** The entries as the budgets granted them. */
  function Granted(q: Request): seq<Entry>
    requires q.maxPer > 0 && q.maxAll > 0
  {
    Allocated(|q.scanners|, MakerOf(q), q.maxPer, q.maxAll)
  }

  /** The i-th scanner found more than each may keep. */
  predicate ExceedsOwn(q: Request, i: nat)
    requires i < |q.scanners| == |q.outcomes|
  {
    Ran(q.scanners[i], q.offline, q.outcomes[i]) && FindingCount(q.outcomes[i].normalized) > q.maxPer
  }

  /** The i-th scanner found more than the scanners before it left. */
  predicate ExceedsRest(q: Request, i: nat)
    requires i < |q.scanners| == |q.outcomes| && q.maxPer > 0 && q.maxAll > 0
  {
    Ran(q.scanners[i], q.offline, q.outcomes[i])
    && FindingCount(q.outcomes[i].normalized) >
         Max(0, q.maxAll - TotalFindings(Allocated(i, MakerOf(q), q.maxPer, q.maxAll)))
  }

  predicate SomeExceedsOwn(q: Request, n: nat)
    requires n <= |q.scanners| == |q.outcomes|
  {
    n > 0 && (SomeExceedsOwn(q, n - 1) || ExceedsOwn(q, n - 1))
  }

  predicate SomeExceedsRest(q: Request, n: nat)
    requires n <= |q.scanners| == |q.outcomes| && q.maxPer > 0 && q.maxAll > 0
  {
    n > 0 && (SomeExceedsRest(q, n - 1) || ExceedsRest(q, n - 1))
  }

  function Added(limitations: seq<string>, condition: bool, limitation: string): seq<string> {
    if condition then limitations + [limitation] else limitations
  }

  /** The limitations of the report before the byte budget. */
  function BaseLimitations(q: Request): seq<string>
    requires |q.outcomes| == |q.scanners| && q.maxPer > 0 && q.maxAll > 0
  {
    var own := Added(SUITE_LIMITATIONS, SomeExceedsOwn(q, |q.scanners|), "per_scanner_finding_budget_exceeded");
    var all := Added(own, SomeExceedsRest(q, |q.scanners|), "suite_finding_budget_exceeded");
    var degraded := Added(all, SomeDegraded(Granted(q)), "suite_degraded_requires_review");
    Added(degraded, q.offline && exists e :: e in Granted(q) && e.status == "skipped_offline",
          "offline_network_scanners_skipped")
  }

  /** The entry of the i-th scanner when `used` findings are taken, and which budget, if any, cut it. */
  method ScanOne(q: Request, i: nat, used: nat) returns (entry: Entry, overPer: bool, overSuite: bool)
    requires i < |q.scanners| == |q.outcomes| && q.maxPer > 0 && q.maxAll > 0
    requires used == TotalFindings(Allocated(i, MakerOf(q), q.maxPer, q.maxAll))
    ensures entry == MakerOf(q)(i, Allowance(q.maxPer, q.maxAll, used))
    ensures entry.truncated <==> overPer || overSuite
    ensures overPer == ExceedsOwn(q, i) && overSuite == ExceedsRest(q, i)
  {
    var scanner, outcome := q.scanners[i], q.outcomes[i];
    overPer, overSuite := false, false;
    if q.offline && NeedsNetwork(scanner) {
      entry := EntryWithoutResult(scanner, true, q.placeholders(scanner, true));
    } else if outcome.AdapterRaised? {
      entry := EntryWithoutResult(scanner, false, q.placeholders(scanner, false));
    } else {
      var original := FindingCount(outcome.normalized);
      var remaining := Max(0, q.maxAll - used);
      overPer, overSuite := original > q.maxPer, original > remaining;
      entry := EntryFromResult(scanner, outcome, Min(q.maxPer, remaining));
    }
    EntryForFacts(scanner, q.offline, outcome, q.placeholders, Allowance(q.maxPer, q.maxAll, used));
  }

  lemma AllocationStep(i: nat, make: EntryMaker, maxPer: nat, maxAll: nat, entry: Entry)
    requires entry == make(i, Allowance(maxPer, maxAll, TotalFindings(Allocated(i, make, maxPer, maxAll))))
    ensures var entries := Allocated(i, make, maxPer, maxAll);
            && Allocated(i + 1, make, maxPer, maxAll) == entries + [entry]
            && TotalFindings(entries + [entry]) == TotalFindings(entries) + entry.findings
            && (SomeTruncated(entries + [entry]) <==> SomeTruncated(entries) || entry.truncated)
  {
    var entries := Allocated(i, make, maxPer, maxAll);
    FindingsOfPrefix(entries + [entry], entries, i);
    if SomeTruncated(entries) {
      var t :| t in entries && t.truncated;
      assert t in entries + [entry];
    }
    assert entry in entries + [entry];
  }

  /** The allocation loop. A budget flag is set exactly when some entry is truncated. */
  method AllocateBudgets(q: Request) returns (entries: seq<Entry>, perExceeded: bool, suiteExceeded: bool)
    requires |q.outcomes| == |q.scanners| && q.maxPer > 0 && q.maxAll > 0
    ensures entries == Granted(q)
    ensures perExceeded || suiteExceeded <==> SomeTruncated(entries)
    ensures perExceeded <==> SomeExceedsOwn(q, |q.scanners|)
    ensures suiteExceeded <==> SomeExceedsRest(q, |q.scanners|)
  {
    entries, perExceeded, suiteExceeded := [], false, false;
    var used := 0;
    for i := 0 to |q.scanners|
      invariant entries == Allocated(i, MakerOf(q), q.maxPer, q.maxAll)
      invariant used == TotalFindings(entries)
      invariant perExceeded || suiteExceeded <==> SomeTruncated(entries)
      invariant perExceeded == SomeExceedsOwn(q, i) && suiteExceeded == SomeExceedsRest(q, i)
    {
      var entry, overPer, overSuite := ScanOne(q, i, used);
      AllocationStep(i, MakerOf(q), q.maxPer, q.maxAll, entry);
      perExceeded := perExceeded || overPer;
      suiteExceeded := suiteExceeded || overSuite;
      entries := entries + [entry];
      used := used + entry.findings;
    }
  }

  /** Nothing was left out of this entry: its scanner ran, its result is valid, and no budget cut it. */
  predicate IsWhole(e: Entry) {
    e.valid && e.status == "completed" && !e.truncated && e.omitted == 0
  }

  predicate IsMarkedTruncated(limitations: seq<string>) {
    "report_truncated" in limitations || "report_byte_budget_exceeded" in limitations
  }

  /** Entry e of the finished report is what the i-th scanner gave, less what the budgets took from it: retained and
      omitted findings add up to what the scanner's own entry accounted for, and an entry that looks whole is the
      untouched entry of a scanner that ran, is valid and kept within its budget. */
  ghost predicate EntryIsAccountedFor(q: Request, i: nat, e: Entry)
    requires i < |q.scanners| == |q.outcomes|
  {
    && e.scanner == q.scanners[i]
    && e.findings <= q.maxPer
    && (exists original ::
          && IsEntryOf(q, i, original)
          && e.findings + e.omitted == original.findings + original.omitted
          && (IsWhole(e) ==> e == original))
    && (IsWhole(e) ==>
          && Ran(q.scanners[i], q.offline, q.outcomes[i])
          && q.outcomes[i].valid
          && FindingCount(q.outcomes[i].normalized) <= q.maxPer)
  }

  /** The byte budget took from the report no more than it had to. If the granted entries fit, they are the report's;
      otherwise the least number of findings was dropped that makes it fit, or all of them. */
  predicate IsMinimalCut(q: Request, r: Report, rounds: nat)
    requires |q.outcomes| == |q.scanners| && q.maxPer > 0 && q.maxAll > 0
  {
    var before, granted := BaseLimitations(q), Granted(q);
    var size := MeasureOf(before, SubjectOf(granted));
    var degraded := SomeDegraded(granted) || SomeTruncated(granted);
    if size(granted, degraded, false) <= q.maxBytes then r.entries == granted && r.limitations == before
       else
         && IsLeastFit(granted, degraded, rounds, q.maxBytes, size)
         && r.limitations == before + BYTE_LIMITATIONS
         && r.entries == if SizeAfter(granted, degraded, rounds, size) <= q.maxBytes then Dropped(granted, rounds)
                         else MarkFirst(Dropped(granted, rounds))
  }

  /** Status and subject are those of the entries as they are in the end. */
  predicate IsConsistent(q: Request, r: Report)
    requires |q.outcomes| == |q.scanners| && q.maxPer > 0 && q.maxAll > 0
  {
    && r.subject == SubjectOf(r.entries)
    && r.degraded == (SomeDegraded(Granted(q)) || IsMarkedTruncated(r.limitations) || SomeTruncated(r.entries))
  }

  /** The report without its fingerprint. */
  function Unsigned(r: Report): Json {
    var members := ReportMembers(r.entries, StatusText(r.degraded), r.limitations, r.generatedAt, r.subject,
                                 PLACEHOLDER_FINGERPRINT);
    Obj(members[..4] + members[5..])
  }

  /** The fingerprint is that of everything else in the report. */
  predicate IsSigned(r: Report, digest: Json -> FingerprintText) {
    r.fingerprint == digest(Unsigned(r))
  }

  ghost predicate ReportOk(q: Request, r: Report)
    requires |q.outcomes| == |q.scanners|
  {
    && q.maxPer > 0 && q.maxAll > 0
    && IsConsistent(q, r)
    && (exists rounds :: IsMinimalCut(q, r, rounds))
    && |r.entries| == |q.scanners|
    && (forall i :: 0 <= i < |r.entries| ==> EntryIsAccountedFor(q, i, r.entries[i]))
    && TotalFindings(r.entries) <= q.maxAll
    && (PrintedSize(r) <= q.maxBytes + |r.generatedAt| - |PLACEHOLDER_TIME|
        || (TotalFindings(r.entries) == 0 && IsMarkedTruncated(r.limitations)))
  }

  /** An entry after the byte budget, given the entry before it. */
  lemma AfterByteBudget(q: Request, i: nat, original: Entry, e: Entry)
    requires i < |q.scanners| == |q.outcomes|
    requires IsEntryOf(q, i, original)
    requires e.scanner == original.scanner && e.valid == original.valid && e.status == original.status
    requires e.findings + e.omitted == original.findings + original.omitted && e.findings <= original.findings
    requires e != original ==> e.truncated
    ensures EntryIsAccountedFor(q, i, e)
  {
    var allowed: nat :| allowed <= q.maxPer
      && original == EntryFor(q.scanners[i], q.offline, q.outcomes[i], q.placeholders, allowed);
    EntryForFacts(q.scanners[i], q.offline, q.outcomes[i], q.placeholders, allowed);
  }

  /** The entries before and after the byte budget, which may also have marked the first. */
  predicate IsCutOf(entries: seq<Entry>, rounds: nat, r: seq<Entry>) {
    rounds <= TotalFindings(entries)
    && (r == Dropped(entries, rounds) || r == MarkFirst(Dropped(entries, rounds)))
  }

  lemma {:induction false} MarkingKeepsFindings(entries: seq<Entry>, n: nat)
    requires n <= |entries|
    ensures FindingsOf(MarkFirst(entries), n) == FindingsOf(entries, n)
  {
    if n > 0 {
      MarkingKeepsFindings(entries, n - 1);
    }
  }

  lemma GrantedAt(q: Request, i: nat)
    requires i < |q.outcomes| == |q.scanners| && q.maxPer > 0 && q.maxAll > 0
    ensures IsEntryOf(q, i, Granted(q)[i]) && IsBounded(Granted(q)[i])
  {
    var make := MakerOf(q);
    var allowed := Allowance(q.maxPer, q.maxAll, TotalFindings(Allocated(i, make, q.maxPer, q.maxAll)));
    AllocatedAt(|q.scanners|, make, q.maxPer, q.maxAll, i);
    EntryForFacts(q.scanners[i], q.offline, q.outcomes[i], q.placeholders, allowed);
  }

  lemma CutEntryIsAccountedFor(q: Request, rounds: nat, r: seq<Entry>, i: nat)
    requires i < |q.outcomes| == |q.scanners| && q.maxPer > 0 && q.maxAll > 0
    requires IsCutOf(Granted(q), rounds, r)
    ensures |r| == |q.scanners| && EntryIsAccountedFor(q, i, r[i])
  {
    var original, dropped := Granted(q)[i], Dropped(Granted(q), rounds)[i];
    GrantedAt(q, i);
    DroppedEntry(Granted(q), rounds, i);
    ShorteningConserves(original, dropped);
    AfterByteBudget(q, i, original, r[i]);
  }

  lemma CutEntriesFitBudgets(q: Request, rounds: nat, r: seq<Entry>)
    requires |q.outcomes| == |q.scanners| && q.maxPer > 0 && q.maxAll > 0
    requires IsCutOf(Granted(q), rounds, r)
    ensures TotalFindings(r) == TotalFindings(Granted(q)) - rounds <= q.maxAll
    ensures SubjectOf(r) == SubjectOf(Granted(q))
  {
    MakerIsFrugal(q, |q.scanners|, q.maxPer);
    AllocationWithinBudgets(|q.scanners|, MakerOf(q), q.maxPer, q.maxAll);
    MarkingKeepsFindings(Dropped(Granted(q), rounds), |r|);
    forall i | 0 <= i < |q.scanners| ensures IsBounded(Granted(q)[i]) {
      GrantedAt(q, i);
    }
    SubjectSurvivesDropping(Granted(q), rounds);
  }

  /** A report over cut entries is well accounted for if it fits, or everything was dropped and said so. */
  lemma ReportIsOk(q: Request, r: Report, rounds: nat)
    requires |q.outcomes| == |q.scanners| && q.maxPer > 0 && q.maxAll > 0
    requires IsCutOf(Granted(q), rounds, r.entries) && IsMinimalCut(q, r, rounds)
    requires PrintedSize(r) <= q.maxBytes + |r.generatedAt| - |PLACEHOLDER_TIME|
             || (rounds == TotalFindings(Granted(q)) && IsMarkedTruncated(r.limitations))
    requires IsConsistent(q, r)
    ensures ReportOk(q, r)
  {
    CutEntriesFitBudgets(q, rounds, r.entries);
    forall i | 0 <= i < |q.scanners| ensures |r.entries| == |q.scanners| && EntryIsAccountedFor(q, i, r.entries[i]) {
      CutEntryIsAccountedFor(q, rounds, r.entries, i);
    }
  }

  /** A report exceeds its byte budget by no more than the microseconds of its time, unless it holds no finding and says
      so. */
  lemma ReportExceedsByMicrosecondsOnly(q: Request, r: Report)
    requires |q.outcomes| == |q.scanners| && ReportOk(q, r)
    ensures PrintedSize(r) <= q.maxBytes + MICROSECONDS_LENGTH
            || (TotalFindings(r.entries) == 0 && r.degraded && IsMarkedTruncated(r.limitations))
  {
  }

  /** The size of the report before the byte budget, as it is measured. */
  function UncutSize(q: Request): nat
    requires |q.outcomes| == |q.scanners| && q.maxPer > 0 && q.maxAll > 0
  {
    MeasureOf(BaseLimitations(q), SubjectOf(Granted(q)))(Granted(q), SomeDegraded(Granted(q)), false)
  }

  lemma UncutReportIsGranted(q: Request, r: Report)
    requires |q.outcomes| == |q.scanners| && ReportOk(q, r)
    requires !IsMarkedTruncated(r.limitations) && !SomeTruncated(r.entries)
    ensures UncutSize(q) <= q.maxBytes
    ensures r.entries == Granted(q) && r.limitations == BaseLimitations(q)
    ensures r.degraded == SomeDegraded(Granted(q)) && r.subject == SubjectOf(Granted(q))
  {
    ByteLimitationsMark(BaseLimitations(q));
    var rounds :| IsMinimalCut(q, r, rounds);
  }

  lemma SizeFromMeasure(r: Report, size: Measure, time: TimestampText, fingerprint: FingerprintText)
    requires size(r.entries, r.degraded, false) ==
             ReportSize(r.entries, StatusText(r.degraded), r.limitations, time, r.subject, fingerprint)
    ensures PrintedSize(r) == size(r.entries, r.degraded, false) + |r.generatedAt| - |time|
  {
    SizesCompare(r.entries, r.limitations, r.subject, r.degraded, time, fingerprint, r.degraded, r.generatedAt,
                 r.fingerprint);
  }

  lemma MeasuredExactly(r: Report)
    ensures PrintedSize(r) ==
            MeasureOf(r.limitations, r.subject)(r.entries, r.degraded, false) + |r.generatedAt| - |PLACEHOLDER_TIME|
  {
    SizeFromMeasure(r, MeasureOf(r.limitations, r.subject), PLACEHOLDER_TIME, PLACEHOLDER_FINGERPRINT);
  }

  /** A report that was not cut is larger than it was measured by exactly the excess of its time. */
  lemma UncutReportSize(q: Request, r: Report)
    requires |q.outcomes| == |q.scanners| && ReportOk(q, r)
    requires !IsMarkedTruncated(r.limitations) && !SomeTruncated(r.entries)
    ensures UncutSize(q) <= q.maxBytes
    ensures PrintedSize(r) == UncutSize(q) + |r.generatedAt| - |PLACEHOLDER_TIME|
  {
    UncutReportIsGranted(q, r);
    MeasuredExactly(r);
  }

  /** If no finding budget cut anything and the entries fit as measured, the report is not cut. */
  lemma FittingReportIsUncut(q: Request, r: Report)
    requires |q.outcomes| == |q.scanners| && ReportOk(q, r)
    requires !SomeTruncated(Granted(q)) && UncutSize(q) <= q.maxBytes
    ensures r.entries == Granted(q) && !IsMarkedTruncated(r.limitations)
  {
    BaseLimitationsName(q);
    var rounds :| IsMinimalCut(q, r, rounds);
  }

  /** A suite without scanners, whose byte budget is what its report measures. */
  function EmptySuite(placeholders: Placeholders): Request {
    Request([], false, [], placeholders, 1, 1, MeasureOf(SUITE_LIMITATIONS, SubjectOf([]))([], false, false))
  }

  function EmptyReport(now: TimestampText, digest: Json -> FingerprintText): Report {
    var unsigned := Report(false, [], SUITE_LIMITATIONS, now, SubjectOf([]), PLACEHOLDER_FINGERPRINT);
    unsigned.(fingerprint := digest(Unsigned(unsigned)))
  }

  lemma EmptySuiteGrantsNothing(placeholders: Placeholders)
    ensures var q := EmptySuite(placeholders);
            Granted(q) == [] && BaseLimitations(q) == SUITE_LIMITATIONS && UncutSize(q) == q.maxBytes
  {
  }

  lemma EmptyReportIsOk(placeholders: Placeholders, now: TimestampText, digest: Json -> FingerprintText)
    ensures var q, r := EmptySuite(placeholders), EmptyReport(now, digest);
            Granted(q) == [] && UncutSize(q) == q.maxBytes && ReportOk(q, r) && IsSigned(r, digest)
  {
    var q, r := EmptySuite(placeholders), EmptyReport(now, digest);
    EmptySuiteGrantsNothing(placeholders);
    BaseLimitationsName(q);
    MeasuredExactly(r);
    assert IsMinimalCut(q, r, 0);
  }

  // ----- when a suite is degraded -----

  /** The i-th scanner gave nothing that can be relied on: it was skipped offline, its adapter raised, its result is
      invalid, or its version is only known by its family. */
  predicate Failed(q: Request, i: nat)
    requires i < |q.scanners| == |q.outcomes|
  {
    || (q.offline && q.scanners[i] in {"osv-scanner", "trivy"})
    || q.outcomes[i].AdapterRaised?
    || !q.outcomes[i].valid
    || q.outcomes[i].familyUnverified
    || "scanner_version_compatible_family_unverified" in q.outcomes[i].warnings
  }

  predicate SomeFailed(q: Request)
    requires |q.scanners| == |q.outcomes|
  {
    exists i :: 0 <= i < |q.scanners| && Failed(q, i)
  }

  /** A finding budget left something out of an entry. */
  predicate SomeOmitted(q: Request)
    requires |q.scanners| == |q.outcomes| && q.maxPer > 0 && q.maxAll > 0
  {
    exists i :: 0 <= i < |Granted(q)| && Granted(q)[i].omitted > 0
  }

  lemma AddedOnce(warnings: seq<string>, warning: string, other: string)
    ensures other in AddOnce(warnings, warning) <==> other in warnings || other == warning
  {
  }

  lemma WarningsDiffer()
    ensures FAMILY_WARNING != FINDING_WARNING
  {
    assert |FAMILY_WARNING| != |FINDING_WARNING|;
  }

  lemma RanEntryDegradation(scanner: string, result: ScanOutcome, allowed: nat)
    requires result.ScanResult?
    ensures CompletedWithoutDegradation(EntryFromResult(scanner, result, allowed)) <==>
              result.valid && !result.familyUnverified && FAMILY_WARNING !in result.warnings
  {
    var warnings := result.warnings + if result.familyUnverified then [FAMILY_WARNING] else [];
    assert FAMILY_WARNING in warnings <==> result.familyUnverified || FAMILY_WARNING in result.warnings by {
      if result.familyUnverified { assert warnings[|result.warnings|] == FAMILY_WARNING; }
    }
    AddedOnce(warnings, FINDING_WARNING, FAMILY_WARNING);
    WarningsDiffer();
  }

  lemma EntryDegradation(q: Request, i: nat, allowed: nat)
    requires i < |q.scanners| == |q.outcomes|
    ensures CompletedWithoutDegradation(EntryFor(q.scanners[i], q.offline, q.outcomes[i], q.placeholders, allowed)) <==>
              !Failed(q, i)
  {
    if Ran(q.scanners[i], q.offline, q.outcomes[i]) {
      RanEntryDegradation(q.scanners[i], q.outcomes[i], allowed);
    }
  }

  lemma DegradedExactlyForFailures(q: Request)
    requires |q.scanners| == |q.outcomes| && q.maxPer > 0 && q.maxAll > 0
    ensures SomeDegraded(Granted(q)) <==> SomeFailed(q)
    ensures SomeTruncated(Granted(q)) <==> SomeOmitted(q)
  {
    var granted := Granted(q);
    forall i | 0 <= i < |q.scanners|
      ensures granted[i] in granted
      ensures CompletedWithoutDegradation(granted[i]) <==> !Failed(q, i)
      ensures granted[i].truncated <==> granted[i].omitted > 0
    {
      EntryOfGranted(q, i);
    }
    if SomeFailed(q) {
      var i :| 0 <= i < |q.scanners| && Failed(q, i);
      assert !CompletedWithoutDegradation(granted[i]);
    }
  }

  lemma EntryOfGranted(q: Request, i: nat)
    requires i < |q.scanners| == |q.outcomes| && q.maxPer > 0 && q.maxAll > 0
    ensures CompletedWithoutDegradation(Granted(q)[i]) <==> !Failed(q, i)
    ensures Granted(q)[i].truncated <==> Granted(q)[i].omitted > 0
  {
    GrantedAt(q, i);
    var allowed: nat :| allowed <= q.maxPer
      && Granted(q)[i] == EntryFor(q.scanners[i], q.offline, q.outcomes[i], q.placeholders, allowed);
    EntryDegradation(q, i, allowed);
    EntryForFacts(q.scanners[i], q.offline, q.outcomes[i], q.placeholders, allowed);
  }

  /** The report as it would be without a byte budget is too large for it. */
  predicate ExceedsBytes(q: Request)
    requires |q.scanners| == |q.outcomes| && q.maxPer > 0 && q.maxAll > 0
  {
    MeasureOf(BaseLimitations(q), SubjectOf(Granted(q)))(Granted(q), SomeFailed(q) || SomeOmitted(q), false) > q.maxBytes
  }

  /** What the byte budget did, given whether the report fits before it. */
  lemma CutExactlyIfTooLarge(q: Request, r: Report, tooLarge: bool)
    requires |q.outcomes| == |q.scanners| && ReportOk(q, r)
    requires tooLarge <==>
               MeasureOf(BaseLimitations(q), SubjectOf(Granted(q)))(
                 Granted(q), SomeDegraded(Granted(q)) || SomeTruncated(Granted(q)), false) > q.maxBytes
    ensures !tooLarge ==> r.entries == Granted(q)
    ensures r.limitations == if tooLarge then BaseLimitations(q) + BYTE_LIMITATIONS else BaseLimitations(q)
  {
    var rounds :| IsMinimalCut(q, r, rounds);
  }

  lemma MeasuredBeforeCut(q: Request)
    requires |q.outcomes| == |q.scanners| && q.maxPer > 0 && q.maxAll > 0
    ensures ExceedsBytes(q) <==>
              MeasureOf(BaseLimitations(q), SubjectOf(Granted(q)))(
                Granted(q), SomeDegraded(Granted(q)) || SomeTruncated(Granted(q)), false) > q.maxBytes
  {
    DegradedExactlyForFailures(q);
  }

  lemma MarkedExactlyWhen(q: Request, r: Report)
    requires |q.outcomes| == |q.scanners| && ReportOk(q, r)
    ensures IsMarkedTruncated(r.limitations) <==> ExceedsBytes(q)
    ensures !ExceedsBytes(q) ==> r.entries == Granted(q)
    ensures r.limitations == if ExceedsBytes(q) then BaseLimitations(q) + BYTE_LIMITATIONS else BaseLimitations(q)
  {
    MeasuredBeforeCut(q);
    CutExactlyIfTooLarge(q, r, ExceedsBytes(q));
    BaseIsUnmarked(q);
    ByteLimitationsMark(BaseLimitations(q));
  }

  lemma BaseIsUnmarked(q: Request)
    requires |q.outcomes| == |q.scanners| && q.maxPer > 0 && q.maxAll > 0
    ensures !IsMarkedTruncated(BaseLimitations(q))
  {
    BaseLimitationsName(q);
  }

  /** A finished report is degraded exactly if a scanner failed, a finding budget left something out, or the byte budget
      was exceeded. */
  lemma DegradedExactlyWhen(q: Request, r: Report)
    requires |q.outcomes| == |q.scanners| && ReportOk(q, r)
    ensures r.degraded <==> SomeFailed(q) || SomeOmitted(q) || ExceedsBytes(q)
  {
    MarkedExactlyWhen(q, r);
    DegradedExactlyForFailures(q);
  }

  predicate IsSkipped(q: Request, i: nat)
    requires i < |q.scanners|
  {
    q.offline && q.scanners[i] in {"osv-scanner", "trivy"}
  }

  /** The entry of a granted scanner says what happened to it. */
  lemma GrantedEntrySays(q: Request, i: nat)
    requires i < |q.scanners| == |q.outcomes| && q.maxPer > 0 && q.maxAll > 0
    ensures var e, o := Granted(q)[i], q.outcomes[i];
            && e.scanner == q.scanners[i]
            && e.status == (if IsSkipped(q, i) then "skipped_offline"
                            else if o.ScanResult? && o.valid then "completed" else "unknown")
            && (e.valid <==> e.status == "completed")
            && (e.executed <==> !IsSkipped(q, i) && o.ScanResult? && o.executed)
            && e.blockingErrors == (if IsSkipped(q, i) then [] else if o.AdapterRaised? then ["suite_runner_error"]
                                    else o.blockingErrors)
  {
    GrantedAt(q, i);
    var allowed: nat :| allowed <= q.maxPer
      && Granted(q)[i] == EntryFor(q.scanners[i], q.offline, q.outcomes[i], q.placeholders, allowed);
  }

  lemma SkippedExactlyWhen(q: Request)
    requires |q.scanners| == |q.outcomes| && q.maxPer > 0 && q.maxAll > 0
    ensures (exists e :: e in Granted(q) && e.status == "skipped_offline") <==>
              exists i :: 0 <= i < |q.scanners| && IsSkipped(q, i)
  {
    forall i | 0 <= i < |q.scanners|
      ensures Granted(q)[i] in Granted(q)
      ensures Granted(q)[i].status == "skipped_offline" <==> IsSkipped(q, i)
    {
      GrantedEntrySays(q, i);
    }
    if exists i :: 0 <= i < |q.scanners| && IsSkipped(q, i) {
      var i :| 0 <= i < |q.scanners| && IsSkipped(q, i);
      assert Granted(q)[i].status == "skipped_offline";
    }
  }

  lemma ReviewIsNamed(own: bool, all: bool, degraded: bool, skipped: bool)
    ensures var limitations := Added(Added(Added(Added(SUITE_LIMITATIONS, own, "per_scanner_finding_budget_exceeded"),
                                                 all, "suite_finding_budget_exceeded"),
                                           degraded, "suite_degraded_requires_review"),
                                     skipped, "offline_network_scanners_skipped");
            && ("suite_degraded_requires_review" in limitations <==> degraded)
            && ("offline_network_scanners_skipped" in limitations <==> skipped)
            && ("suite_degraded_requires_review" in limitations + BYTE_LIMITATIONS <==> degraded)
            && ("offline_network_scanners_skipped" in limitations + BYTE_LIMITATIONS <==> skipped)
  {
  }

  /** The report asks for a review exactly if a scanner failed, and says that network scanners were skipped exactly if one
      was. */
  lemma ReviewIsRequiredExactlyWhen(q: Request, r: Report)
    requires |q.outcomes| == |q.scanners| && ReportOk(q, r)
    ensures "suite_degraded_requires_review" in r.limitations <==> SomeFailed(q)
    ensures "offline_network_scanners_skipped" in r.limitations <==>
              exists i :: 0 <= i < |q.scanners| && IsSkipped(q, i)
  {
    MarkedExactlyWhen(q, r);
    DegradedExactlyForFailures(q);
    SkippedExactlyWhen(q);
    ReviewIsNamed(SomeExceedsOwn(q, |q.scanners|), SomeExceedsRest(q, |q.scanners|), SomeDegraded(Granted(q)),
                  q.offline && exists e :: e in Granted(q) && e.status == "skipped_offline");
  }

  /** A budget is named among the limitations exactly if a scanner exceeded it, and nothing is marked truncated yet. */
  lemma BaseLimitationsName(q: Request)
    requires |q.outcomes| == |q.scanners| && q.maxPer > 0 && q.maxAll > 0
    ensures var limitations := BaseLimitations(q);
            && !IsMarkedTruncated(limitations)
            && ("per_scanner_finding_budget_exceeded" in limitations <==> SomeExceedsOwn(q, |q.scanners|))
            && ("suite_finding_budget_exceeded" in limitations <==> SomeExceedsRest(q, |q.scanners|))
  {
    LimitationsName(SomeExceedsOwn(q, |q.scanners|), SomeExceedsRest(q, |q.scanners|), SomeDegraded(Granted(q)),
                    q.offline && exists e :: e in Granted(q) && e.status == "skipped_offline");
  }

  lemma LimitationsName(own: bool, all: bool, degraded: bool, skipped: bool)
    ensures var limitations := Added(Added(Added(Added(SUITE_LIMITATIONS, own, "per_scanner_finding_budget_exceeded"),
                                                 all, "suite_finding_budget_exceeded"),
                                           degraded, "suite_degraded_requires_review"),
                                     skipped, "offline_network_scanners_skipped");
            && !IsMarkedTruncated(limitations)
            && ("per_scanner_finding_budget_exceeded" in limitations <==> own)
            && ("suite_finding_budget_exceeded" in limitations <==> all)
  {
  }

  /** Collects the limitations of the report before the byte budget. */
  method CollectLimitations(q: Request, granted: seq<Entry>, perExceeded: bool, suiteExceeded: bool)
    returns (limitations: seq<string>)
    requires |q.outcomes| == |q.scanners| && q.maxPer > 0 && q.maxAll > 0
    requires granted == Granted(q)
    requires perExceeded <==> SomeExceedsOwn(q, |q.scanners|)
    requires suiteExceeded <==> SomeExceedsRest(q, |q.scanners|)
    ensures limitations == BaseLimitations(q)
  {
    limitations := SUITE_LIMITATIONS;
    if perExceeded {
      limitations := limitations + ["per_scanner_finding_budget_exceeded"];
    }
    if suiteExceeded {
      limitations := limitations + ["suite_finding_budget_exceeded"];
    }
    if SomeDegraded(granted) {
      limitations := limitations + ["suite_degraded_requires_review"];
    }
    if q.offline && exists e :: e in granted && e.status == "skipped_offline" {
      limitations := limitations + ["offline_network_scanners_skipped"];
    }
  }

  lemma ByteLimitationsMark(limitations: seq<string>)
    ensures IsMarkedTruncated(limitations + BYTE_LIMITATIONS)
  {
    assert (limitations + BYTE_LIMITATIONS)[|limitations|] == BYTE_LIMITATIONS[0];
  }

  /** Cuts the granted entries to the byte budget and prints the report. */
  method FinishReport(q: Request, limitations: seq<string>, now: TimestampText, digest: Json -> FingerprintText)
    returns (report: Report)
    requires |q.outcomes| == |q.scanners| && q.maxPer > 0 && q.maxAll > 0
    requires limitations == BaseLimitations(q)
    ensures ReportOk(q, report) && IsSigned(report, digest) && report.generatedAt == now
  {
    BaseLimitationsName(q);
    var granted := Granted(q);
    var startDegraded := SomeDegraded(granted) || SomeTruncated(granted);
    var subject := SubjectOf(granted);
    var size := MeasureOf(limitations, subject);
    var entries, exceeded, rounds := ApplyReportByteBudget(granted, q.maxBytes, size);
    var finalLimitations := if exceeded then limitations + BYTE_LIMITATIONS else limitations;
    var degraded := SomeDegraded(granted) || exceeded || SomeTruncated(entries);

    CutEntriesFitBudgets(q, rounds, entries);
    ByteLimitationsMark(limitations);
    var members := ReportMembers(entries, StatusText(degraded), finalLimitations, now, subject, PLACEHOLDER_FINGERPRINT);
    var fingerprint := digest(Obj(members[..4] + members[5..]));
    report := Report(degraded, entries, finalLimitations, now, SubjectOf(entries), fingerprint);
    var measured := if exceeded then rounds > 0 || startDegraded else startDegraded;
    FinishedSize(entries, limitations, subject, measured, degraded, exceeded, now, fingerprint);
    assert !exceeded || SizeAfter(granted, startDegraded, rounds, size) <= q.maxBytes ==>
        size(entries, measured, exceeded) <= q.maxBytes;
    ReportIsOk(q, report, rounds);
  }

  /** `_run_real_scanner_suite_on_snapshot`. */
  method RunSuite(q: Request, now: TimestampText, digest: Json -> FingerprintText)
    returns (r: Result<Report, SuiteError>)
    requires |q.outcomes| == |q.scanners|
    ensures r.Ok? <==>
              (forall s :: s in q.scanners ==> s in {"gitleaks", "osv-scanner", "trivy"})
              && q.maxPer > 0 && q.maxAll > 0 && q.maxBytes > 0
    ensures r.Ok? ==> ReportOk(q, r.value) && IsSigned(r.value, digest) && r.value.generatedAt == now
  {
    if exists s :: s in q.scanners && !IsKnownScanner(s) {
      return Err(UnknownScanner);
    }
    if q.maxPer <= 0 || q.maxAll <= 0 || q.maxBytes <= 0 {
      return Err(BadBudget);
    }
    var granted, perExceeded, suiteExceeded := AllocateBudgets(q);
    var limitations := CollectLimitations(q, granted, perExceeded, suiteExceeded);
    var report := FinishReport(q, limitations, now, digest);
    r := Ok(report);
  }
}
