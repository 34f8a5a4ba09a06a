/** What holds of the gate's verdict over all questions: it does not depend on the order of the evidence, more
    evidence never lifts a quarantine or a block, and added scanner or sandbox evidence weakens a verdict in exactly
    one way. */
module GateLaws {
  import opened Wrappers
  import opened Verdicts
  import opened GateEvaluator
  import opened GateEvaluation
  import Text

  // ----- order -----

  lemma {:induction false} ValidatedCountWithout(sandbox: seq<SandboxItem>, k: nat)
    requires k < |sandbox|
    ensures ValidatedCount(sandbox) ==
            ValidatedCount(sandbox[..k] + sandbox[k + 1..]) + if sandbox[k].refOk.Some? then 1 else 0
  {
    var last := |sandbox| - 1;
    var rest := sandbox[..k] + sandbox[k + 1..];
    if k < last {
      assert rest[..|rest| - 1] == sandbox[..last][..k] + sandbox[..last][k + 1..];
      ValidatedCountWithout(sandbox[..last], k);
    } else {
      assert rest == sandbox[..last];
    }
  }

  lemma MultisetWithout<T>(s: seq<T>, k: nat)
    requires k < |s|
    ensures multiset(s[..k] + s[k + 1..]) == multiset(s) - multiset{s[k]}
  {
    assert s == s[..k] + [s[k]] + s[k + 1..];
  }

  lemma {:induction false} ValidatedCountOfPermutation(a: seq<SandboxItem>, b: seq<SandboxItem>)
    requires multiset(a) == multiset(b)
    ensures ValidatedCount(a) == ValidatedCount(b)
  {
    if a == [] {
      assert |multiset(b)| == 0;
    } else {
      var last := |a| - 1;
      assert a[last] in multiset(a);
      var k :| 0 <= k < |b| && b[k] == a[last];
      MultisetWithout(a, last);
      MultisetWithout(b, k);
      assert a[..last] + a[last + 1..] == a[..last];
      ValidatedCountWithout(b, k);
      ValidatedCountOfPermutation(a[..last], b[..k] + b[k + 1..]);
    }
  }

  predicate SameMembers<T(==)>(a: seq<T>, b: seq<T>) {
    (forall x :: x in a ==> x in b) && (forall x :: x in b ==> x in a)
  }

  lemma PermutationHasSameMembers<T>(a: seq<T>, b: seq<T>)
    requires multiset(a) == multiset(b)
    ensures SameMembers(a, b) && |a| == |b|
  {
    forall x | x in a ensures x in b { assert x in multiset(a); }
    forall x | x in b ensures x in a { assert x in multiset(b); }
    assert |multiset(a)| == |a| && |multiset(b)| == |b|;
  }

  lemma VerdictsDependOnMembers(q: Question, r: Question, policy: Policy)
    requires SameMembers(q.items, r.items) && SameMembers(q.suites, r.suites) && SameMembers(q.sandbox, r.sandbox)
    ensures AllVerdicts(q, policy) == AllVerdicts(r, policy)
  {
    assert q.items == [] <==> r.items == [] by {
      if q.items != [] { assert q.items[0] in r.items; }
      if r.items != [] { assert r.items[0] in q.items; }
    }
    assert BaseVerdicts(q.items) == BaseVerdicts(r.items);
    assert AddedVerdicts(q) == AddedVerdicts(r);
    assert MissingNames(q.items, policy) == MissingNames(r.items, policy);
    assert LateVerdicts(q.items, policy) == LateVerdicts(r.items, policy);
  }

  lemma {:induction false} DigestMembers(items: seq<Item>, see: Item -> Seen, s: Seen)
    ensures s in Digests(items, see) <==> exists i :: i in items && see(i) == s
  {
    if items != [] {
      var last := |items| - 1;
      DigestMembers(items[..last], see, s);
      assert items == items[..last] + [items[last]];
      assert items[last] in items;
    }
  }

  /** Without a subject from the caller, the first item with one gives its subject to the decision. If that is malformed,
      so is the item, which calls for a block of its own. */
  lemma {:induction false} MalformedSubjectBlocks(items: seq<Seen>)
    requires !FirstSubject(items)
    ensures Block in AllItemVerdicts(items)
  {
    if items[0].subject.None? {
      MalformedSubjectBlocks(items[1..]);
      assert AllItemVerdicts(items[1..]) <= AllItemVerdicts(items);
    } else {
      assert items[0] in items && Block in items[0].verdicts;
    }
  }

  /** A malformed subject that the caller did not give makes no difference to the verdict. */
  lemma OnlyTheCallersSubjectCounts(q: Question, policy: Policy)
    ensures GateVerdict(q, policy) ==
            if q.subject != Some(false) && RefsOk(q) then StrongestOf(AllVerdicts(q, policy)) else Block
  {
    if q.subject.None? && !FirstSubject(q.items) {
      MalformedSubjectBlocks(q.items);
    }
  }

  /** The verdict on what the gate sees does not depend on its order. */
  lemma OrderOfSeenDoesNotMatter(q: Question, r: Question, policy: Policy)
    requires r.subject == q.subject && SameMembers(q.items, r.items)
    requires multiset(q.suites) == multiset(r.suites) && multiset(q.sandbox) == multiset(r.sandbox)
    ensures GateVerdict(q, policy) == GateVerdict(r, policy)
  {
    PermutationHasSameMembers(q.suites, r.suites);
    PermutationHasSameMembers(q.sandbox, r.sandbox);
    ValidatedCountOfPermutation(q.sandbox, r.sandbox);
    VerdictsDependOnMembers(q, r, policy);
    OnlyTheCallersSubjectCounts(q, policy);
    OnlyTheCallersSubjectCounts(r, policy);
  }

  lemma OrderOfItemsDoesNotMatter(subject: Option<bool>, policy: Policy, see: Item -> Seen, items: seq<Item>, items': seq<Item>,
                                  suites: seq<Suite>, suites': seq<Suite>,
                                  sandbox: seq<SandboxItem>, sandbox': seq<SandboxItem>)
    requires multiset(items) == multiset(items')
    requires multiset(suites) == multiset(suites')
    requires multiset(sandbox) == multiset(sandbox')
    ensures GateVerdict(Question(subject, Digests(items, see), suites, sandbox), policy) ==
            GateVerdict(Question(subject, Digests(items', see), suites', sandbox'), policy)
  {
    PermutationHasSameMembers(items, items');
    SameDigests(items, items', see);
    OrderOfSeenDoesNotMatter(Question(subject, Digests(items, see), suites, sandbox),
                             Question(subject, Digests(items', see), suites', sandbox'), policy);
  }

  /** With the policy and the caller's subject, if any, fixed, the verdict does not depend on the order of evidence,
      suites or sandbox items. */
  lemma OrderDoesNotMatter(subject: Option<bool>, policy: Policy, items: seq<Item>, items': seq<Item>,
                           suites: seq<Suite>, suites': seq<Suite>,
                           sandbox: seq<SandboxItem>, sandbox': seq<SandboxItem>)
    requires multiset(items) == multiset(items')
    requires multiset(suites) == multiset(suites')
    requires multiset(sandbox) == multiset(sandbox')
    ensures GateVerdict(Ask(subject, items, policy, suites, sandbox), policy) ==
            GateVerdict(Ask(subject, items', policy, suites', sandbox'), policy)
  {
    OrderOfItemsDoesNotMatter(subject, policy, Seer(policy), items, items', suites, suites', sandbox, sandbox');
  }

  lemma SameDigests(items: seq<Item>, items': seq<Item>, see: Item -> Seen)
    requires SameMembers(items, items')
    ensures SameMembers(Digests(items, see), Digests(items', see))
  {
    forall s | s in Digests(items, see) ensures s in Digests(items', see) {
      DigestMembers(items, see, s);
      DigestMembers(items', see, s);
    }
    forall s | s in Digests(items', see) ensures s in Digests(items, see) {
      DigestMembers(items, see, s);
      DigestMembers(items', see, s);
    }
  }

  // ----- more evidence -----

  /** A question with more evidence of any kind. */
  function Extended(q: Question, items: seq<Seen>, suites: seq<Suite>, sandbox: seq<SandboxItem>): Question {
    Question(q.subject, q.items + items, q.suites + suites, q.sandbox + sandbox)
  }

  lemma {:induction false} ValidatedCountGrows(a: seq<SandboxItem>, b: seq<SandboxItem>)
    ensures ValidatedCount(a + b) >= ValidatedCount(a)
  {
    if b == [] {
      assert a + b == a;
    } else {
      assert (a + b)[..|a + b| - 1] == a + b[..|b| - 1];
      ValidatedCountGrows(a, b[..|b| - 1]);
    }
  }

  lemma BadReferencesStay(q: Question, items: seq<Seen>, suites: seq<Suite>, sandbox: seq<SandboxItem>)
    ensures !RefsOk(q) ==> !RefsOk(Extended(q, items, suites, sandbox))
  {
    ValidatedCountGrows(q.sandbox, sandbox);
    var r := Extended(q, items, suites, sandbox);
    assert forall s :: s in q.suites ==> s in r.suites;
    assert forall i :: i in q.sandbox ==> i in r.sandbox;
  }

  lemma {:induction false} NotContainedWithoutFirstLetter(s: string, part: string)
    requires part != [] && part[0] !in s
    ensures !Text.Contains(s, part)
  {
    if s != [] {
      assert s[0] in s;
      NotContainedWithoutFirstLetter(s[1..], part);
    }
  }

  lemma RuntimeNamesHaveLetters(name: string)
    requires MentionsRuntime(name)
    ensures 'r' in name || 'o' in name
  {
    if 'r' !in name && 'o' !in name {
      NotContainedWithoutFirstLetter(name, "runtime");
      NotContainedWithoutFirstLetter(name, "observer");
    }
  }

  /** Of the missing names, more evidence removes at most one. */
  lemma MissingNamesStay(items: seq<Seen>, more: seq<Seen>, policy: Policy, n: string)
    requires n in MissingNames(items, policy) && ('r' in n || 'o' in n)
    ensures n in MissingNames(items + more, policy)
  {
    var none := "all_evidence";
    assert n != none;
    assert forall i :: i in items ==> i in items + more;
    assert SomeUnbound(items) ==> SomeUnbound(items + more);
  }

  /** A dynamic judgment that was blind to the runtime stays so: the one missing name that more evidence removes says
      nothing about it. */
  lemma BlindnessStays(items: seq<Seen>, more: seq<Seen>, policy: Policy)
    requires BlindToRuntime(Unaccepted(MissingNames(items, policy), policy), policy)
    ensures BlindToRuntime(Unaccepted(MissingNames(items + more, policy), policy), policy)
  {
    var n :| n in Unaccepted(MissingNames(items, policy), policy) && MentionsRuntime(n);
    RuntimeNamesHaveLetters(n);
    MissingNamesStay(items, more, policy, n);
    assert n in Unaccepted(MissingNames(items + more, policy), policy);
  }

  lemma QuarantineForBlindnessStays(items: seq<Seen>, more: seq<Seen>, policy: Policy)
    requires Quarantine in LateVerdicts(items, policy)
    ensures Quarantine in LateVerdicts(items + more, policy)
  {
    BlindnessStays(items, more, policy);
  }

  lemma AddedVerdictsGrow(q: Question, items: seq<Seen>, suites: seq<Suite>, sandbox: seq<SandboxItem>)
    ensures AllItemVerdicts(q.items) <= AllItemVerdicts(q.items + items)
    ensures AddedVerdicts(q) <= AddedVerdicts(Extended(q, items, suites, sandbox))
  {
    var r := Extended(q, items, suites, sandbox);
    assert forall s :: s in q.suites ==> s in r.suites;
    assert forall i :: i in q.sandbox ==> i in r.sandbox;
    assert forall i :: i in q.items ==> i in q.items + items;
  }

  /** Of what was called for, only an unknown or a warning can go away. */
  lemma StrongCallsStay(q: Question, items: seq<Seen>, suites: seq<Suite>, sandbox: seq<SandboxItem>, policy: Policy,
                        v: Verdict)
    requires v in AllVerdicts(q, policy) && v in {Quarantine, Block}
    ensures v in AllVerdicts(Extended(q, items, suites, sandbox), policy)
  {
    AddedVerdictsGrow(q, items, suites, sandbox);
    if v in LateVerdicts(q.items, policy) {
      QuarantineForBlindnessStays(q.items, items, policy);
    }
  }

  predicate IsWellFormed(q: Question) {
    q.subject != Some(false) && RefsOk(q)
  }

  lemma MalformedStaysBlocked(q: Question, items: seq<Seen>, suites: seq<Suite>, sandbox: seq<SandboxItem>,
                              policy: Policy)
    requires !IsWellFormed(q)
    ensures GateVerdict(Extended(q, items, suites, sandbox), policy) == Block
  {
    BadReferencesStay(q, items, suites, sandbox);
    OnlyTheCallersSubjectCounts(Extended(q, items, suites, sandbox), policy);
  }

  /** Adding evidence of any kind never lowers a quarantine or a block. */
  lemma StrongVerdictsStay(q: Question, items: seq<Seen>, suites: seq<Suite>, sandbox: seq<SandboxItem>, policy: Policy)
    requires GateVerdict(q, policy) in {Quarantine, Block}
    ensures AtLeast(GateVerdict(Extended(q, items, suites, sandbox), policy), GateVerdict(q, policy))
  {
    if IsWellFormed(q) {
      OnlyTheCallersSubjectCounts(q, policy);
      StrongCallsStay(q, items, suites, sandbox, policy, GateVerdict(q, policy));
      CalledForIsReached(Extended(q, items, suites, sandbox), policy, GateVerdict(q, policy));
    } else {
      MalformedStaysBlocked(q, items, suites, sandbox, policy);
    }
  }

  // ----- what added evidence can weaken -----

  /** There is no evidence, or none that is bound to a commit, or only low-trust evidence that says nothing. */
  predicate Lacks(q: Question) {
    q.items == [] || !SomeBound(q.items) || FallbackApplies(q)
  }

  /** What items, suites and sandbox items say. */
  function Said(q: Question): set<Verdict> {
    AllItemVerdicts(q.items) + AddedVerdicts(q)
  }

  predicate IsMild(verdicts: set<Verdict>) {
    verdicts !! {Unknown, Quarantine, Block}
  }

  /** Nothing is lacking, nothing says more than a warning, and nothing that is missing calls for more. */
  predicate IsUnobjectionable(q: Question, policy: Policy) {
    && !Lacks(q) && IsMild(Said(q))
    && MandatoryMissing(policy) == {} && !BlindToRuntime(Unaccepted(MissingNames(q.items, policy), policy), policy)
  }

  lemma MildExactlyWhen(q: Question, policy: Policy)
    ensures IsMild(AllVerdicts(q, policy)) <==> IsUnobjectionable(q, policy)
    ensures Lacks(q) ==> Unknown in AllVerdicts(q, policy)
  {
    var names := Unaccepted(MissingNames(q.items, policy), policy);
    assert AllVerdicts(q, policy) == Said(q) + When(Lacks(q), Unknown) + MissingVerdicts(q.items, policy);
    if BlindToRuntime(names, policy) {
      assert Quarantine in MissingVerdicts(q.items, policy);
    }
  }

  lemma StrongestIsMild(verdicts: set<Verdict>)
    ensures !AtLeast(StrongestOf(verdicts), Unknown) <==> IsMild(verdicts)
  {
  }

  /** The verdict is below unknown exactly for a well-formed question that nothing objects to. */
  lemma BelowUnknownExactlyWhen(q: Question, policy: Policy)
    ensures !AtLeast(GateVerdict(q, policy), Unknown) <==> IsWellFormed(q) && IsUnobjectionable(q, policy)
  {
    OnlyTheCallersSubjectCounts(q, policy);
    MildExactlyWhen(q, policy);
    StrongestIsMild(AllVerdicts(q, policy));
  }

  lemma MissingNamesCallForWarning(items: seq<Seen>, policy: Policy)
    requires Unaccepted(MissingNames(items, policy), policy) != {}
    ensures Warn in MissingVerdicts(items, policy) || Quarantine in MissingVerdicts(items, policy)
  {
  }

  lemma MissingWarningStays(items: seq<Seen>, more: seq<Seen>, policy: Policy)
    requires items != [] && Warn in LateVerdicts(items, policy)
    ensures Warn in LateVerdicts(items + more, policy) || Quarantine in LateVerdicts(items + more, policy)
  {
    var n :| n in Unaccepted(MissingNames(items, policy), policy);
    assert forall i :: i in items ==> i in items + more;
    assert n in Unaccepted(MissingNames(items + more, policy), policy);
    MissingNamesCallForWarning(items + more, policy);
  }

  lemma WarningCallStays(q: Question, items: seq<Seen>, suites: seq<Suite>, sandbox: seq<SandboxItem>, policy: Policy)
    requires q.items != [] && Warn in AllVerdicts(q, policy)
    ensures var all := AllVerdicts(Extended(q, items, suites, sandbox), policy); Warn in all || Quarantine in all
  {
    AddedVerdictsGrow(q, items, suites, sandbox);
    if Warn in LateVerdicts(q.items, policy) {
      MissingWarningStays(q.items, items, policy);
    }
  }

  lemma WarningIsCalledFor(q: Question, policy: Policy)
    requires GateVerdict(q, policy) == Warn
    ensures q.items != [] && Warn in AllVerdicts(q, policy)
  {
    OnlyTheCallersSubjectCounts(q, policy);
    MildExactlyWhen(q, policy);
  }

  lemma WarningStays(q: Question, items: seq<Seen>, suites: seq<Suite>, sandbox: seq<SandboxItem>, policy: Policy)
    requires GateVerdict(q, policy) == Warn
    ensures AtLeast(GateVerdict(Extended(q, items, suites, sandbox), policy), Warn)
  {
    WarningIsCalledFor(q, policy);
    WarningCallStays(q, items, suites, sandbox, policy);
    WarningIsReached(Extended(q, items, suites, sandbox), policy);
  }

  lemma WarningIsReached(q: Question, policy: Policy)
    requires Warn in AllVerdicts(q, policy) || Quarantine in AllVerdicts(q, policy)
    ensures AtLeast(GateVerdict(q, policy), Warn)
  {
    CalledForIsReached(q, policy, if Warn in AllVerdicts(q, policy) then Warn else Quarantine);
  }

  lemma UnknownStaysUnlessLacking(q: Question, items: seq<Seen>, suites: seq<Suite>, sandbox: seq<SandboxItem>,
                                  policy: Policy)
    requires Unknown in AllVerdicts(q, policy) && !Lacks(q)
    ensures !IsUnobjectionable(Extended(q, items, suites, sandbox), policy)
  {
    AddedVerdictsGrow(q, items, suites, sandbox);
    assert Unknown in Said(q) || MandatoryMissing(policy) != {};
  }

  lemma WeakenedWasLacking(q: Question, items: seq<Seen>, suites: seq<Suite>, sandbox: seq<SandboxItem>, policy: Policy)
    requires !AtLeast(GateVerdict(Extended(q, items, suites, sandbox), policy), GateVerdict(q, policy))
    ensures GateVerdict(q, policy) == Unknown && Lacks(q)
  {
    var r := Extended(q, items, suites, sandbox);
    if GateVerdict(q, policy) in {Quarantine, Block} {
      StrongVerdictsStay(q, items, suites, sandbox, policy);
    }
    if GateVerdict(q, policy) == Warn {
      WarningStays(q, items, suites, sandbox, policy);
    }
    OnlyTheCallersSubjectCounts(q, policy);
    BelowUnknownExactlyWhen(r, policy);
    if !Lacks(q) {
      UnknownStaysUnlessLacking(q, items, suites, sandbox, policy);
    }
  }

  /** Adding evidence of any kind weakens the verdict exactly when something was lacking, nothing is lacking any more, and
      nothing objects. */
  lemma MoreEvidenceWeakensExactlyWhen(q: Question, items: seq<Seen>, suites: seq<Suite>, sandbox: seq<SandboxItem>,
                                       policy: Policy)
    ensures var r := Extended(q, items, suites, sandbox);
            !AtLeast(GateVerdict(r, policy), GateVerdict(q, policy)) <==>
              IsWellFormed(r) && Lacks(q) && IsUnobjectionable(r, policy)
  {
    var r := Extended(q, items, suites, sandbox);
    BelowUnknownExactlyWhen(r, policy);
    if !AtLeast(GateVerdict(r, policy), GateVerdict(q, policy)) {
      WeakenedWasLacking(q, items, suites, sandbox, policy);
    }
    if Lacks(q) {
      MildExactlyWhen(q, policy);
      CalledForIsReached(q, policy, Unknown);
    }
  }

  /** Adding only scanner suites or sandbox items does so exactly when the verdict was unknown for the low-trust fallback
      alone, the added evidence says something, and neither it nor what is missing calls for more than a warning. */
  lemma AddedEvidenceWeakensExactlyWhen(q: Question, suites: seq<Suite>, sandbox: seq<SandboxItem>, policy: Policy)
    ensures var r := Extended(q, [], suites, sandbox);
            var added := AllSuiteVerdicts(suites) + AllSandboxVerdicts(sandbox);
            !AtLeast(GateVerdict(r, policy), GateVerdict(q, policy)) <==>
              && IsWellFormed(r) && FallbackApplies(q)
              && added != {} && IsMild(added + LateVerdicts(q.items, policy))
  {
    var r := Extended(q, [], suites, sandbox);
    assert r.items == q.items;
    MoreEvidenceWeakensExactlyWhen(q, [], suites, sandbox, policy);
    AddedVerdictsOfExtended(q, suites, sandbox);
    if q.items != [] {
      LateIsMildExactlyWhen(q.items, policy);
    }
  }

  lemma LateIsMildExactlyWhen(items: seq<Seen>, policy: Policy)
    requires items != []
    ensures IsMild(LateVerdicts(items, policy)) <==>
              && SomeBound(items) && MandatoryMissing(policy) == {}
              && !BlindToRuntime(Unaccepted(MissingNames(items, policy), policy), policy)
  {
    if BlindToRuntime(Unaccepted(MissingNames(items, policy), policy), policy) {
      assert Quarantine in MissingVerdicts(items, policy);
    }
  }

  lemma AddedVerdictsOfExtended(q: Question, suites: seq<Suite>, sandbox: seq<SandboxItem>)
    ensures AddedVerdicts(Extended(q, [], suites, sandbox)) ==
            AddedVerdicts(q) + (AllSuiteVerdicts(suites) + AllSandboxVerdicts(sandbox))
  {
    assert AllSuiteVerdicts(q.suites + suites) == AllSuiteVerdicts(q.suites) + AllSuiteVerdicts(suites);
    assert AllSandboxVerdicts(q.sandbox + sandbox) == AllSandboxVerdicts(q.sandbox) + AllSandboxVerdicts(sandbox);
  }

  // ----- a question that added evidence weakens -----

  lemma {:induction false} ContainedIsNoLonger(s: string, part: string)
    requires Text.Contains(s, part)
    ensures |part| <= |s|
  {
    if !(part <= s) {
      ContainedIsNoLonger(s[1..], part);
    }
  }

  predicate AllLong(markers: set<string>) {
    forall m :: m in markers ==> |m| >= 15
  }

  lemma ShortTokensHaveNoMarker(tokens: set<string>, markers: set<string>)
    requires AllLong(markers) && forall t :: t in tokens ==> |t| < 15
    ensures !HasAny(tokens, markers)
  {
    forall m, t | m in markers && t in tokens ensures !Text.Contains(t, Text.Replace(Text.Lower(m), ' ', '_')) {
      if Text.Contains(t, Text.Replace(Text.Lower(m), ' ', '_')) {
        ContainedIsNoLonger(t, Text.Replace(Text.Lower(m), ' ', '_'));
      }
    }
  }

  lemma BlockingMarkersAreLong()
    ensures AllLong(BLOCKING_MARKERS)
  {
  }

  lemma QuarantineMarkersAreLong()
    ensures AllLong(QUARANTINE_MARKERS)
  {
  }

  lemma WarnMarkersAreLong()
    ensures AllLong(WARN_MARKERS)
  {
  }

  lemma ShortTokensDoNotBlock(tokens: set<string>)
    requires forall t :: t in tokens ==> |t| < 15
    requires !HasAny(tokens, BLOCKING_MARKERS)
    ensures !HasBlockingSignal(tokens)
  {
    assert "raw_secret_leak" !in tokens && "raw_host_path_leak" !in tokens;
  }

  lemma ShortTokensAreNoMisuse(tokens: set<string>)
    requires forall t :: t in tokens ==> |t| < 15
    ensures !exists t :: t in tokens && Text.Contains(t, "pull_request_target_misuse") && Text.Contains(t, "untrusted_checkout")
  {
    forall t | t in tokens ensures !Text.Contains(t, "pull_request_target_misuse") {
      if Text.Contains(t, "pull_request_target_misuse") {
        ContainedIsNoLonger(t, "pull_request_target_misuse");
      }
    }
  }

  lemma ShortTokensDoNotQuarantine(tokens: set<string>, category: Option<string>)
    requires forall t :: t in tokens ==> |t| < 15
    requires !HasAny(tokens, QUARANTINE_MARKERS)
    ensures !HasQuarantineSignal(tokens, category)
  {
    ShortTokensAreNoMisuse(tokens);
    assert "verified_secret" !in tokens && "credential_path_reference" !in tokens;
    assert "network_request" !in tokens && "install_script_execution" !in tokens;
    assert "pull_request_target_misuse" !in tokens && "broad_token_permission" !in tokens;
    assert "docker_socket_reference" !in tokens && "known_critical_vulnerability" !in tokens;
  }

  /** A valid low-trust item that says nothing. */
  const QUIET: Item := RawItem(true, false, Acceptable, Some(true), true, Some(true), 1, false, false,
                               Some("evidence_only"), Some("redacted"), Some("sbom"), Some("x"), Some("info"), Some(""),
                               ["ok"], [])

  lemma ShortLimitationIsLow(limitation: string, policy: Policy)
    requires |limitation| < 7 && policy.severities.NoTable?
    ensures LimitationVerdict(limitation, policy) == AllowLimited
  {
    var text := Text.Lower(limitation);
    forall part: string | |part| >= 7 ensures !Text.Contains(text, part) {
      if Text.Contains(text, part) { ContainedIsNoLonger(text, part); }
    }
  }

  lemma ShortTokensDoNotWarn(tokens: set<string>, i: RawItem)
    requires !HasAny(tokens, WARN_MARKERS) && i.category != Some("known_vulnerability")
    requires i.subcategory != Some("low_repo_posture") && i.subcategory != Some("unsupported_scanner_version")
    ensures !HasWarnSignal(tokens, i)
  {
  }

  lemma ShortTokensRaiseNothing(tokens: set<string>, i: RawItem, blocking: set<string>, quarantine: set<string>,
                                warn: set<string>)
    requires forall t :: t in tokens ==> |t| < 15
    requires blocking == BLOCKING_MARKERS && quarantine == QUARANTINE_MARKERS && warn == WARN_MARKERS
    requires AllLong(blocking) && AllLong(quarantine) && AllLong(warn)
    requires i.category != Some("known_vulnerability")
    requires i.subcategory != Some("low_repo_posture") && i.subcategory != Some("unsupported_scanner_version")
    ensures !HasBlockingSignal(tokens) && !HasQuarantineSignal(tokens, i.category) && !HasWarnSignal(tokens, i)
  {
    ShortTokensHaveNoMarker(tokens, blocking);
    ShortTokensDoNotBlock(tokens);
    ShortTokensHaveNoMarker(tokens, quarantine);
    ShortTokensDoNotQuarantine(tokens, i.category);
    ShortTokensHaveNoMarker(tokens, warn);
    ShortTokensDoNotWarn(tokens, i);
  }

  lemma ShortTokensAreQuiet(tokens: set<string>, i: RawItem)
    requires forall t :: t in tokens ==> |t| < 15
    requires i.category != Some("known_vulnerability")
    requires i.subcategory != Some("low_repo_posture") && i.subcategory != Some("unsupported_scanner_version")
    ensures !HasBlockingSignal(tokens) && !HasQuarantineSignal(tokens, i.category) && !HasWarnSignal(tokens, i)
  {
    BlockingMarkersAreLong();
    QuarantineMarkersAreLong();
    WarnMarkersAreLong();
    ShortTokensRaiseNothing(tokens, i, BLOCKING_MARKERS, QUARANTINE_MARKERS, WARN_MARKERS);
  }

  /** An item that raises no signal, has mild limitations, and is otherwise unremarkable says nothing. */
  lemma UnremarkableItemSaysNothing(i: Item, policy: Policy)
    requires i.valid && i.present == Some(true) && i.binding == Acceptable
    requires i.redactionStatus != Some("failed")
    requires i.effect != Some("block") && i.effect != Some("quarantine") && i.effect != Some("warn")
    requires !HasBlockingSignal(Tokens(i)) && !HasQuarantineSignal(Tokens(i), i.category) && !HasWarnSignal(Tokens(i), i)
    requires LimitationVerdicts(i.limitations, policy) == {}
    ensures ItemVerdicts(i, policy) == {}
  {
  }

  lemma QuietTokensAreShort()
    ensures forall t :: t in Tokens(QUIET) ==> |t| < 15
  {
  }

  lemma QuietLimitationIsLow(policy: Policy)
    requires policy.severities.NoTable?
    ensures LimitationVerdicts(QUIET.limitations, policy) == {}
  {
    ShortLimitationIsLow("ok", policy);
  }

  lemma QuietSaysNothing(policy: Policy)
    requires policy.severities.NoTable?
    ensures ItemVerdicts(QUIET, policy) == {}
  {
    QuietTokensAreShort();
    ShortTokensAreQuiet(Tokens(QUIET), QUIET);
    QuietLimitationIsLow(policy);
    UnremarkableItemSaysNothing(QUIET, policy);
  }

  lemma QuietIsSeen(policy: Policy)
    requires policy.severities.NoTable?
    ensures Digests([QUIET], Seer(policy)) == [RawSeen({}, true, false, Acceptable, Some(true), 1)]
  {
    QuietSaysNothing(policy);
    assert Digests([], Seer(policy)) == [];
  }

  lemma SilentQuestion(s: Seen, suites: seq<Suite>, policy: Policy)
    requires policy.missing == policy.mandatory == []
    requires s == RawSeen({}, true, false, Acceptable, Some(true), 1)
    ensures var q := Question(Some(true), [s], suites, []);
            && BaseVerdicts(q.items) == {} && LateVerdicts(q.items, policy) == {} && OnlyLowTrust(q.items)
            && AddedVerdicts(q) == AllSuiteVerdicts(suites)
  {
    var items := [s];
    assert s in items;
    assert !SomeUnbound(items) && SomeBound(items);
    assert MissingNames(items, policy) == {};
    assert MandatoryMissing(policy) == {};
  }

  /** A completed scan with a finding that no rule speaks of. */
  const REMARK := Suite(true, Some([Scanned(None, 1, false)]), true)

  lemma RemarkWarns()
    ensures AllSuiteVerdicts([REMARK]) == {Warn} && AllSuiteVerdicts([]) == {}
  {
    var e := REMARK.entries.value[0];
    assert e in REMARK.entries.value && EntryVerdicts(e) == {Warn};
    assert SuiteVerdicts(REMARK) == {Warn};
    assert REMARK in [REMARK];
  }

  lemma WeakenedQuestion(s: Seen, policy: Policy)
    requires policy.missing == policy.mandatory == []
    requires s == RawSeen({}, true, false, Acceptable, Some(true), 1)
    ensures GateVerdict(Question(Some(true), [s], [], []), policy) == Unknown
    ensures GateVerdict(Question(Some(true), [s], [REMARK], []), policy) == Warn
  {
    SilentQuestion(s, [], policy);
    SilentQuestion(s, [REMARK], policy);
    RemarkWarns();
    assert AllVerdicts(Question(Some(true), [s], [], []), policy) == {Unknown};
    assert AllVerdicts(Question(Some(true), [s], [REMARK], []), policy) == {Warn};
  }

  /** The quiet item alone is unknown; beside a scanner's remark it is only a warning. */
  lemma AddedEvidenceCanWeaken(policy: Policy)
    requires policy.severities.NoTable? && policy.missing == policy.mandatory == []
    ensures GateVerdict(Ask(Some(true), [QUIET], policy, [], []), policy) == Unknown
    ensures GateVerdict(Ask(Some(true), [QUIET], policy, [REMARK], []), policy) == Warn
  {
    QuietIsSeen(policy);
    WeakenedQuestion(RawSeen({}, true, false, Acceptable, Some(true), 1), policy);
  }

  // ----- allow_limited -----

  lemma WeakestOnlyWhenSilent(candidates: set<Verdict>)
    ensures StrongestOf(candidates) == AllowLimited <==> candidates <= {AllowLimited}
  {
    if !(candidates <= {AllowLimited}) {
      var v :| v in candidates && v != AllowLimited;
      assert v.Warn? || v.Unknown? || v.Quarantine? || v.Block?;
    }
  }

  /** The gate lets something pass only if the decision is well formed, nothing is lacking, and no item, suite, sandbox
      item or missing evidence calls for anything but that. */
  lemma AllowLimitedExactlyWhen(q: Question, policy: Policy)
    ensures GateVerdict(q, policy) == AllowLimited <==>
              && IsWellFormed(q) && !Lacks(q) && Said(q) <= {AllowLimited}
              && Unaccepted(MissingNames(q.items, policy), policy) == {}
  {
    OnlyTheCallersSubjectCounts(q, policy);
    MildExactlyWhen(q, policy);
    WeakestOnlyWhenSilent(AllVerdicts(q, policy));
    var names := Unaccepted(MissingNames(q.items, policy), policy);
    assert MandatoryMissing(policy) <= names;
    if names != {} {
      assert (if BlindToRuntime(names, policy) then Quarantine else Warn) in AllVerdicts(q, policy);
    }
  }
}
