/** `evaluate_gate_decision` as the source runs it, and what holds of its verdict over all questions. */
module GateEvaluation {
  import opened Wrappers
  import opened Verdicts
  import opened GateEvaluator

  // ----- the evaluation -----

  lemma AsSetAppend(a: seq<Verdict>, b: seq<Verdict>)
    ensures AsSet(a + b) == AsSet(a) + AsSet(b)
  {
  }

  /** `if condition: candidates.append(v)`. */
  function AppendWhen(candidates: seq<Verdict>, condition: bool, v: Verdict): (r: seq<Verdict>)
    ensures AsSet(r) == AsSet(candidates) + When(condition, v)
  {
    AsSetAppend(candidates, [v]);
    if condition then candidates + [v] else candidates
  }

  method LimitationCandidates(limitations: seq<string>, policy: Policy) returns (candidates: seq<Verdict>)
    ensures AsSet(candidates) == LimitationVerdicts(limitations, policy)
  {
    candidates := [];
    for n := 0 to |limitations|
      invariant AsSet(candidates) == LimitationVerdicts(limitations[..n], policy)
    {
      var v := LimitationVerdict(limitations[n], policy);
      assert limitations[..n + 1] == limitations[..n] + [limitations[n]];
      assert LimitationVerdicts(limitations[..n + 1], policy) ==
             LimitationVerdicts(limitations[..n], policy) + When(v != AllowLimited, v);
      candidates := AppendWhen(candidates, v != AllowLimited, v);
    }
    assert limitations[..|limitations|] == limitations;
  }

  method BlockCandidates(i: RawItem, signal: bool) returns (candidates: seq<Verdict>)
    ensures AsSet(candidates) == When(WantsBlock(i, signal), Block)
  {
    candidates := AppendWhen([], !i.valid, Block);
    candidates := AppendWhen(candidates, i.authorizes, Block);
    candidates := AppendWhen(candidates, i.rawRetained, Block);
    candidates := AppendWhen(candidates, i.redactionStatus == Some("failed"), Block);
    candidates := AppendWhen(candidates, i.effect == Some("block"), Block);
    candidates := AppendWhen(candidates, signal, Block);
  }

  method LesserCandidates(i: RawItem, quarantineSignal: bool, warnSignal: bool) returns (candidates: seq<Verdict>)
    ensures AsSet(candidates) ==
            When(WantsQuarantine(i, quarantineSignal), Quarantine) + When(WantsWarning(i, warnSignal), Warn)
  {
    candidates := AppendWhen([], i.effect == Some("quarantine"), Quarantine);
    candidates := AppendWhen(candidates, i.effect == Some("warn"), Warn);
    candidates := AppendWhen(candidates, quarantineSignal, Quarantine);
    candidates := AppendWhen(candidates, warnSignal, Warn);
    candidates := AppendWhen(candidates, i.present == Some(false), Warn);
    candidates := AppendWhen(candidates, i.lowTrust && i.present == Some(false), Warn);
  }

  /** The candidates that one item adds. */
  method ItemCandidates(i: RawItem, policy: Policy) returns (candidates: seq<Verdict>)
    ensures AsSet(candidates) == ItemVerdicts(i, policy)
  {
    var tokens := Tokens(i);
    var blocking := BlockCandidates(i, HasBlockingSignal(tokens));
    var lesser := LesserCandidates(i, HasQuarantineSignal(tokens, i.category), HasWarnSignal(tokens, i));
    var fromLimitations := LimitationCandidates(i.limitations, policy);
    AsSetAppend(blocking, lesser);
    candidates := AppendWhen(blocking + lesser, i.binding == Unbound, Unknown);
    AsSetAppend(candidates, fromLimitations);
    candidates := candidates + fromLimitations;
  }

  /** `see` is what the gate sees under the policy; stated so that it is used only where `See` is spoken of. */
  ghost predicate IsSeer(see: Item -> Seen, policy: Policy) {
    forall i: Item {:trigger See(i, policy)} :: see(i) == See(i, policy)
  }

  /** Everything the item loop takes from one item. */
  method LookAt(i: Item, policy: Policy, ghost see: Item -> Seen)
    returns (own: seq<Verdict>, lowTrust: bool, findings: int)
    requires IsSeer(see, policy)
    ensures AsSet(own) == see(i).verdicts
    ensures lowTrust == (see(i).lowTrust && !see(i).runtime) && findings == see(i).findings
    ensures i.binding == see(i).binding
  {
    own := ItemCandidates(i, policy);
    lowTrust, findings := i.lowTrust && !i.runtime, if i.present == Some(true) then i.count else 0;
    assert see(i) == See(i, policy);
  }

  /** What the item loop accumulates. */
  datatype ItemFacts = ItemFacts(candidates: seq<Verdict>, onlyLowTrust: bool, anyBinding: bool, anyUnbound: bool,
                                 findings: int)

  predicate Summarizes(f: ItemFacts, items: seq<Seen>) {
    && AsSet(f.candidates) == AllItemVerdicts(items)
    && (f.onlyLowTrust <==> forall i :: i in items ==> i.lowTrust && !i.runtime)
    && (f.anyBinding <==> SomeBound(items))
    && (f.anyUnbound <==> SomeUnbound(items))
    && (f.findings < 0 ==> Block in f.candidates)
  }

  function Grown(f: ItemFacts, own: seq<Verdict>, lowTrust: bool, binding: Binding, findings: int): ItemFacts {
    ItemFacts(f.candidates + own, f.onlyLowTrust && lowTrust, f.anyBinding || binding == Acceptable,
              f.anyUnbound || binding == Unbound, f.findings + findings)
  }

  lemma SummaryGrows(f: ItemFacts, items: seq<Seen>, own: seq<Verdict>, s: Seen)
    requires Summarizes(f, items) && AsSet(own) == s.verdicts
    ensures Summarizes(Grown(f, own, s.lowTrust && !s.runtime, s.binding, s.findings), items + [s])
  {
    AsSetAppend(f.candidates, own);
    var more := items + [s];
    assert forall x :: x in more <==> x in items || x == s;
    assert AllItemVerdicts(more) == AllItemVerdicts(items) + s.verdicts;
  }

  method ScanItems(items: seq<Item>, policy: Policy, ghost see: Item -> Seen) returns (f: ItemFacts)
    requires IsSeer(see, policy)
    ensures Summarizes(f, Digests(items, see))
  {
    f := ItemFacts([], true, false, false, 0);
    for n := 0 to |items|
      invariant Summarizes(f, Digests(items[..n], see))
    {
      var own, lowTrust, findings := LookAt(items[n], policy, see);
      SummaryGrows(f, Digests(items[..n], see), own, see(items[n]));
      f := Grown(f, own, lowTrust, items[n].binding, findings);
      assert items[..n + 1][..n] == items[..n];
    }
    assert items[..|items|] == items;
  }

  function AppendEntry(candidates: seq<Verdict>, e: SuiteEntry): (r: seq<Verdict>)
    ensures AsSet(r) == AsSet(candidates) + EntryVerdicts(e)
  {
    if !e.Scanned? then AppendWhen(candidates, true, Unknown)
    else
      var first := AppendWhen(candidates, e.unverified, Unknown);
      if e.mapped.Some? then AppendWhen(first, true, e.mapped.value) else AppendWhen(first, e.count != 0, Warn)
  }

  method OneSuite(suite: Suite) returns (candidates: seq<Verdict>)
    ensures AsSet(candidates) == SuiteVerdicts(suite)
  {
    if !suite.valid || suite.entries.None? {
      return [Unknown];
    }
    candidates := [];
    var entries := suite.entries.value;
    for k := 0 to |entries|
      invariant AsSet(candidates) == set e, v | e in entries[..k] && v in EntryVerdicts(e) :: v
    {
      assert entries[..k + 1] == entries[..k] + [entries[k]];
      candidates := AppendEntry(candidates, entries[k]);
    }
    assert entries[..|entries|] == entries;
  }

  method SuiteCandidates(suites: seq<Suite>) returns (candidates: seq<Verdict>)
    ensures AsSet(candidates) == AllSuiteVerdicts(suites)
  {
    candidates := [];
    for n := 0 to |suites|
      invariant AsSet(candidates) == AllSuiteVerdicts(suites[..n])
    {
      var own := OneSuite(suites[n]);
      assert suites[..n + 1] == suites[..n] + [suites[n]];
      AsSetAppend(candidates, own);
      assert AllSuiteVerdicts(suites[..n + 1]) == AllSuiteVerdicts(suites[..n]) + SuiteVerdicts(suites[n]);
      candidates := candidates + own;
    }
    assert suites[..|suites|] == suites;
  }

  method OneSandboxItem(item: SandboxItem) returns (candidates: seq<Verdict>)
    ensures AsSet(candidates) == SandboxVerdicts(item)
  {
    if item.signals.None? || exists s :: s in item.signals.value && s !in SIGNAL_VERDICTS {
      return [SIGNAL_VERDICTS["sandbox_evidence_invalid"]];
    }
    candidates := [];
    var signals := item.signals.value;
    for k := 0 to |signals|
      invariant AsSet(candidates) == set s | s in signals[..k] && s in SIGNAL_VERDICTS :: SIGNAL_VERDICTS[s]
    {
      assert signals[..k + 1] == signals[..k] + [signals[k]];
      candidates := AppendWhen(candidates, true, SIGNAL_VERDICTS[signals[k]]);
    }
    assert signals[..|signals|] == signals;
  }

  method SandboxCandidates(sandbox: seq<SandboxItem>) returns (candidates: seq<Verdict>)
    ensures AsSet(candidates) == AllSandboxVerdicts(sandbox)
  {
    candidates := [];
    for n := 0 to |sandbox|
      invariant AsSet(candidates) == AllSandboxVerdicts(sandbox[..n])
    {
      var own := OneSandboxItem(sandbox[n]);
      assert sandbox[..n + 1] == sandbox[..n] + [sandbox[n]];
      AsSetAppend(candidates, own);
      assert AllSandboxVerdicts(sandbox[..n + 1]) == AllSandboxVerdicts(sandbox[..n]) + SandboxVerdicts(sandbox[n]);
      candidates := candidates + own;
    }
    assert sandbox[..|sandbox|] == sandbox;
  }

  /** The candidates that come after the fallback. */
  method LateCandidates(noItems: bool, anyBinding: bool, anyUnbound: bool, policy: Policy, ghost items: seq<Seen>)
    returns (candidates: seq<Verdict>)
    requires noItems == (items == []) && anyBinding == SomeBound(items) && anyUnbound == SomeUnbound(items)
    ensures AsSet(candidates) == LateVerdicts(items, policy)
  {
    var missing := set n | n in policy.missing;
    if noItems {
      missing := missing + {"all_evidence"};
    }
    if anyUnbound {
      missing := missing + {"commit_or_tree_binding"};
    }
    candidates := AppendWhen([], !anyBinding && !noItems, Unknown);
    var missingMandatory := MandatoryMissing(policy);
    missing := missing + missingMandatory;
    candidates := AppendWhen(candidates, missingMandatory != {}, Unknown);
    var unaccepted := Unaccepted(missing, policy);
    assert unaccepted == Unaccepted(MissingNames(items, policy), policy);
    candidates := AppendWhen(candidates, unaccepted != {} && BlindToRuntime(unaccepted, policy), Quarantine);
    candidates := AppendWhen(candidates, unaccepted != {} && !BlindToRuntime(unaccepted, policy), Warn);
  }

  function Ask(subject: Option<bool>, items: seq<Item>, policy: Policy, suites: seq<Suite>, sandbox: seq<SandboxItem>)
    : Question
  {
    Question(subject, Digests(items, Seer(policy)), suites, sandbox)
  }

  lemma EmptySetMeansNoCandidates(candidates: seq<Verdict>)
    ensures AsSet(candidates) == {} <==> candidates == []
  {
    if candidates != [] { assert candidates[0] in AsSet(candidates); }
  }

  /** The candidates up to the fallback. */
  method EarlyCandidates(f: ItemFacts, noItems: bool, suites: seq<Suite>, sandbox: seq<SandboxItem>, ghost q: Question)
    returns (candidates: seq<Verdict>)
    requires Summarizes(f, q.items) && noItems == (q.items == []) && suites == q.suites && sandbox == q.sandbox
    ensures AsSet(candidates) == BaseVerdicts(q.items) + AddedVerdicts(q)
  {
    candidates := AppendWhen([], noItems, Unknown);
    AsSetAppend(candidates, f.candidates);
    candidates := candidates + f.candidates;
    var fromSuites := SuiteCandidates(suites);
    AsSetAppend(candidates, fromSuites);
    candidates := candidates + fromSuites;
    var fromSandbox := SandboxCandidates(sandbox);
    AsSetAppend(candidates, fromSandbox);
    candidates := candidates + fromSandbox;
  }

  /** Joins all candidates, once the items have been scanned. */
  method JoinCandidates(f: ItemFacts, q: Question, policy: Policy) returns (candidates: seq<Verdict>)
    requires Summarizes(f, q.items)
    ensures AsSet(candidates) == AllVerdicts(q, policy)
  {
    candidates := EarlyCandidates(f, q.items == [], q.suites, q.sandbox, q);
    EmptySetMeansNoCandidates(candidates);
    candidates := AppendWhen(candidates, f.onlyLowTrust && q.items != [] && candidates == [], Unknown);
    var late := LateCandidates(q.items == [], f.anyBinding, f.anyUnbound, policy, q.items);
    AsSetAppend(candidates, late);
    candidates := candidates + late;
  }

  lemma NegativeCountBlocks(f: ItemFacts, q: Question, policy: Policy)
    requires Summarizes(f, q.items) && f.findings < 0
    ensures Block in AllVerdicts(q, policy)
  {
    assert Block in AsSet(f.candidates);
  }

  /** `evaluate_gate_decision`: the verdict of the decision, and whether the decision is well formed. */
  method EvaluateGate(subject: Option<bool>, items: seq<Item>, policy: Policy, suites: seq<Suite>,
                      sandbox: seq<SandboxItem>)
    returns (verdict: Verdict, valid: bool)
    ensures verdict == GateVerdict(Ask(subject, items, policy, suites, sandbox), policy)
    ensures !valid ==> verdict == Block
  {
    var q := Ask(subject, items, policy, suites, sandbox);
    var f := ScanItems(items, policy, Seer(policy));
    var candidates := JoinCandidates(f, q, policy);
    StrongestIsMaximum(candidates);
    verdict := StrongestVerdict(candidates);
    valid := SubjectOk(q) && RefsOk(q) && f.findings >= 0;
    if !valid {
      verdict := Block;
      if f.findings < 0 { NegativeCountBlocks(f, q, policy); }
    }
  }
}
