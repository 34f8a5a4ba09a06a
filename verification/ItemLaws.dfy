/** What single evidence items do to the gate's verdict, from the fields of an item to the verdict of
    src/repo_health_doctor/gate/evaluator.py, whatever other evidence there is; and exactly when a question passes. */
module ItemLaws {
  import opened Wrappers
  import opened Verdicts
  import opened GateEvaluator
  import opened GateEvaluation
  import opened GateLaws
  import Text

  // ----- items among others -----

  lemma {:induction false} SeenIsThere(i: Item, items: seq<Item>, see: Item -> Seen)
    requires i in items
    ensures see(i) in Digests(items, see)
  {
    var n := |items| - 1;
    if items[n] != i {
      assert items == items[..n] + [items[n]];
      SeenIsThere(i, items[..n], see);
    }
  }

  /** What the gate sees in one of the items is reached, whatever else there is. */
  lemma SeenVerdictReachesGate(i: Item, items: seq<Item>, see: Item -> Seen, v: Verdict, subject: Option<bool>,
                               policy: Policy, suites: seq<Suite>, sandbox: seq<SandboxItem>)
    requires i in items && v in see(i).verdicts
    ensures AtLeast(GateVerdict(Question(subject, Digests(items, see), suites, sandbox), policy), v)
  {
    var q := Question(subject, Digests(items, see), suites, sandbox);
    SeenIsThere(i, items, see);
    assert v in AllItemVerdicts(q.items);
    CalledForIsReached(q, policy, v);
  }

  lemma SeerIsSeer(policy: Policy)
    ensures IsSeer(Seer(policy), policy)
  {
  }

  lemma ItemVerdictIsSeen(i: Item, v: Verdict, policy: Policy, see: Item -> Seen)
    requires IsSeer(see, policy) && v in ItemVerdicts(i, policy)
    ensures v in see(i).verdicts
  {
    assert See(i, policy).verdicts == ItemVerdicts(i, policy);
  }

  /** Whatever else there is besides the item, the verdict is at least this. */
  ghost predicate Holds(i: Item, policy: Policy, v: Verdict) {
    forall items: seq<Item>, subject, suites, sandbox ::
      i in items ==> AtLeast(GateVerdict(Ask(subject, items, policy, suites, sandbox), policy), v)
  }

  lemma HoldsIfCalledFor(i: Item, policy: Policy, v: Verdict)
    requires v in ItemVerdicts(i, policy)
    ensures Holds(i, policy, v)
  {
    var see := Seer(policy);
    SeerIsSeer(policy);
    ItemVerdictIsSeen(i, v, policy, see);
    forall items: seq<Item>, subject, suites, sandbox | i in items
      ensures AtLeast(GateVerdict(Ask(subject, items, policy, suites, sandbox), policy), v)
    {
      SeenVerdictReachesGate(i, items, see, v, subject, policy, suites, sandbox);
    }
  }

  // ----- what an item says -----

  /** The text is one of those that the gate looks at. */
  predicate Mentions(i: RawItem, text: string) {
    || i.category == Some(text) || i.subcategory == Some(text) || i.severity == Some(text) || i.summary == Some(text)
    || i.redactionStatus == Some(text) || i.effect == Some(text) || text in i.limitations || text in i.residualRisks
  }

  ghost predicate Says(i: RawItem, token: string) {
    exists text :: Mentions(i, text) && NormalizeToken(text) == token
  }

  /** Some token contains the marker, written with underscores. */
  ghost predicate Hints(i: RawItem, marker: string) {
    exists token :: Says(i, token) && Text.Contains(token, Text.Replace(Text.Lower(marker), ' ', '_'))
  }

  lemma MentionedIsToken(i: RawItem, text: string)
    requires Mentions(i, text)
    ensures NormalizeToken(text) in Tokens(i)
  {
  }

  lemma OptionalMention(value: Option<string>, token: string) returns (text: string)
    requires token in OptionalToken(value)
    ensures value == Some(text) && NormalizeToken(text) == token
  {
    text := value.value;
  }

  lemma TokensAreSaid(i: RawItem)
    ensures forall token :: token in Tokens(i) <==> Says(i, token)
  {
    forall token ensures token in Tokens(i) <==> Says(i, token) {
      if token in Tokens(i) {
        TokenIsSaid(i, token);
      }
      if Says(i, token) {
        var text :| Mentions(i, text) && NormalizeToken(text) == token;
        MentionedIsToken(i, text);
      }
    }
  }

  lemma TokenIsSaid(i: RawItem, token: string)
    requires token in Tokens(i)
    ensures Says(i, token)
  {
    var text;
    if token in OptionalToken(i.category) { text := OptionalMention(i.category, token); }
    else if token in OptionalToken(i.subcategory) { text := OptionalMention(i.subcategory, token); }
    else if token in OptionalToken(i.severity) { text := OptionalMention(i.severity, token); }
    else if token in OptionalToken(i.summary) { text := OptionalMention(i.summary, token); }
    else if token in OptionalToken(i.redactionStatus) { text := OptionalMention(i.redactionStatus, token); }
    else if token in OptionalToken(i.effect) { text := OptionalMention(i.effect, token); }
    else if l :| l in i.limitations && NormalizeToken(l) == token { text := l; }
    else { text :| text in i.residualRisks && NormalizeToken(text) == token; }
    assert Mentions(i, text);
  }

  lemma HintsExactlyWhen(i: RawItem, markers: set<string>)
    ensures HasAny(Tokens(i), markers) <==> exists m :: m in markers && Hints(i, m)
  {
    TokensAreSaid(i);
    if HasAny(Tokens(i), markers) {
      var m, t :| m in markers && t in Tokens(i) && Text.Contains(t, Text.Replace(Text.Lower(m), ' ', '_'));
      assert Hints(i, m);
    }
    if m :| m in markers && Hints(i, m) {
      var t :| Says(i, t) && Text.Contains(t, Text.Replace(Text.Lower(m), ' ', '_'));
      assert t in Tokens(i);
    }
  }

  // ----- what single facts about an item call for -----

  /** The recommended effect of an item is heeded. */
  lemma EffectIsHeeded(i: Item, policy: Policy)
    ensures i.effect == Some("block") ==> Holds(i, policy, Block)
    ensures i.effect == Some("quarantine") ==> Holds(i, policy, Quarantine)
    ensures i.effect == Some("warn") ==> Holds(i, policy, Warn)
  {
    if i.effect == Some("block") { HoldsIfCalledFor(i, policy, Block); }
    if i.effect == Some("quarantine") { HoldsIfCalledFor(i, policy, Quarantine); }
    if i.effect == Some("warn") { HoldsIfCalledFor(i, policy, Warn); }
  }

  /** An item that is invalid, claims to authorize, retained raw output, or whose redaction failed is a block. */
  lemma DefectBlocks(i: Item, policy: Policy)
    requires !i.valid || i.authorizes || i.rawRetained || i.redactionStatus == Some("failed")
    ensures Holds(i, policy, Block)
  {
    HoldsIfCalledFor(i, policy, Block);
  }

  /** Nothing found is a warning, and an unbound item is unknown. */
  lemma AbsenceIsHeard(i: Item, policy: Policy)
    ensures i.present == Some(false) ==> Holds(i, policy, Warn)
    ensures i.binding == Unbound ==> Holds(i, policy, Unknown)
  {
    if i.present == Some(false) { HoldsIfCalledFor(i, policy, Warn); }
    if i.binding == Unbound { HoldsIfCalledFor(i, policy, Unknown); }
  }

  lemma HoldsIfBlocking(i: Item, policy: Policy)
    requires HasBlockingSignal(Tokens(i))
    ensures Holds(i, policy, Block)
  {
    HoldsIfCalledFor(i, policy, Block);
  }

  lemma HoldsIfQuarantining(i: Item, policy: Policy)
    requires HasQuarantineSignal(Tokens(i), i.category)
    ensures Holds(i, policy, Quarantine)
  {
    HoldsIfCalledFor(i, policy, Quarantine);
  }

  lemma HoldsIfWarning(i: Item, policy: Policy)
    requires HasWarnSignal(Tokens(i), i)
    ensures Holds(i, policy, Warn)
  {
    HoldsIfCalledFor(i, policy, Warn);
  }

  /** A leaked secret or host path is a block, and so is a text with one of these markers. */
  lemma LeakBlocks(i: Item, policy: Policy, marker: string)
    requires
      || Says(i, "raw_secret_leak") || Says(i, "raw_host_path_leak")
      || (Hints(i, marker)
          && marker in {"raw secret leakage", "raw host path leak", "expected commit mismatch", "approval mismatch",
                        "policy violation that attempted execution without approval",
                        "network allowed during target scan", "docker socket mount", "host home mount",
                        "credential mount"})
    ensures Holds(i, policy, Block)
  {
    TokensAreSaid(i);
    HintsExactlyWhen(i, BLOCKING_MARKERS);
    HoldsIfBlocking(i, policy);
  }

  /** A text with one of these markers is a quarantine. */
  lemma MarkerQuarantines(i: Item, policy: Policy, marker: string)
    requires Hints(i, marker)
    requires marker in {"verified_secret", "credential_access_network", "install_download_exec",
                        "obfuscation_eval_network", "ci_token_abuse_chain", "pull_request_target_untrusted_checkout",
                        "docker_socket_subprocess", "critical_vulnerability_runtime",
                        "observer_degraded_risky_execution"}
    ensures Holds(i, policy, Quarantine)
  {
    HintsExactlyWhen(i, QUARANTINE_MARKERS);
    HoldsIfQuarantining(i, policy);
  }

  /** The chains of tokens that call for a quarantine. */
  ghost predicate SaysChain(i: RawItem) {
    || (i.category == Some("secret") && Says(i, "verified_secret"))
    || (Says(i, "credential_path_reference") && (Says(i, "network_request") || Says(i, "network_attempt")))
    || (Says(i, "install_script_execution") && Says(i, "download_exec_chain"))
    || (Says(i, "obfuscation") && Says(i, "dynamic_eval") && Says(i, "network_request"))
    || (Says(i, "pull_request_target_misuse") && Says(i, "untrusted_checkout"))
    || (exists t :: Says(i, t) && Text.Contains(t, "pull_request_target_misuse") && Text.Contains(t, "untrusted_checkout"))
    || (Says(i, "broad_token_permission") && Says(i, "unpinned_action"))
    || (Says(i, "docker_socket_reference") && Says(i, "subprocess_indicator"))
    || (Says(i, "known_critical_vulnerability") && Says(i, "suspicious_runtime_behavior"))
  }

  /** The same of a set of tokens. */
  predicate HasChain(tokens: set<string>, category: Option<string>) {
    || (category == Some("secret") && "verified_secret" in tokens)
    || ("credential_path_reference" in tokens && ("network_request" in tokens || "network_attempt" in tokens))
    || ("install_script_execution" in tokens && "download_exec_chain" in tokens)
    || ("obfuscation" in tokens && "dynamic_eval" in tokens && "network_request" in tokens)
    || ("pull_request_target_misuse" in tokens && "untrusted_checkout" in tokens)
    || (exists t :: t in tokens && Text.Contains(t, "pull_request_target_misuse") && Text.Contains(t, "untrusted_checkout"))
    || ("broad_token_permission" in tokens && "unpinned_action" in tokens)
    || ("docker_socket_reference" in tokens && "subprocess_indicator" in tokens)
    || ("known_critical_vulnerability" in tokens && "suspicious_runtime_behavior" in tokens)
  }

  lemma ChainIsSignal(tokens: set<string>, category: Option<string>)
    ensures HasQuarantineSignal(tokens, category) <==> HasAny(tokens, QUARANTINE_MARKERS) || HasChain(tokens, category)
  {
  }

  lemma SaidChainIsChain(i: RawItem, tokens: set<string>)
    requires forall token :: token in tokens <==> Says(i, token)
    ensures HasChain(tokens, i.category) <==> SaysChain(i)
  {
  }

  lemma QuarantineSignalExactlyWhen(i: RawItem)
    ensures HasQuarantineSignal(Tokens(i), i.category) <==> HasAny(Tokens(i), QUARANTINE_MARKERS) || SaysChain(i)
  {
    TokensAreSaid(i);
    SaidChainIsChain(i, Tokens(i));
    ChainIsSignal(Tokens(i), i.category);
  }

  lemma ChainQuarantines(i: Item, policy: Policy)
    requires SaysChain(i)
    ensures Holds(i, policy, Quarantine)
  {
    QuarantineSignalExactlyWhen(i);
    HoldsIfQuarantining(i, policy);
  }

  /** A known vulnerability, a low posture, an unsupported version, or a text with one of these markers is a warning. */
  lemma RemarkWarnsAlone(i: Item, policy: Policy, marker: string)
    requires
      || i.category == Some("known_vulnerability") || i.subcategory == Some("low_repo_posture")
      || i.subcategory == Some("unsupported_scanner_version")
      || (Hints(i, marker)
          && marker in {"tool unavailable", "tool output parse failed", "known_vulnerability", "low_repo_posture",
                        "unsupported_scanner_version", "dirty workspace binding",
                        "content digest binding without commit"})
    ensures Holds(i, policy, Warn)
  {
    HintsExactlyWhen(i, WARN_MARKERS);
    HoldsIfWarning(i, policy);
  }

  // ----- limitations -----

  /** A pattern occurs in the limitation, whatever the case of the letters. */
  predicate Matches(patterns: seq<string>, limitation: string) {
    exists p :: p in patterns && Text.Contains(Text.Lower(limitation), Text.Lower(p))
  }

  /** No pattern of the policy's table, if it has one, speaks of the limitation. */
  predicate IsUnlisted(limitation: string, table: SeverityTable) {
    table.Table? ==>
      && !Matches(table.critical, limitation) && !Matches(table.high, limitation)
      && !Matches(table.medium, limitation) && !Matches(table.low, limitation)
  }

  predicate SaysCritical(limitation: string) {
    var text := Text.Lower(limitation);
    Text.Contains(text, "critical") || Text.Contains(text, "mismatch") || Text.Contains(text, "raw output retained")
  }

  predicate SaysHigh(limitation: string) {
    var text := Text.Lower(limitation);
    Text.Contains(text, "runtime observer") || Text.Contains(text, "degraded") || Text.Contains(text, "unavailable")
  }

  predicate SaysMedium(limitation: string) {
    var text := Text.Lower(limitation);
    Text.Contains(text, "missing") || Text.Contains(text, "unverified") || Text.Contains(text, "parse failed")
  }

  predicate IsCritical(limitation: string, table: SeverityTable) {
    if IsUnlisted(limitation, table) then SaysCritical(limitation) else Matches(table.critical, limitation)
  }

  predicate IsHigh(limitation: string, table: SeverityTable) {
    || IsCritical(limitation, table)
    || if IsUnlisted(limitation, table) then SaysHigh(limitation) else Matches(table.high, limitation)
  }

  predicate IsMedium(limitation: string, table: SeverityTable) {
    || IsHigh(limitation, table)
    || if IsUnlisted(limitation, table) then SaysMedium(limitation) else Matches(table.medium, limitation)
  }

  lemma PatternsMatch(patterns: seq<string>, limitation: string)
    ensures AnyIn(patterns, Text.Lower(limitation)) <==> Matches(patterns, limitation)
  {
  }

  lemma SeverityExactlyWhen(limitation: string, policy: Policy)
    ensures var v := LimitationVerdict(limitation, policy);
            && (v == Block <==> IsCritical(limitation, policy.severities))
            && (v in {Quarantine, Block} <==> IsHigh(limitation, policy.severities))
            && (v != AllowLimited <==> IsMedium(limitation, policy.severities))
  {
    var table := policy.severities;
    if table.Table? {
      PatternsMatch(table.critical, limitation);
      PatternsMatch(table.high, limitation);
      PatternsMatch(table.medium, limitation);
      PatternsMatch(table.low, limitation);
    }
  }

  lemma HoldsIfLimited(i: Item, limitation: string, policy: Policy)
    requires limitation in i.limitations && LimitationVerdict(limitation, policy) != AllowLimited
    ensures Holds(i, policy, LimitationVerdict(limitation, policy))
  {
    var v := LimitationVerdict(limitation, policy);
    assert v in LimitationVerdicts(i.limitations, policy);
    HoldsIfCalledFor(i, policy, v);
  }

  lemma WeakerHolds(i: Item, policy: Policy, v: Verdict, w: Verdict)
    requires Holds(i, policy, v) && AtLeast(v, w)
    ensures Holds(i, policy, w)
  {
    forall items: seq<Item>, subject, suites, sandbox | i in items
      ensures AtLeast(GateVerdict(Ask(subject, items, policy, suites, sandbox), policy), w)
    {
      assert AtLeast(GateVerdict(Ask(subject, items, policy, suites, sandbox), policy), v);
    }
  }

  /** A critical limitation of an item is a block, a high one at least a quarantine, a medium one at least a warning: by
      the policy's table, or by the words in it if the table does not list it. */
  lemma LimitationIsHeeded(i: Item, limitation: string, policy: Policy)
    requires limitation in i.limitations
    ensures IsCritical(limitation, policy.severities) ==> Holds(i, policy, Block)
    ensures IsHigh(limitation, policy.severities) ==> Holds(i, policy, Quarantine)
    ensures IsMedium(limitation, policy.severities) ==> Holds(i, policy, Warn)
  {
    SeverityExactlyWhen(limitation, policy);
    if LimitationVerdict(limitation, policy) != AllowLimited {
      HoldsIfLimited(i, limitation, policy);
    }
    HeldDown(i, policy, LimitationVerdict(limitation, policy));
  }

  lemma HeldDown(i: Item, policy: Policy, v: Verdict)
    requires v != AllowLimited ==> Holds(i, policy, v)
    ensures v == Block ==> Holds(i, policy, Block)
    ensures v in {Quarantine, Block} ==> Holds(i, policy, Quarantine)
    ensures v != AllowLimited ==> Holds(i, policy, Warn)
  {
    if v in {Quarantine, Block} { WeakerHolds(i, policy, v, Quarantine); }
    if v != AllowLimited { WeakerHolds(i, policy, v, Warn); }
  }

  // ----- items that say nothing -----

  predicate HasNoDefect(i: RawItem) {
    && i.valid && !i.authorizes && !i.rawRetained && i.redactionStatus != Some("failed")
    && i.effect != Some("block") && i.effect != Some("quarantine") && i.effect != Some("warn")
    && i.present != Some(false) && i.binding != Unbound
  }

  ghost predicate HintsAtAny(i: RawItem, markers: set<string>) {
    exists m :: m in markers && Hints(i, m)
  }

  ghost predicate SaysNoBlock(i: RawItem) {
    !Says(i, "raw_secret_leak") && !Says(i, "raw_host_path_leak") && !HintsAtAny(i, BLOCKING_MARKERS)
  }

  ghost predicate SaysNoQuarantine(i: RawItem) {
    !SaysChain(i) && !HintsAtAny(i, QUARANTINE_MARKERS)
  }

  ghost predicate SaysNoWarning(i: RawItem) {
    && i.category != Some("known_vulnerability") && i.subcategory != Some("low_repo_posture")
    && i.subcategory != Some("unsupported_scanner_version") && !HintsAtAny(i, WARN_MARKERS)
  }

  /** None of the facts above holds of the item. */
  ghost predicate IsUnremarkable(i: RawItem, policy: Policy) {
    && HasNoDefect(i) && SaysNoBlock(i) && SaysNoQuarantine(i) && SaysNoWarning(i)
    && forall l :: l in i.limitations ==> !IsMedium(l, policy.severities)
  }

  lemma NoBlockingSignal(i: RawItem)
    ensures SaysNoBlock(i) <==> !HasBlockingSignal(Tokens(i))
  {
    TokensAreSaid(i);
    HintsExactlyWhen(i, BLOCKING_MARKERS);
  }

  lemma NoQuarantineSignal(i: RawItem)
    ensures SaysNoQuarantine(i) <==> !HasQuarantineSignal(Tokens(i), i.category)
  {
    QuarantineSignalExactlyWhen(i);
    HintsExactlyWhen(i, QUARANTINE_MARKERS);
  }

  lemma NoWarnSignal(i: RawItem)
    ensures SaysNoWarning(i) <==> !HasWarnSignal(Tokens(i), i)
  {
    HintsExactlyWhen(i, WARN_MARKERS);
  }

  lemma MildLimitationsExactlyWhen(limitations: seq<string>, policy: Policy)
    ensures LimitationVerdicts(limitations, policy) == {} <==>
              forall l :: l in limitations ==> !IsMedium(l, policy.severities)
  {
    forall l | l in limitations
      ensures LimitationVerdict(l, policy) != AllowLimited <==> IsMedium(l, policy.severities)
      ensures LimitationVerdict(l, policy) != AllowLimited ==>
                LimitationVerdict(l, policy) in LimitationVerdicts(limitations, policy)
    {
      SeverityExactlyWhen(l, policy);
    }
    if v :| v in LimitationVerdicts(limitations, policy) {
      var l :| l in limitations && LimitationVerdict(l, policy) == v;
      assert IsMedium(l, policy.severities);
    }
  }

  lemma CallsForNothingExactlyWhen(i: RawItem, blocking: bool, quarantine: bool, warn: bool, limited: set<Verdict>)
    ensures VerdictsFrom(i, blocking, quarantine, warn, limited) == {} <==>
              HasNoDefect(i) && !blocking && !quarantine && !warn && limited == {}
  {
    var verdicts := VerdictsFrom(i, blocking, quarantine, warn, limited);
    if WantsBlock(i, blocking) { assert Block in verdicts; }
    if WantsQuarantine(i, quarantine) { assert Quarantine in verdicts; }
    if WantsWarning(i, warn) { assert Warn in verdicts; }
    if i.binding == Unbound { assert Unknown in verdicts; }
  }

  lemma UnremarkableExactlyWhen(i: RawItem, policy: Policy)
    ensures ItemVerdicts(i, policy) == {} <==> IsUnremarkable(i, policy)
  {
    NoBlockingSignal(i);
    NoQuarantineSignal(i);
    NoWarnSignal(i);
    CallsForNothingExactlyWhen(i, !SaysNoBlock(i), !SaysNoQuarantine(i), !SaysNoWarning(i),
                               LimitationVerdicts(i.limitations, policy));
    MildLimitationsExactlyWhen(i.limitations, policy);
  }

  lemma MissingNamesShrink(items: seq<Seen>, s: Seen, policy: Policy)
    requires s.binding != Unbound
    ensures Unaccepted(MissingNames(items + [s], policy), policy) <= Unaccepted(MissingNames(items, policy), policy)
  {
    assert forall x :: x in items + [s] <==> x in items || x == s;
  }

  lemma MissingVerdictsShrink(items: seq<Seen>, s: Seen, policy: Policy, v: Verdict)
    requires s.binding != Unbound && v in MissingVerdicts(items + [s], policy)
    ensures exists w :: w in MissingVerdicts(items, policy) && AtLeast(w, v)
  {
    MissingNamesShrink(items, s, policy);
    var names, fewer :=
      Unaccepted(MissingNames(items, policy), policy), Unaccepted(MissingNames(items + [s], policy), policy);
    if v == Unknown {
      assert Unknown in MissingVerdicts(items, policy);
    } else if BlindToRuntime(names, policy) {
      assert Quarantine in MissingVerdicts(items, policy);
    } else {
      assert !BlindToRuntime(fewer, policy);
      assert Warn in MissingVerdicts(items, policy);
    }
  }

  lemma LackShrinks(q: Question, s: Seen)
    requires s.verdicts == {} && s.binding == Acceptable && Lacks(Extended(q, [s], [], []))
    ensures Lacks(q)
  {
    var r := Extended(q, [s], [], []);
    assert r.suites == q.suites && r.sandbox == q.sandbox;
    assert forall x :: x in r.items <==> x in q.items || x == s;
    assert s in r.items;
  }

  lemma SilentItemSaysNothing(q: Question, s: Seen)
    requires s.verdicts == {}
    ensures Said(Extended(q, [s], [], [])) == Said(q)
    ensures IsWellFormed(Extended(q, [s], [], [])) <==> IsWellFormed(q)
  {
    var r := Extended(q, [s], [], []);
    assert r.suites == q.suites && r.sandbox == q.sandbox;
    assert forall x :: x in r.items <==> x in q.items || x == s;
  }

  lemma CallIsMatched(q: Question, s: Seen, policy: Policy, v: Verdict)
    requires s.verdicts == {} && s.binding == Acceptable && v in AllVerdicts(Extended(q, [s], [], []), policy)
    ensures AtLeast(GateVerdict(q, policy), v)
  {
    var r := Extended(q, [s], [], []);
    CallsAre(r, policy);
    CallsAre(q, policy);
    SilentItemSaysNothing(q, s);
    if v in Said(r) {
      CalledForIsReached(q, policy, v);
    } else if v in MissingVerdicts(r.items, policy) {
      MissingVerdictsShrink(q.items, s, policy, v);
      var w :| w in MissingVerdicts(q.items, policy) && AtLeast(w, v);
      CalledForIsReached(q, policy, w);
    } else {
      LackShrinks(q, s);
      CalledForIsReached(q, policy, Unknown);
    }
  }

  lemma CallsAre(q: Question, policy: Policy)
    ensures AllVerdicts(q, policy) == Said(q) + When(Lacks(q), Unknown) + MissingVerdicts(q.items, policy)
  {
  }

  lemma StrongestIsNoMore(q: Question, verdicts: set<Verdict>, v: Verdict)
    requires forall w :: w in verdicts ==> AtLeast(v, w)
    ensures AtLeast(v, StrongestOf(verdicts))
  {
  }

  lemma SilentSeenAddsNothing(q: Question, s: Seen, policy: Policy)
    requires s.verdicts == {} && s.binding == Acceptable
    ensures AtLeast(GateVerdict(q, policy), GateVerdict(Extended(q, [s], [], []), policy))
  {
    var r := Extended(q, [s], [], []);
    OnlyTheCallersSubjectCounts(q, policy);
    OnlyTheCallersSubjectCounts(r, policy);
    SilentItemSaysNothing(q, s);
    forall w | w in AllVerdicts(r, policy) ensures AtLeast(GateVerdict(q, policy), w) {
      CallIsMatched(q, s, policy, w);
    }
    StrongestIsNoMore(q, AllVerdicts(r, policy), GateVerdict(q, policy));
  }

  lemma AskWithOneMore(subject: Option<bool>, items: seq<Item>, i: Item, policy: Policy, suites: seq<Suite>,
                       sandbox: seq<SandboxItem>)
    ensures Ask(subject, items + [i], policy, suites, sandbox) ==
            Extended(Ask(subject, items, policy, suites, sandbox), [See(i, policy)], [], [])
  {
    assert (items + [i])[..|items|] == items;
    assert suites + [] == suites && sandbox + [] == sandbox;
  }

  /** An unremarkable item never makes a verdict stronger. */
  lemma UnremarkableItemAddsNothing(subject: Option<bool>, items: seq<Item>, i: Item, policy: Policy, suites: seq<Suite>,
                                    sandbox: seq<SandboxItem>)
    requires IsUnremarkable(i, policy)
    ensures AtLeast(GateVerdict(Ask(subject, items, policy, suites, sandbox), policy),
                    GateVerdict(Ask(subject, items + [i], policy, suites, sandbox), policy))
  {
    UnremarkableExactlyWhen(i, policy);
    AskWithOneMore(subject, items, i, policy, suites, sandbox);
    SilentSeenAddsNothing(Ask(subject, items, policy, suites, sandbox), See(i, policy), policy);
  }

  // ----- when a question passes -----

  /** Every missing evidence that the policy names is accepted by it. */
  predicate AcceptsWhatIsMissing(policy: Policy) {
    && (forall n :: n in policy.missing ==> n in policy.acceptedMissing)
    && (forall n :: n in policy.mandatory ==> n in policy.acceptedMissing)
  }

  lemma NothingMissingExactlyWhen(items: seq<Seen>, policy: Policy)
    requires items != [] && !SomeUnbound(items)
    ensures Unaccepted(MissingNames(items, policy), policy) == {} <==> AcceptsWhatIsMissing(policy)
  {
    var names := Unaccepted(MissingNames(items, policy), policy);
    assert MissingNames(items, policy) == (set n | n in policy.missing) + (set n | n in policy.mandatory);
    if names == {} {
      forall n | n in policy.missing || n in policy.mandatory ensures n in policy.acceptedMissing {
        assert n in MissingNames(items, policy);
        assert n !in names;
      }
    }
  }

  lemma NothingAllows(i: RawItem, blocking: bool, quarantine: bool, warn: bool, limited: set<Verdict>)
    requires AllowLimited !in limited
    ensures AllowLimited !in VerdictsFrom(i, blocking, quarantine, warn, limited)
  {
  }

  lemma NoItemAllows(i: RawItem, policy: Policy)
    ensures AllowLimited !in ItemVerdicts(i, policy)
  {
    NothingAllows(i, HasBlockingSignal(Tokens(i)), HasQuarantineSignal(Tokens(i), i.category),
                  HasWarnSignal(Tokens(i), i), LimitationVerdicts(i.limitations, policy));
  }

  /** What is seen of an item, as far as passing goes. */
  predicate SeenAs(s: Seen, i: Item, unremarkable: bool) {
    && (s.verdicts <= {AllowLimited} <==> unremarkable) && (s.verdicts == {} <==> unremarkable)
    && s.binding == i.binding && s.lowTrust == i.lowTrust && s.runtime == i.runtime
  }

  lemma ItemIsSeenAs(i: Item, policy: Policy, see: Item -> Seen)
    requires IsSeer(see, policy)
    ensures SeenAs(see(i), i, ItemVerdicts(i, policy) == {})
  {
    assert see(i) == See(i, policy);
    NoItemAllows(i, policy);
  }

  /** Some item is bound to a commit, a tree, a snapshot or a path. */
  predicate SomeItemBound(items: seq<Item>) {
    exists i :: i in items && i.binding == Acceptable
  }

  /** Some item is trusted more than lowly, or observed a run. */
  predicate SomeItemTrusted(items: seq<Item>) {
    exists i :: i in items && (!i.lowTrust || i.runtime)
  }

  ghost predicate AllUnremarkable(items: seq<Item>, quiet: Item -> bool) {
    forall i :: i in items ==> quiet(i)
  }

  lemma DigestsAre(items: seq<Item>, see: Item -> Seen, quiet: Item -> bool)
    requires forall i :: i in items ==> SeenAs(see(i), i, quiet(i))
    ensures var seen := Digests(items, see);
            && (SomeBound(seen) <==> SomeItemBound(items))
            && (OnlyLowTrust(seen) <==> items != [] && !SomeItemTrusted(items))
            && (AllItemVerdicts(seen) <= {AllowLimited} <==> AllUnremarkable(items, quiet))
            && (AllUnremarkable(items, quiet) ==> AllItemVerdicts(seen) == {})
  {
    var seen := Digests(items, see);
    forall s ensures s in seen <==> exists i :: i in items && see(i) == s {
      DigestMembers(items, see, s);
    }
    forall i | i in items ensures see(i) in seen {
    }
    if AllItemVerdicts(seen) <= {AllowLimited} {
      forall i | i in items ensures quiet(i) {
        assert forall v :: v in see(i).verdicts ==> v in AllItemVerdicts(seen);
      }
    }
  }

  lemma NoneUnbound(items: seq<Item>, see: Item -> Seen, quiet: Item -> bool)
    requires forall i :: i in items ==> SeenAs(see(i), i, quiet(i))
    requires AllUnremarkable(items, quiet) && forall i :: i in items && quiet(i) ==> i.binding != Unbound
    ensures !SomeUnbound(Digests(items, see))
  {
    forall s | s in Digests(items, see) ensures s.binding != Unbound {
      DigestMembers(items, see, s);
    }
  }

  /** What suites and sandbox items call for. */
  function OthersSay(suites: seq<Suite>, sandbox: seq<SandboxItem>): set<Verdict> {
    AllSuiteVerdicts(suites) + AllSandboxVerdicts(sandbox)
  }

  predicate ReferencesOk(suites: seq<Suite>, sandbox: seq<SandboxItem>) {
    && |suites| + ValidatedCount(sandbox) <= 16
    && (forall s :: s in suites ==> s.refOk) && (forall i :: i in sandbox ==> i.refOk != Some(false))
  }

  lemma SeenPassesExactlyWhen(subject: Option<bool>, items: seq<Item>, see: Item -> Seen, quiet: Item -> bool,
                              policy: Policy, suites: seq<Suite>, sandbox: seq<SandboxItem>)
    requires forall i :: i in items ==> SeenAs(see(i), i, quiet(i))
    requires forall i :: i in items && quiet(i) ==> i.binding != Unbound
    ensures GateVerdict(Question(subject, Digests(items, see), suites, sandbox), policy) == AllowLimited <==>
              && subject != Some(false) && ReferencesOk(suites, sandbox)
              && SomeItemBound(items) && AllUnremarkable(items, quiet)
              && OthersSay(suites, sandbox) <= {AllowLimited}
              && (SomeItemTrusted(items) || OthersSay(suites, sandbox) != {})
              && AcceptsWhatIsMissing(policy)
  {
    var q := Question(subject, Digests(items, see), suites, sandbox);
    AllowLimitedExactlyWhen(q, policy);
    DigestsAre(items, see, quiet);
    if AllUnremarkable(items, quiet) {
      NoneUnbound(items, see, quiet);
      if items != [] {
        NothingMissingExactlyWhen(q.items, policy);
      }
    }
  }

  /** The gate passes exactly if the caller's subject and all references are well formed, some item is bound, no item is
      remarkable, nothing else calls for anything, not all there is is silent low-trust evidence, and the policy accepts
      whatever it names as missing. */
  lemma PassesExactlyWhen(subject: Option<bool>, items: seq<Item>, policy: Policy, suites: seq<Suite>,
                          sandbox: seq<SandboxItem>)
    ensures GateVerdict(Ask(subject, items, policy, suites, sandbox), policy) == AllowLimited <==>
              && subject != Some(false) && ReferencesOk(suites, sandbox)
              && SomeItemBound(items) && (forall i :: i in items ==> IsUnremarkable(i, policy))
              && OthersSay(suites, sandbox) <= {AllowLimited}
              && (SomeItemTrusted(items) || OthersSay(suites, sandbox) != {})
              && AcceptsWhatIsMissing(policy)
  {
    var quiet := (i: Item) => ItemVerdicts(i, policy) == {};
    SeerIsSeer(policy);
    forall i: Item
      ensures SeenAs(Seer(policy)(i), i, quiet(i))
      ensures quiet(i) <==> IsUnremarkable(i, policy)
    {
      ItemIsSeenAs(i, policy, Seer(policy));
      UnremarkableExactlyWhen(i, policy);
    }
    SeenPassesExactlyWhen(subject, items, Seer(policy), quiet, policy, suites, sandbox);
  }

  // ----- what missing evidence calls for -----

  /** Missing evidence that the policy names and does not accept is a warning, mandatory evidence is unknown, and runtime
      evidence that a dynamic judgment needs is a quarantine. Without evidence, or without a bound item, the verdict is at
      least unknown. */
  lemma MissingEvidenceIsHeard(subject: Option<bool>, items: seq<Item>, policy: Policy, suites: seq<Suite>,
                               sandbox: seq<SandboxItem>, name: string)
    ensures var v := GateVerdict(Ask(subject, items, policy, suites, sandbox), policy);
            && ((name in policy.missing || name in policy.mandatory) && name !in policy.acceptedMissing ==>
                  && AtLeast(v, Warn)
                  && (name in policy.mandatory ==> AtLeast(v, Unknown))
                  && (policy.dynamicJudgment && (Text.Contains(name, "runtime") || Text.Contains(name, "observer")) ==>
                        AtLeast(v, Quarantine)))
            && (!SomeItemBound(items) ==> AtLeast(v, Unknown))
            && (subject == Some(false) || !ReferencesOk(suites, sandbox) ==> v == Block)
  {
    var q := Ask(subject, items, policy, suites, sandbox);
    MissingIsHeard(q, policy, name);
    if !SomeItemBound(items) {
      UnboundIsUnknown(subject, items, policy, suites, sandbox);
    }
    MalformedBlocks(q, policy);
  }

  lemma UnboundIsUnknown(subject: Option<bool>, items: seq<Item>, policy: Policy, suites: seq<Suite>,
                         sandbox: seq<SandboxItem>)
    requires !SomeItemBound(items)
    ensures AtLeast(GateVerdict(Ask(subject, items, policy, suites, sandbox), policy), Unknown)
  {
    var q := Ask(subject, items, policy, suites, sandbox);
    forall s | s in q.items ensures s.binding != Acceptable {
      DigestMembers(items, Seer(policy), s);
    }
    CalledForIsReached(q, policy, Unknown);
  }

  lemma MalformedBlocks(q: Question, policy: Policy)
    ensures q.subject == Some(false) || !ReferencesOk(q.suites, q.sandbox) ==> GateVerdict(q, policy) == Block
  {
  }

  lemma MissingIsHeard(q: Question, policy: Policy, name: string)
    ensures (name in policy.missing || name in policy.mandatory) && name !in policy.acceptedMissing ==>
              var v := GateVerdict(q, policy);
              && AtLeast(v, Warn)
              && (name in policy.mandatory ==> AtLeast(v, Unknown))
              && (policy.dynamicJudgment && MentionsRuntime(name) ==> AtLeast(v, Quarantine))
  {
    if (name in policy.missing || name in policy.mandatory) && name !in policy.acceptedMissing {
      var names := Unaccepted(MissingNames(q.items, policy), policy);
      assert name in names;
      MissingNamesCallForWarning(q.items, policy);
      CallsAre(q, policy);
      WarningIsReached(q, policy);
      if name in policy.mandatory {
        assert name in MandatoryMissing(policy);
        CalledForIsReached(q, policy, Unknown);
      }
      if policy.dynamicJudgment && MentionsRuntime(name) {
        assert BlindToRuntime(names, policy);
        CalledForIsReached(q, policy, Quarantine);
      }
    }
  }
}
