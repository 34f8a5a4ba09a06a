/** The risk mapper of src/repo_health_doctor/external_scanner/risk_mapper.py: the facts that a scanner's findings,
    evidence nodes and edges state fire rules, and the fired rules' effects become one gate candidate. */
module RiskMapper {
  import opened Wrappers
  import opened Verdicts

  // ----- effects -----

  /** Risk tier effects, in their order. */
  datatype Tier = NoTier | RaiseToT2 | RaiseToT3 | RaiseToT4 | T5Candidate | RaiseToT5

  /** Gate effects, in their order. */
  datatype Effect = EvidenceOnly | RaisesRisk | HumanReview | BlocksLive | DedicatedVm | Quarantined

  function TierRank(t: Tier): nat {
    match t
    case NoTier => 0
    case RaiseToT2 => 1
    case RaiseToT3 => 2
    case RaiseToT4 => 3
    case T5Candidate => 4
    case RaiseToT5 => 5
  }

  function EffectRank(e: Effect): nat {
    match e
    case EvidenceOnly => 0
    case RaisesRisk => 1
    case HumanReview => 2
    case BlocksLive => 3
    case DedicatedVm => 4
    case Quarantined => 5
  }

  const TIER_NAMES := {"none", "raise_to_T2", "raise_to_T3", "raise_to_T4", "T5_candidate", "raise_to_T5"}
  const EFFECT_NAMES := {"evidence_only", "raises_risk", "requires_human_review", "blocks_live_execution",
                         "requires_dedicated_vm", "quarantine"}
  const RULE_NAMES := {"RISK001", "RISK002", "RISK003", "RISK004", "RISK005", "RISK006", "RISK007", "RISK008", "RISK009",
                       "RISK010", "RISK011", "RISK012", "RISK013", "RISK014", "RISK015", "RISK016", "RISK017", "RISK018",
                       "RISK019", "RISK020"}
  const KNOWN_PRIMARY := {"secret", "credential_access", "vulnerability", "malicious_behavior", "ci_cd_risk",
                          "repo_posture", "dependency_risk", "sandbox_escape_risk", "scanner_failure",
                          "redaction_failure", "unknown"}
  const KNOWN_SECONDARY := {"verified_secret", "secret_like_value", "credential_path_reference", "host_home_reference",
                            "known_critical_vulnerability", "install_script_execution", "download_exec_chain",
                            "obfuscation", "dynamic_eval", "network_request", "network_exfiltration_indicator",
                            "docker_socket_reference", "pull_request_target_misuse", "broad_token_permission",
                            "unpinned_action", "dependency_confusion_signal", "low_security_posture",
                            "unsupported_scanner_version", "scanner_timeout", "raw_secret_leak", "raw_host_path_leak",
                            "unknown"}
  const SUPPORTED_RELATIONS := {"same_execution_path", "credential_to_network", "ci_token_to_untrusted_code",
                                "docker_to_host_access", "lifecycle_to_runtime"}

  // ----- scanner documents -----

  /** What a finding or an evidence node states: its categories, where they are strings, and its evidence, title and
      description strings. */
  datatype Statement = Statement(primary: Option<string>, secondary: Option<string>, tokens: set<string>)

  /** A finding also carries effects of its own, which are only checked for being known. */
  datatype Finding = Finding(states: Statement, effect: Option<string>, tier: Option<string>, rules: seq<string>)

  /** The parts of a scanner result that can grow: findings, evidence nodes and the relations of evidence edges. */
  datatype Evidence = Evidence(findings: seq<Finding>, nodes: seq<Statement>, relations: seq<string>)

  /** The rest of a scanner result, with the outcome of its validation. */
  datatype Context = Context(
    valid: bool,
    failureClaimsNoFindings: bool,
    unsupportedClaimsNoFindings: bool,
    lacksLimitations: bool,
    rawSecret: bool,
    rawHostPath: bool,
    unsupportedVersion: bool,
    lowTrust: bool,
    noFindingsOutcome: bool)

  datatype Facts = Facts(primary: set<string>, secondary: set<string>, tokens: set<string>, relations: set<string>)

  function StatementsOf(e: Evidence): set<Statement> {
    (set f | f in e.findings :: f.states) + (set s | s in e.nodes)
  }

  /** The facts that these statements and relations make up. */
  function FactsFrom(statements: set<Statement>, relations: set<string>): Facts {
    Facts(set s | s in statements && s.primary.Some? :: s.primary.value,
          set s | s in statements && s.secondary.Some? :: s.secondary.value,
          set s, t | s in statements && t in s.tokens :: t,
          relations)
  }

  function FactsOf(e: Evidence): Facts {
    FactsFrom(StatementsOf(e), set r | r in e.relations)
  }

  function Strings(value: Option<string>): set<string> {
    if value.Some? then {value.value} else {}
  }

  function WithStatement(f: Facts, s: Statement): Facts {
    f.(primary := f.primary + Strings(s.primary), secondary := f.secondary + Strings(s.secondary),
       tokens := f.tokens + s.tokens)
  }

  lemma OneMoreStatement(statements: set<Statement>, relations: set<string>, s: Statement)
    ensures FactsFrom(statements + {s}, relations) == WithStatement(FactsFrom(statements, relations), s)
  {
    var before, after := FactsFrom(statements, relations), FactsFrom(statements + {s}, relations);
    assert after.primary == before.primary + Strings(s.primary);
    assert after.secondary == before.secondary + Strings(s.secondary);
    assert after.tokens == before.tokens + s.tokens;
  }

  // ----- rules -----

  type RuleId = n: int | 1 <= n <= 20 witness 1

  /** A rule of the policy; `tier` is absent if the policy names an unknown one. */
  datatype Rule = Rule(tier: Option<Tier>, effects: set<Effect>, review: bool, blocks: bool)

  type RiskPolicy = map<RuleId, Rule>

  predicate HasNetworkSignal(f: Facts) {
    || "network_request" in f.secondary || "network_exfiltration_indicator" in f.secondary
    || "credential_to_network" in f.relations
  }

  predicate SuspiciousAtRuntime(f: Facts) {
    || "download_exec_chain" in f.secondary || "dynamic_eval" in f.secondary || "network_request" in f.secondary
    || "network_exfiltration_indicator" in f.secondary || "docker_socket_reference" in f.secondary
    || "lifecycle_to_runtime" in f.relations
  }

  /** When a rule is due. */
  predicate IsDue(id: RuleId, f: Facts, c: Context) {
    match id
    case 1 => "verified_secret" in f.secondary || "secret_like_value" in f.secondary
    case 2 => c.rawSecret || "raw_secret_leak" in f.secondary
    case 3 => "credential_path_reference" in f.secondary
    case 4 => ("credential_path_reference" in f.secondary || "host_home_reference" in f.secondary) && HasNetworkSignal(f)
    case 5 => "install_script_execution" in f.secondary && "download_exec_chain" in f.secondary
    case 6 => "obfuscation" in f.secondary && "dynamic_eval" in f.secondary
    case 7 => "obfuscation" in f.secondary && "dynamic_eval" in f.secondary && HasNetworkSignal(f)
    case 8 => "docker_socket_reference" in f.secondary
    case 9 => "docker_socket_reference" in f.secondary
              && ("docker_to_host_access" in f.relations || "subprocess_indicator" in f.tokens)
    case 10 => "host_home_reference" in f.secondary || c.rawHostPath || "raw_host_path_leak" in f.secondary
    case 11 => "pull_request_target_misuse" in f.secondary
               && ("untrusted_checkout" in f.tokens || "ci_token_to_untrusted_code" in f.relations)
    case 12 => "broad_token_permission" in f.secondary && "unpinned_action" in f.secondary
    case 13 => "verified_secret" in f.secondary
               && ("ci_exposure" in f.tokens || "ci_token_to_untrusted_code" in f.relations)
    case 14 => "known_critical_vulnerability" in f.secondary
    case 15 => "known_critical_vulnerability" in f.secondary && SuspiciousAtRuntime(f)
    case 16 => "low_security_posture" in f.secondary
    case 17 => c.failureClaimsNoFindings || ("scanner_failure" in f.primary && c.noFindingsOutcome)
    case 18 => c.unsupportedVersion || c.unsupportedClaimsNoFindings
    case 19 => c.lacksLimitations
    case _ => c.lowTrust && c.noFindingsOutcome
  }

  // ----- the mapping -----

  predicate UnknownCategory(f: Facts) {
    || "unknown" in f.primary || "unknown" in f.secondary
    || !(f.primary <= KNOWN_PRIMARY) || !(f.secondary <= KNOWN_SECONDARY)
  }

  /** A finding that names an effect or a rule that there is not. */
  predicate Uninterpretable(f: Finding) {
    || (f.effect.Some? && f.effect.value !in EFFECT_NAMES)
    || (f.tier.Some? && f.tier.value !in TIER_NAMES)
    || exists r :: r in f.rules && r !in RULE_NAMES
  }

  predicate SomeUninterpretable(findings: seq<Finding>) {
    exists f :: f in findings && Uninterpretable(f)
  }

  predicate MissesRules(policy: RiskPolicy) {
    exists id: RuleId :: id !in policy
  }

  /** Reasons for a quarantine besides the fired rules. */
  predicate FailsClosed(e: Evidence, c: Context, policy: RiskPolicy) {
    !c.valid || MissesRules(policy) || SomeUninterpretable(e.findings)
  }

  predicate HasUnsupportedRelation(f: Facts) {
    !(f.relations <= SUPPORTED_RELATIONS)
  }

  function DueRules(f: Facts, c: Context): set<RuleId> {
    set id: RuleId | 1 <= id <= 20 && IsDue(id, f, c)
  }

  function If<T>(condition: bool, x: T): set<T> {
    if condition then {x} else {}
  }

  /** Everything that the mapping depends on: the rules that are due, a reason for a quarantine besides them, a category
      that is not known, and a relation that is not supported. */
  datatype Reasons = Reasons(due: set<RuleId>, failsClosed: bool, unknown: bool, unsupported: bool)

  function ReasonsFor(e: Evidence, c: Context, policy: RiskPolicy): Reasons {
    var f := FactsOf(e);
    Reasons(DueRules(f, c), FailsClosed(e, c, policy), UnknownCategory(f), HasUnsupportedRelation(f))
  }

  function HighestTier(tiers: set<Tier>): Tier {
    if RaiseToT5 in tiers then RaiseToT5
    else if T5Candidate in tiers then T5Candidate
    else if RaiseToT4 in tiers then RaiseToT4
    else if RaiseToT3 in tiers then RaiseToT3
    else if RaiseToT2 in tiers then RaiseToT2
    else NoTier
  }

  function HighestEffect(effects: set<Effect>): Effect {
    if Quarantined in effects then Quarantined
    else if DedicatedVm in effects then DedicatedVm
    else if BlocksLive in effects then BlocksLive
    else if HumanReview in effects then HumanReview
    else if RaisesRisk in effects then RaisesRisk
    else EvidenceOnly
  }

  datatype Mapping = Mapping(fired: set<RuleId>, effects: set<Effect>, tier: Tier, review: bool, blocks: bool)

  function RuleEffects(fired: map<RuleId, Rule>): set<Effect> {
    set id, x | id in fired && x in fired[id].effects :: x
  }

  function RuleTiers(fired: map<RuleId, Rule>): set<Tier> {
    set id | id in fired && fired[id].tier.Some? :: fired[id].tier.value
  }

  predicate SomeReviewed(fired: map<RuleId, Rule>) {
    exists id :: id in fired && fired[id].review
  }

  predicate SomeBlocking(fired: map<RuleId, Rule>) {
    exists id :: id in fired && fired[id].blocks
  }

  /** Without any effect there is the weakest. */
  function OrWeakest(effects: set<Effect>): set<Effect> {
    if effects == {} then {EvidenceOnly} else effects
  }

  /** The mapping, from the fired rules and the further effects and tiers. */
  function Assembled(fired: map<RuleId, Rule>, effects: set<Effect>, tiers: set<Tier>): Mapping {
    var all := OrWeakest(RuleEffects(fired) + effects);
    Mapping(fired.Keys, all, HighestTier(RuleTiers(fired) + tiers),
            HumanReview in all || SomeReviewed(fired),
            BlocksLive in all || Quarantined in all || SomeBlocking(fired))
  }

  function Fired(due: set<RuleId>, policy: RiskPolicy): map<RuleId, Rule> {
    map id | id in due && id in policy :: policy[id]
  }

  function FurtherEffects(r: Reasons): set<Effect> {
    If(r.failsClosed, Quarantined) + If(r.unknown || r.unsupported, HumanReview)
  }

  function FurtherTiers(r: Reasons): set<Tier> {
    If(r.failsClosed || r.unknown, T5Candidate)
  }

  function MappingFor(r: Reasons, policy: RiskPolicy): Mapping {
    Assembled(Fired(r.due, policy), FurtherEffects(r), FurtherTiers(r))
  }

  function MappingOf(e: Evidence, c: Context, policy: RiskPolicy): Mapping {
    MappingFor(ReasonsFor(e, c, policy), policy)
  }

  /** `_external_mapping_verdict` of the gate. */
  function MappedVerdict(m: Mapping): Option<Verdict> {
    if Quarantined in m.effects || DedicatedVm in m.effects then Some(Quarantine)
    else if m.blocks then Some(Block)
    else if m.review then Some(Quarantine)
    else if m.tier != NoTier || RaisesRisk in m.effects then Some(Warn)
    else None
  }

  // ----- the mapper as the source runs it -----

  class Mapper {
    const policy: RiskPolicy
    var fired: map<RuleId, Rule>
    var effects: set<Effect>
    var tiers: set<Tier>

    constructor (policy: RiskPolicy)
      ensures this.policy == policy && fired == map[] && effects == {} && tiers == {}
    {
      this.policy := policy;
      fired, effects, tiers := map[], {}, {};
    }

    /** The reaction to something the mapper cannot interpret. */
    method FailClosed()
      modifies this`effects, this`tiers
      ensures effects == old(effects) + {Quarantined} && tiers == old(tiers) + {T5Candidate}
    {
      effects, tiers := effects + {Quarantined}, tiers + {T5Candidate};
    }

    method Fire(id: RuleId)
      modifies this`fired, this`effects, this`tiers
      ensures fired == if id in policy then old(fired)[id := policy[id]] else old(fired)
      ensures effects == old(effects) + If(id !in policy, Quarantined)
      ensures tiers == old(tiers) + If(id !in policy, T5Candidate)
    {
      if id !in policy {
        FailClosed();
      } else {
        fired := fired[id := policy[id]];
      }
    }

    /** Asks for every rule that is due, in the order of the rules. */
    method FireDue(due: set<RuleId>)
      requires fired == map[] && (MissesRules(policy) ==> Quarantined in effects && T5Candidate in tiers)
      modifies this`fired, this`effects, this`tiers
      ensures fired == Fired(due, policy)
      ensures effects == old(effects) && tiers == old(tiers)
    {
      for n := 1 to 21
        invariant fired == map id | id in due && id in policy && id < n :: policy[id]
        invariant effects == old(effects) && tiers == old(tiers)
      {
        if n in due {
          Fire(n);
        }
      }
    }

    method CheckFinding(f: Finding)
      modifies this`effects, this`tiers
      ensures effects == old(effects) + If(Uninterpretable(f), Quarantined)
      ensures tiers == old(tiers) + If(Uninterpretable(f), T5Candidate)
    {
      if f.effect.Some? && f.effect.value !in EFFECT_NAMES {
        FailClosed();
      }
      if f.tier.Some? && f.tier.value !in TIER_NAMES {
        FailClosed();
      }
      for n := 0 to |f.rules|
        invariant var odd := (f.effect.Some? && f.effect.value !in EFFECT_NAMES)
                             || (f.tier.Some? && f.tier.value !in TIER_NAMES)
                             || exists r :: r in f.rules[..n] && r !in RULE_NAMES;
                  effects == old(effects) + If(odd, Quarantined) && tiers == old(tiers) + If(odd, T5Candidate)
      {
        assert f.rules[..n + 1] == f.rules[..n] + [f.rules[n]];
        if f.rules[n] !in RULE_NAMES {
          FailClosed();
        }
      }
      assert f.rules[..|f.rules|] == f.rules;
    }

    /** Looks for what the mapper cannot interpret. */
    method CheckInterpretability(e: Evidence, f: Facts)
      modifies this`effects, this`tiers
      ensures effects == old(effects) + If(SomeUninterpretable(e.findings), Quarantined)
                         + If(UnknownCategory(f) || HasUnsupportedRelation(f), HumanReview)
      ensures tiers == old(tiers) + If(SomeUninterpretable(e.findings) || UnknownCategory(f), T5Candidate)
    {
      if UnknownCategory(f) {
        effects, tiers := effects + {HumanReview}, tiers + {T5Candidate};
      }
      if exists r :: r in f.relations && r !in SUPPORTED_RELATIONS {
        effects := effects + {HumanReview};
      }
      ghost var effects0, tiers0 := effects, tiers;
      for n := 0 to |e.findings|
        invariant effects == effects0 + If(SomeUninterpretable(e.findings[..n]), Quarantined)
        invariant tiers == tiers0 + If(SomeUninterpretable(e.findings[..n]), T5Candidate)
      {
        CheckFinding(e.findings[n]);
        OneMoreFinding(e.findings, n);
      }
      assert e.findings[..|e.findings|] == e.findings;
    }

    /** The part before the rules: `bad` says whether something was missing or could not be interpreted. */
    method Interpret(e: Evidence) returns (f: Facts, ghost bad: bool)
      requires fired == map[] && effects == {} && tiers == {}
      modifies this`effects, this`tiers
      ensures f == FactsOf(e) && bad == (MissesRules(policy) || SomeUninterpretable(e.findings))
      ensures effects == If(bad, Quarantined) + If(UnknownCategory(f) || HasUnsupportedRelation(f), HumanReview)
      ensures tiers == If(bad || UnknownCategory(f), T5Candidate)
    {
      bad := MissesRules(policy) || SomeUninterpretable(e.findings);
      if MissesRules(policy) {
        FailClosed();
      }
      f := CollectFacts(e);
      CheckInterpretability(e, f);
    }

    /** The rules, and the reaction to an invalid document. */
    method FireAndClose(due: set<RuleId>, valid: bool, ghost bad: bool, ghost review: set<Effect>, ghost unknown: bool)
      requires fired == map[] && (MissesRules(policy) ==> bad)
      requires effects == If(bad, Quarantined) + review && tiers == If(bad || unknown, T5Candidate)
      modifies this`fired, this`effects, this`tiers
      ensures fired == Fired(due, policy)
      ensures effects == If(bad || !valid, Quarantined) + review && tiers == If(bad || !valid || unknown, T5Candidate)
    {
      FireDue(due);
      if !valid {
        FailClosed();
      }
    }

    /** Gathers the reasons for the mapping in the fields. */
    method Gather(e: Evidence, c: Context)
      requires fired == map[] && effects == {} && tiers == {}
      modifies this`fired, this`effects, this`tiers
      ensures var r := ReasonsFor(e, c, policy);
              fired == Fired(r.due, policy) && effects == FurtherEffects(r) && tiers == FurtherTiers(r)
    {
      var f;
      ghost var bad;
      f, bad := Interpret(e);
      FireAndClose(DueRules(f, c), c.valid, bad, If(UnknownCategory(f) || HasUnsupportedRelation(f), HumanReview),
                   UnknownCategory(f));
    }

    /** `map_external_scanner_risk`. */
    method MapRisk(e: Evidence, c: Context) returns (m: Mapping)
      requires fired == map[] && effects == {} && tiers == {}
      modifies this`fired, this`effects, this`tiers
      ensures m == MappingOf(e, c, policy)
    {
      Gather(e, c);
      m := Assembled(fired, effects, tiers);
    }
  }

  lemma OneMoreFinding(findings: seq<Finding>, n: nat)
    requires n < |findings|
    ensures SomeUninterpretable(findings[..n + 1]) <==> SomeUninterpretable(findings[..n]) || Uninterpretable(findings[n])
  {
    assert findings[..n + 1] == findings[..n] + [findings[n]];
    assert findings[n] in findings[..n + 1];
  }

  /** `_collect_facts`. */
  method CollectFacts(e: Evidence) returns (f: Facts)
    ensures f == FactsOf(e)
  {
    f := Facts({}, {}, {}, {});
    ghost var seen: set<Statement> := {};
    assert f == FactsFrom(seen, {});
    for n := 0 to |e.findings|
      invariant seen == (set x | x in e.findings[..n] :: x.states) && f == FactsFrom(seen, {})
    {
      assert e.findings[..n + 1] == e.findings[..n] + [e.findings[n]];
      OneMoreStatement(seen, {}, e.findings[n].states);
      f, seen := WithStatement(f, e.findings[n].states), seen + {e.findings[n].states};
    }
    assert e.findings[..|e.findings|] == e.findings;
    ghost var fromFindings := seen;
    for n := 0 to |e.nodes|
      invariant seen == fromFindings + (set s | s in e.nodes[..n]) && f == FactsFrom(seen, {})
    {
      assert e.nodes[..n + 1] == e.nodes[..n] + [e.nodes[n]];
      OneMoreStatement(seen, {}, e.nodes[n]);
      f, seen := WithStatement(f, e.nodes[n]), seen + {e.nodes[n]};
    }
    assert e.nodes[..|e.nodes|] == e.nodes;
    for n := 0 to |e.relations|
      invariant f == FactsFrom(seen, set r | r in e.relations[..n])
    {
      assert e.relations[..n + 1] == e.relations[..n] + [e.relations[n]];
      f := f.(relations := f.relations + {e.relations[n]});
    }
    assert e.relations[..|e.relations|] == e.relations;
  }

  // ----- more evidence -----

  /** Everything that e states, f states too. */
  predicate Includes(f: Evidence, e: Evidence) {
    && (forall x :: x in e.findings ==> x in f.findings)
    && (forall s :: s in e.nodes ==> s in f.nodes)
    && (forall r :: r in e.relations ==> r in f.relations)
  }

  lemma FactsGrow(e: Evidence, more: Evidence)
    requires Includes(more, e)
    ensures FactsAtMost(FactsOf(e), FactsOf(more))
  {
    assert StatementsOf(e) <= StatementsOf(more);
  }

  predicate FactsAtMost(f: Facts, g: Facts) {
    f.primary <= g.primary && f.secondary <= g.secondary && f.tokens <= g.tokens && f.relations <= g.relations
  }

  lemma FirstRulesStayDue(id: RuleId, f: Facts, g: Facts, c: Context)
    requires FactsAtMost(f, g) && IsDue(id, f, c) && id <= 10
    ensures IsDue(id, g, c)
  {
  }

  lemma LastRulesStayDue(id: RuleId, f: Facts, g: Facts, c: Context)
    requires FactsAtMost(f, g) && IsDue(id, f, c) && id > 10
    ensures IsDue(id, g, c)
  {
  }

  lemma DueStaysDue(f: Facts, g: Facts, c: Context)
    requires FactsAtMost(f, g)
    ensures DueRules(f, c) <= DueRules(g, c)
  {
    forall id | id in DueRules(f, c) ensures id in DueRules(g, c) {
      if id <= 10 { FirstRulesStayDue(id, f, g, c); } else { LastRulesStayDue(id, f, g, c); }
    }
  }

  predicate AtMost(r: Reasons, s: Reasons) {
    r.due <= s.due && (r.failsClosed ==> s.failsClosed) && (r.unknown ==> s.unknown) && (r.unsupported ==> s.unsupported)
  }

  lemma ReasonsGrow(e: Evidence, more: Evidence, c: Context, policy: RiskPolicy)
    requires Includes(more, e)
    ensures AtMost(ReasonsFor(e, c, policy), ReasonsFor(more, c, policy))
  {
    FactsGrow(e, more);
    DueStaysDue(FactsOf(e), FactsOf(more), c);
  }

  lemma RulesGrow(due: set<RuleId>, due': set<RuleId>, policy: RiskPolicy)
    requires due <= due'
    ensures var f, g := Fired(due, policy), Fired(due', policy);
            && f.Keys <= g.Keys
            && RuleEffects(f) <= RuleEffects(g) && RuleTiers(f) <= RuleTiers(g)
            && (SomeReviewed(f) ==> SomeReviewed(g)) && (SomeBlocking(f) ==> SomeBlocking(g))
  {
    var f, g := Fired(due, policy), Fired(due', policy);
    assert forall id :: id in f ==> id in g && g[id] == f[id];
  }

  lemma HighestTierGrows(a: set<Tier>, b: set<Tier>)
    requires a <= b
    ensures TierRank(HighestTier(a)) <= TierRank(HighestTier(b))
    ensures forall t :: t in a ==> TierRank(t) <= TierRank(HighestTier(a))
  {
  }

  lemma HighestEffectGrows(a: set<Effect>, b: set<Effect>)
    requires a <= b + {EvidenceOnly}
    ensures EffectRank(HighestEffect(a)) <= EffectRank(HighestEffect(b))
    ensures forall x :: x in a ==> EffectRank(x) <= EffectRank(HighestEffect(a))
  {
  }

  /** What a mapping says never gets weaker from m to n. */
  predicate NotWeaker(n: Mapping, m: Mapping) {
    && m.fired <= n.fired
    && m.effects <= n.effects + {EvidenceOnly}
    && TierRank(m.tier) <= TierRank(n.tier)
    && EffectRank(HighestEffect(m.effects)) <= EffectRank(HighestEffect(n.effects))
    && (m.review ==> n.review)
    && (m.blocks ==> n.blocks)
  }

  lemma MappingsCompare(r: Reasons, s: Reasons, policy: RiskPolicy)
    requires AtMost(r, s)
    ensures NotWeaker(MappingFor(s, policy), MappingFor(r, policy))
  {
    RulesGrow(r.due, s.due, policy);
    var f, g := Fired(r.due, policy), Fired(s.due, policy);
    HighestTierGrows(RuleTiers(f) + FurtherTiers(r), RuleTiers(g) + FurtherTiers(s));
    HighestEffectGrows(MappingFor(r, policy).effects, MappingFor(s, policy).effects);
  }

  /** More findings, nodes or edges only make more rules fire, and never lower the highest tier, the highest effect or
      a flag. */
  lemma MoreEvidenceNeverWeakens(e: Evidence, more: Evidence, c: Context, policy: RiskPolicy)
    requires Includes(more, e)
    ensures NotWeaker(MappingOf(more, c, policy), MappingOf(e, c, policy))
  {
    ReasonsGrow(e, more, c, policy);
    MappingsCompare(ReasonsFor(e, c, policy), ReasonsFor(more, c, policy), policy);
  }

  lemma CandidatesCompare(m: Mapping, n: Mapping)
    requires NotWeaker(n, m)
    ensures var v, w := MappedVerdict(m), MappedVerdict(n);
            && (v.Some? ==> w.Some?)
            && (v in {Some(Quarantine), Some(Block)} ==> w in {Some(Quarantine), Some(Block)})
            && (v.Some? ==> (!AtLeast(w.value, v.value) <==>
                               v == Some(Block) && n.effects * {Quarantined, DedicatedVm} != {}))
  {
    assert Quarantined in n.effects || DedicatedVm in n.effects <==> n.effects * {Quarantined, DedicatedVm} != {} by {
      if Quarantined in n.effects { assert Quarantined in n.effects * {Quarantined, DedicatedVm}; }
      if DedicatedVm in n.effects { assert DedicatedVm in n.effects * {Quarantined, DedicatedVm}; }
    }
  }

  /** The gate candidate follows: it never goes away, it never leaves quarantine or block once there, and it gets
      weaker exactly when a block becomes a quarantine because a dedicated machine or a quarantine is called for. */
  lemma CandidateWeakensExactlyWhen(e: Evidence, more: Evidence, c: Context, policy: RiskPolicy)
    requires Includes(more, e)
    ensures var v, w := MappedVerdict(MappingOf(e, c, policy)), MappedVerdict(MappingOf(more, c, policy));
            && (v.Some? ==> w.Some?)
            && (v in {Some(Quarantine), Some(Block)} ==> w in {Some(Quarantine), Some(Block)})
            && (v.Some? ==> (!AtLeast(w.value, v.value) <==>
                               v == Some(Block) && MappingOf(more, c, policy).effects * {Quarantined, DedicatedVm} != {}))
  {
    MoreEvidenceNeverWeakens(e, more, c, policy);
    CandidatesCompare(MappingOf(e, c, policy), MappingOf(more, c, policy));
  }

  // ----- the policy that ships -----

  /** policies/external-scanner-risk-policy.v0.1.json. */
  function ShippedRule(id: RuleId): Rule {
    match id
    case 1 => Rule(Some(RaiseToT5), {BlocksLive}, true, true)
    case 2 => Rule(Some(RaiseToT5), {Quarantined}, true, true)
    case 3 => Rule(Some(RaiseToT4), {HumanReview}, true, false)
    case 4 => Rule(Some(T5Candidate), {DedicatedVm}, true, true)
    case 5 => Rule(Some(RaiseToT4), {HumanReview}, true, false)
    case 6 => Rule(Some(RaiseToT4), {HumanReview}, true, false)
    case 7 => Rule(Some(T5Candidate), {DedicatedVm}, true, true)
    case 8 => Rule(Some(RaiseToT4), {BlocksLive}, true, true)
    case 9 => Rule(Some(T5Candidate), {DedicatedVm}, true, true)
    case 10 => Rule(Some(RaiseToT4), {BlocksLive}, true, true)
    case 11 => Rule(Some(RaiseToT4), {HumanReview}, true, false)
    case 12 => Rule(Some(RaiseToT4), {HumanReview}, true, false)
    case 13 => Rule(Some(RaiseToT5), {BlocksLive}, true, true)
    case 14 => Rule(Some(RaiseToT3), {RaisesRisk}, false, false)
    case 15 => Rule(Some(RaiseToT4), {HumanReview}, true, false)
    case 16 => Rule(Some(RaiseToT2), {EvidenceOnly}, false, false)
    case 17 => Rule(Some(RaiseToT5), {Quarantined}, true, true)
    case 18 => Rule(Some(T5Candidate), {Quarantined}, true, true)
    case 19 => Rule(Some(RaiseToT5), {Quarantined}, true, true)
    case _ => Rule(Some(NoTier), {EvidenceOnly}, false, false)
  }

  function ShippedPolicy(): RiskPolicy {
    map id: RuleId | 1 <= id <= 20 :: ShippedRule(id)
  }

  const OBSERVED_RULES: set<RuleId> := {14, 16, 20}

  /** Nothing but a known vulnerability, a low posture or an untrusted silence was found, and all of it is understood. */
  predicate OnlyObserved(r: Reasons) {
    !r.failsClosed && !r.unknown && !r.unsupported && r.due <= OBSERVED_RULES
  }

  lemma SeriousRulesHoldUp(id: RuleId)
    ensures id !in OBSERVED_RULES <==> ShippedRule(id).review
    ensures id in OBSERVED_RULES ==> !ShippedRule(id).blocks && ShippedRule(id).effects <= {EvidenceOnly, RaisesRisk}
  {
  }

  lemma HeldUpExactlyWhenNotOnlyObserved(r: Reasons)
    ensures MappedVerdict(MappingFor(r, ShippedPolicy())) in {Some(Quarantine), Some(Block)} <==> !OnlyObserved(r)
  {
    var m, fired := MappingFor(r, ShippedPolicy()), Fired(r.due, ShippedPolicy());
    if OnlyObserved(r) {
      forall id | id in fired
        ensures !fired[id].review && !fired[id].blocks && fired[id].effects <= {EvidenceOnly, RaisesRisk}
      {
        SeriousRulesHoldUp(id);
      }
      assert m.effects <= {EvidenceOnly, RaisesRisk};
    } else if r.failsClosed {
      assert Quarantined in m.effects;
    } else if r.unknown || r.unsupported {
      assert HumanReview in m.effects;
    } else {
      var id: RuleId :| id in r.due && id !in OBSERVED_RULES;
      SeriousRulesHoldUp(id);
      assert id in fired && fired[id].review;
    }
  }

  lemma ObservationsWarnExactlyWhen(r: Reasons)
    requires OnlyObserved(r)
    ensures MappedVerdict(MappingFor(r, ShippedPolicy())) == if 14 in r.due || 16 in r.due then Some(Warn) else None
  {
    HeldUpExactlyWhenNotOnlyObserved(r);
    var m, fired := MappingFor(r, ShippedPolicy()), Fired(r.due, ShippedPolicy());
    if 14 in r.due {
      assert 14 in fired && RaisesRisk in fired[14].effects;
      assert RaisesRisk in m.effects;
    } else if 16 in r.due {
      assert 16 in fired && fired[16].tier == Some(RaiseToT2);
      assert RaiseToT2 in RuleTiers(fired);
    } else {
      assert forall id :: id in fired ==> id == 20;
      assert m.effects <= {EvidenceOnly} && RuleTiers(fired) <= {NoTier};
    }
  }

  // The rules that ship, by what they do.
  const QUARANTINING: set<RuleId> := {2, 4, 7, 9, 17, 18, 19}
  const BLOCKING: set<RuleId> := {1, 8, 10, 13}
  const REVIEWING: set<RuleId> := {3, 5, 6, 11, 12, 15}

  lemma ShippedRuleClass(id: RuleId)
    ensures var rule := ShippedRule(id);
            && (Quarantined in rule.effects || DedicatedVm in rule.effects <==> id in QUARANTINING)
            && (rule.blocks <==> id in QUARANTINING || id in BLOCKING)
            && (BlocksLive in rule.effects <==> id in BLOCKING)
  {
  }

  predicate Meet(a: set<RuleId>, b: set<RuleId>) {
    exists id :: id in a && id in b
  }

  /** The gate candidate under the shipped policy, from the reasons. */
  function ShippedVerdict(r: Reasons): Option<Verdict> {
    if r.failsClosed || Meet(r.due, QUARANTINING) then Some(Quarantine)
    else if Meet(r.due, BLOCKING) then Some(Block)
    else if r.unknown || r.unsupported || Meet(r.due, REVIEWING) then Some(Quarantine)
    else if 14 in r.due || 16 in r.due then Some(Warn)
    else None
  }

  lemma QuarantinedExactlyWhen(r: Reasons)
    ensures var m := MappingFor(r, ShippedPolicy());
            Quarantined in m.effects || DedicatedVm in m.effects <==> r.failsClosed || Meet(r.due, QUARANTINING)
  {
    var fired := Fired(r.due, ShippedPolicy());
    forall id | id in r.due
      ensures id in fired && (Quarantined in fired[id].effects || DedicatedVm in fired[id].effects <==> id in QUARANTINING)
    {
      ShippedRuleClass(id);
    }
    if Meet(r.due, QUARANTINING) {
      var id :| id in r.due && id in QUARANTINING;
      assert Quarantined in fired[id].effects || DedicatedVm in fired[id].effects;
      assert Quarantined in RuleEffects(fired) || DedicatedVm in RuleEffects(fired);
    }
  }

  lemma BlockedExactlyWhen(r: Reasons)
    requires !r.failsClosed && !Meet(r.due, QUARANTINING)
    ensures MappingFor(r, ShippedPolicy()).blocks <==> Meet(r.due, BLOCKING)
  {
    QuarantinedExactlyWhen(r);
    var fired := Fired(r.due, ShippedPolicy());
    forall id | id in r.due
      ensures id in fired && (fired[id].blocks <==> id in BLOCKING) && (BlocksLive in fired[id].effects <==> id in BLOCKING)
    {
      ShippedRuleClass(id);
    }
    if Meet(r.due, BLOCKING) {
      var id :| id in r.due && id in BLOCKING;
      assert fired[id].blocks;
    }
  }

  lemma EveryRuleHasAClass(r: Reasons)
    ensures OnlyObserved(r) <==> !r.failsClosed && !r.unknown && !r.unsupported
                                 && !Meet(r.due, QUARANTINING) && !Meet(r.due, BLOCKING) && !Meet(r.due, REVIEWING)
  {
    forall id | id in r.due ensures id in OBSERVED_RULES <==> id !in QUARANTINING && id !in BLOCKING && id !in REVIEWING {
    }
  }

  /** Under the shipped policy the candidate is decided by which rules are due: some quarantine, some block unless one of
      those is due too, some ask for a review, and of the rest two warn. */
  lemma ShippedPolicyVerdict(e: Evidence, c: Context)
    ensures MappedVerdict(MappingOf(e, c, ShippedPolicy())) == ShippedVerdict(ReasonsFor(e, c, ShippedPolicy()))
  {
    ShippedMappingVerdict(ReasonsFor(e, c, ShippedPolicy()));
  }

  lemma ShippedMappingVerdict(r: Reasons)
    ensures MappedVerdict(MappingFor(r, ShippedPolicy())) == ShippedVerdict(r)
  {
    QuarantinedExactlyWhen(r);
    if !r.failsClosed && !Meet(r.due, QUARANTINING) {
      BlockedExactlyWhen(r);
      HeldUpExactlyWhenNotOnlyObserved(r);
      EveryRuleHasAClass(r);
      if OnlyObserved(r) {
        ObservationsWarnExactlyWhen(r);
      }
    }
  }

  /** Below a quarantine there is only what is observed. */
  lemma WeakExactlyWhenOnlyObserved(r: Reasons)
    ensures ShippedVerdict(r) in {None, Some(Warn)} <==> OnlyObserved(r)
  {
    EveryRuleHasAClass(r);
  }

  // ----- from what a scan states to the candidate -----

  /** Some finding or node states the category, or the text. */
  predicate StatesPrimary(e: Evidence, name: string) {
    (exists f :: f in e.findings && f.states.primary == Some(name)) || exists s :: s in e.nodes && s.primary == Some(name)
  }

  predicate StatesSecondary(e: Evidence, name: string) {
    || (exists f :: f in e.findings && f.states.secondary == Some(name))
    || exists s :: s in e.nodes && s.secondary == Some(name)
  }

  predicate StatesText(e: Evidence, text: string) {
    (exists f :: f in e.findings && text in f.states.tokens) || exists s :: s in e.nodes && text in s.tokens
  }

  lemma FactsAreStated(e: Evidence)
    ensures forall n :: n in FactsOf(e).primary <==> StatesPrimary(e, n)
    ensures forall n :: n in FactsOf(e).secondary <==> StatesSecondary(e, n)
    ensures forall t :: t in FactsOf(e).tokens <==> StatesText(e, t)
    ensures forall r :: r in FactsOf(e).relations <==> r in e.relations
  {
    var statements := StatementsOf(e);
    forall f | f in e.findings ensures f.states in statements {
    }
    forall s | s in e.nodes ensures s in statements {
    }
    forall s ensures s in statements <==> (exists f :: f in e.findings && f.states == s) || s in e.nodes {
    }
  }

  /** A category that is called unknown, or not known. */
  ghost predicate StatesUnknown(e: Evidence) {
    || (exists n :: StatesPrimary(e, n) && (n == "unknown" || n !in KNOWN_PRIMARY))
    || (exists n :: StatesSecondary(e, n) && (n == "unknown" || n !in KNOWN_SECONDARY))
  }

  lemma UnknownExactlyWhen(e: Evidence)
    ensures UnknownCategory(FactsOf(e)) <==> StatesUnknown(e)
  {
    FactsAreStated(e);
    UnknownAmong(FactsOf(e), KNOWN_PRIMARY, KNOWN_SECONDARY);
  }

  lemma UnknownAmong(f: Facts, primary: set<string>, secondary: set<string>)
    ensures (exists n :: n in f.primary && (n == "unknown" || n !in primary)) <==>
              "unknown" in f.primary || !(f.primary <= primary)
    ensures (exists n :: n in f.secondary && (n == "unknown" || n !in secondary)) <==>
              "unknown" in f.secondary || !(f.secondary <= secondary)
  {
  }

  predicate StatesNetwork(e: Evidence) {
    || StatesSecondary(e, "network_request") || StatesSecondary(e, "network_exfiltration_indicator")
    || "credential_to_network" in e.relations
  }

  /** The facts that call for a quarantine whatever else there is: a result that is invalid, contradicts itself, lacks its
      limitations or cannot be read, a raw secret, credentials or obfuscated code beside the network, or a Docker socket
      that reaches further. */
  predicate IsGrave(e: Evidence, c: Context) {
    || !c.valid || SomeUninterpretable(e.findings)
    || c.failureClaimsNoFindings || c.unsupportedClaimsNoFindings || c.unsupportedVersion || c.lacksLimitations
    || (StatesPrimary(e, "scanner_failure") && c.noFindingsOutcome)
    || c.rawSecret || StatesSecondary(e, "raw_secret_leak")
    || ((StatesSecondary(e, "credential_path_reference") || StatesSecondary(e, "host_home_reference"))
        && StatesNetwork(e))
    || (StatesSecondary(e, "obfuscation") && StatesSecondary(e, "dynamic_eval") && StatesNetwork(e))
    || (StatesSecondary(e, "docker_socket_reference")
        && ("docker_to_host_access" in e.relations || StatesText(e, "subprocess_indicator")))
  }

  /** The facts that block if nothing is grave: a secret, a Docker socket, or a path of the host. */
  predicate IsBlocking(e: Evidence, c: Context) {
    || StatesSecondary(e, "verified_secret") || StatesSecondary(e, "secret_like_value")
    || StatesSecondary(e, "docker_socket_reference")
    || StatesSecondary(e, "host_home_reference") || StatesSecondary(e, "raw_host_path_leak") || c.rawHostPath
  }

  /** The facts that then ask for a review: something unknown, a reference to credentials, or one of four pairs. */
  ghost predicate NeedsReview(e: Evidence) {
    || StatesUnknown(e) || (exists r :: r in e.relations && r !in SUPPORTED_RELATIONS)
    || StatesSecondary(e, "credential_path_reference")
    || (StatesSecondary(e, "install_script_execution") && StatesSecondary(e, "download_exec_chain"))
    || (StatesSecondary(e, "obfuscation") && StatesSecondary(e, "dynamic_eval"))
    || (StatesSecondary(e, "pull_request_target_misuse")
        && (StatesText(e, "untrusted_checkout") || "ci_token_to_untrusted_code" in e.relations))
    || (StatesSecondary(e, "broad_token_permission") && StatesSecondary(e, "unpinned_action"))
    || (StatesSecondary(e, "known_critical_vulnerability")
        && (StatesSecondary(e, "download_exec_chain") || StatesSecondary(e, "dynamic_eval")
            || StatesSecondary(e, "network_request") || StatesSecondary(e, "network_exfiltration_indicator")
            || StatesSecondary(e, "docker_socket_reference") || "lifecycle_to_runtime" in e.relations))
  }

  lemma QuarantiningAre(due: set<RuleId>)
    ensures Meet(due, QUARANTINING) <==>
              2 in due || 4 in due || 7 in due || 9 in due || 17 in due || 18 in due || 19 in due
  {
    assert forall id :: id in QUARANTINING <==> id in {2, 4, 7, 9, 17, 18, 19};
  }

  lemma BlockingAre(due: set<RuleId>)
    ensures Meet(due, BLOCKING) <==> 1 in due || 8 in due || 10 in due || 13 in due
  {
    assert forall id :: id in BLOCKING <==> id in {1, 8, 10, 13};
  }

  lemma ReviewingAre(due: set<RuleId>)
    ensures Meet(due, REVIEWING) <==> 3 in due || 5 in due || 6 in due || 11 in due || 12 in due || 15 in due
  {
    assert forall id :: id in REVIEWING <==> id in {3, 5, 6, 11, 12, 15};
  }

  lemma GraveExactlyWhen(e: Evidence, c: Context)
    ensures IsGrave(e, c) <==>
              ReasonsFor(e, c, ShippedPolicy()).failsClosed || Meet(DueRules(FactsOf(e), c), QUARANTINING)
  {
    FactsAreStated(e);
    QuarantiningFacts(FactsOf(e), c);
    ShippedPolicyIsWhole();
  }

  lemma ShippedPolicyIsWhole()
    ensures !MissesRules(ShippedPolicy())
  {
  }

  lemma QuarantiningFacts(f: Facts, c: Context)
    ensures Meet(DueRules(f, c), QUARANTINING) <==>
              || c.failureClaimsNoFindings || c.unsupportedClaimsNoFindings || c.unsupportedVersion || c.lacksLimitations
              || ("scanner_failure" in f.primary && c.noFindingsOutcome)
              || c.rawSecret || "raw_secret_leak" in f.secondary
              || (("credential_path_reference" in f.secondary || "host_home_reference" in f.secondary)
                  && HasNetworkSignal(f))
              || ("obfuscation" in f.secondary && "dynamic_eval" in f.secondary && HasNetworkSignal(f))
              || ("docker_socket_reference" in f.secondary
                  && ("docker_to_host_access" in f.relations || "subprocess_indicator" in f.tokens))
  {
    QuarantiningAre(DueRules(f, c));
  }

  lemma BlockingExactlyWhen(e: Evidence, c: Context)
    ensures IsBlocking(e, c) <==> Meet(DueRules(FactsOf(e), c), BLOCKING)
  {
    FactsAreStated(e);
    BlockingFacts(FactsOf(e), c);
  }

  lemma BlockingFacts(f: Facts, c: Context)
    ensures Meet(DueRules(f, c), BLOCKING) <==>
              || "verified_secret" in f.secondary || "secret_like_value" in f.secondary
              || "docker_socket_reference" in f.secondary
              || "host_home_reference" in f.secondary || "raw_host_path_leak" in f.secondary || c.rawHostPath
  {
    BlockingAre(DueRules(f, c));
  }

  lemma ReviewExactlyWhen(e: Evidence, c: Context)
    ensures NeedsReview(e) <==>
              || UnknownCategory(FactsOf(e)) || HasUnsupportedRelation(FactsOf(e))
              || Meet(DueRules(FactsOf(e), c), REVIEWING)
  {
    FactsAreStated(e);
    UnknownExactlyWhen(e);
    ReviewingAre(DueRules(FactsOf(e), c));
  }

  /** Under the shipped policy the candidate follows from what the scan states, without any rule in between. */
  lemma CandidateFromFacts(e: Evidence, c: Context)
    ensures MappedVerdict(MappingOf(e, c, ShippedPolicy())) ==
            if IsGrave(e, c) then Some(Quarantine)
            else if IsBlocking(e, c) then Some(Block)
            else if NeedsReview(e) then Some(Quarantine)
            else if StatesSecondary(e, "known_critical_vulnerability") || StatesSecondary(e, "low_security_posture")
            then Some(Warn)
            else None
  {
    ShippedPolicyVerdict(e, c);
    GraveExactlyWhen(e, c);
    BlockingExactlyWhen(e, c);
    ReviewExactlyWhen(e, c);
    ObservedExactlyWhen(e, c);
  }

  lemma ObservedExactlyWhen(e: Evidence, c: Context)
    ensures 14 in DueRules(FactsOf(e), c) <==> StatesSecondary(e, "known_critical_vulnerability")
    ensures 16 in DueRules(FactsOf(e), c) <==> StatesSecondary(e, "low_security_posture")
  {
    FactsAreStated(e);
  }

  /** A block in r meets in s a rule that quarantines, or something that cannot be interpreted. */
  predicate BlockIsSoftened(r: Reasons, s: Reasons) {
    && !r.failsClosed && !Meet(r.due, QUARANTINING) && Meet(r.due, BLOCKING)
    && (s.failsClosed || Meet(s.due, QUARANTINING))
  }

  lemma ShippedVerdictsCompare(r: Reasons, s: Reasons)
    requires AtMost(r, s)
    ensures var v, w := ShippedVerdict(r), ShippedVerdict(s);
            v.Some? ==> w.Some? && (!AtLeast(w.value, v.value) <==> BlockIsSoftened(r, s))
  {
  }

  /** Under the shipped policy more evidence weakens the candidate in exactly this way. */
  lemma ShippedCandidateWeakensExactlyWhen(e: Evidence, more: Evidence, c: Context)
    requires Includes(more, e)
    ensures var v, w := MappedVerdict(MappingOf(e, c, ShippedPolicy())), MappedVerdict(MappingOf(more, c, ShippedPolicy()));
            v.Some? ==> w.Some? && (!AtLeast(w.value, v.value) <==>
                          BlockIsSoftened(ReasonsFor(e, c, ShippedPolicy()), ReasonsFor(more, c, ShippedPolicy())))
  {
    var r, s := ReasonsFor(e, c, ShippedPolicy()), ReasonsFor(more, c, ShippedPolicy());
    ShippedMappingVerdict(r);
    ShippedMappingVerdict(s);
    ReasonsGrow(e, more, c, ShippedPolicy());
    ShippedVerdictsCompare(r, s);
  }

  /** A secret blocks; the same secret beside a Docker socket that reaches the host is only a quarantine. */
  lemma MoreEvidenceCanTurnBlockIntoQuarantine(c: Context)
    requires c == Context(true, false, false, false, false, false, false, false, false)
    ensures var secret := Statement(Some("secret"), Some("verified_secret"), {});
            var socket := Statement(Some("sandbox_escape_risk"), Some("docker_socket_reference"), {});
            && MappedVerdict(MappingOf(Evidence([], [secret], []), c, ShippedPolicy())) == Some(Block)
            && MappedVerdict(MappingOf(Evidence([], [secret, socket], ["docker_to_host_access"]), c, ShippedPolicy()))
               == Some(Quarantine)
  {
    var secret := Statement(Some("secret"), Some("verified_secret"), {});
    var socket := Statement(Some("sandbox_escape_risk"), Some("docker_socket_reference"), {});
    var e, more := Evidence([], [secret], []), Evidence([], [secret, socket], ["docker_to_host_access"]);
    SecretAlone(e, c);
    SocketIsDue(more, c, socket);
    DedicatedMachineMeansQuarantine(ReasonsFor(more, c, ShippedPolicy()), 9);
  }

  lemma SocketIsDue(e: Evidence, c: Context, socket: Statement)
    requires socket in e.nodes && socket.secondary == Some("docker_socket_reference")
    requires "docker_to_host_access" in e.relations
    ensures 9 in DueRules(FactsOf(e), c)
  {
    assert socket in StatementsOf(e);
    assert "docker_socket_reference" in FactsOf(e).secondary;
  }

  /** A chain that calls for a dedicated machine is a quarantine under the shipped policy, even beside rules that
      block. */
  lemma DedicatedMachineMeansQuarantine(r: Reasons, id: RuleId)
    requires id in r.due && id in {4, 7, 9}
    ensures MappedVerdict(MappingFor(r, ShippedPolicy())) == Some(Quarantine)
  {
    var fired := Fired(r.due, ShippedPolicy());
    assert id in fired && DedicatedVm in fired[id].effects;
    assert DedicatedVm in RuleEffects(fired);
  }

  /** A chain never fires without one of its parts: so a Docker socket that reaches the host, which is a quarantine, is
      always also a Docker socket, which alone would block. */
  lemma ChainsFireBesideTheirParts(f: Facts, c: Context)
    ensures IsDue(4, f, c) ==> HasNetworkSignal(f) && (IsDue(3, f, c) || IsDue(10, f, c))
    ensures IsDue(7, f, c) <==> IsDue(6, f, c) && HasNetworkSignal(f)
    ensures IsDue(9, f, c) ==> IsDue(8, f, c)
    ensures IsDue(13, f, c) ==> IsDue(1, f, c)
    ensures IsDue(15, f, c) ==> IsDue(14, f, c)
  {
  }

  lemma SecretAlone(e: Evidence, c: Context)
    requires c == Context(true, false, false, false, false, false, false, false, false)
    requires e == Evidence([], [Statement(Some("secret"), Some("verified_secret"), {})], [])
    ensures MappedVerdict(MappingOf(e, c, ShippedPolicy())) == Some(Block)
  {
    FactsOfOneNode(e, "secret", "verified_secret");
    ReasonsOfSecret(e, c);
    SecretRuleAlone();
  }

  lemma FactsOfOneNode(e: Evidence, primary: string, secondary: string)
    requires e == Evidence([], [Statement(Some(primary), Some(secondary), {})], [])
    ensures FactsOf(e) == Facts({primary}, {secondary}, {}, {})
  {
    assert StatementsOf(e) == {} + {e.nodes[0]};
    assert FactsFrom({}, {}) == Facts({}, {}, {}, {});
    OneMoreStatement({}, {}, e.nodes[0]);
  }

  lemma ReasonsOfSecret(e: Evidence, c: Context)
    requires c == Context(true, false, false, false, false, false, false, false, false) && e.findings == []
    requires FactsOf(e) == Facts({"secret"}, {"verified_secret"}, {}, {})
    ensures ReasonsFor(e, c, ShippedPolicy()) == Reasons({1}, false, false, false)
  {
    SecretIsKnown(FactsOf(e));
    OnlySecretRuleIsDue(FactsOf(e), c);
  }

  lemma SecretIsKnown(f: Facts)
    requires f == Facts({"secret"}, {"verified_secret"}, {}, {})
    ensures !UnknownCategory(f) && !HasUnsupportedRelation(f)
  {
  }

  lemma OnlySecretRuleIsDue(f: Facts, c: Context)
    requires c == Context(true, false, false, false, false, false, false, false, false)
    requires f == Facts({"secret"}, {"verified_secret"}, {}, {})
    ensures DueRules(f, c) == {1}
  {
    assert "verified_secret" in f.secondary;
  }

  lemma SecretRuleAlone()
    ensures MappedVerdict(MappingFor(Reasons({1}, false, false, false), ShippedPolicy())) == Some(Block)
  {
    var fired := Fired({1}, ShippedPolicy());
    assert fired == map[1 := ShippedRule(1)];
    assert RuleEffects(fired) == {BlocksLive} by {
      assert BlocksLive in fired[1].effects;
    }
  }
}
