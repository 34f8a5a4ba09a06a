/** Execution authorizations of src/repo_health_doctor/gate/authorization.py: a draft is built for one gate decision and
    one command, a human approves it, and the validator holds it against a decision and a command. */
module Authorization {
  import opened Wrappers
  import opened Json

  // ----- gate decisions -----

  /** The subject of a decision, or another mapping with such fields; a missing field is absent. */
  datatype SubjectFields = SubjectFields(
    repo: Option<Json>,
    commit: Option<Json>,
    tree: Option<Json>,
    snapshot: Option<Json>,
    manifest: Option<Json>,
    binding: Option<Json>,
    others: map<string, Json>)

  const NO_FIELDS := SubjectFields(None, None, None, None, None, None, map[])

  /** A gate decision: the parts that authorizations refer to, and the rest. */
  datatype GateDecision = GateDecision(
    kind: Option<Json>,
    version: Option<Json>,
    verdict: Option<Json>,
    subject: SubjectFields,
    policyVersion: Option<Json>,
    rest: map<string, Json>)

  /** A reference to a gate decision. */
  datatype Reference = Reference(
    kind: Option<Json>,
    version: Option<Json>,
    verdict: Option<Json>,
    fingerprint: Option<Json>,
    others: map<string, Json>)

  const NO_REFERENCE := Reference(None, None, None, None, map[])

  // ----- authorizations -----

  datatype Version = Legacy | ImageBound | Current | OtherVersion

  datatype Image = Image(reference: Json, id: Json)

  /** An authorization as found. `complete`: no base field is missing; `unknownFields`: there are fields besides those
      and the approved image, which may be there without being of the right shape. A missing field reads as null, and a
      list or a mapping of the wrong type as absent. */
  datatype Authorization = Authorization(
    complete: bool,
    unknownFields: bool,
    kind: Json,
    version: Version,
    approved: Json,
    approvedBy: Json,
    approvedAt: Json,
    expiresAt: Json,
    scope: Option<SubjectFields>,
    argv: Option<seq<Json>>,
    policyVersion: Json,
    basedOn: Option<Reference>,
    subject: Option<SubjectFields>,
    limitations: seq<string>,
    residualRisks: seq<string>,
    image: Option<Option<Image>>)

  /** What lies outside the model: the fingerprint of a decision, how Python prints a value, the patterns that must not
      occur in an authorization, how dates are read, and the two checks of image names. */
  datatype Outside = Outside(
    digest: GateDecision -> string,
    shown: Json -> string,
    hasForbiddenText: Authorization -> bool,
    hasHostPath: Authorization -> bool,
    date: string -> Option<int>,
    isPinned: Json -> bool,
    isFullId: Json -> bool)

  /** What the caller of the validator knows about the run to be. */
  datatype Runtime = Runtime(
    now: int,
    imageReference: Option<string>,
    imageId: Option<string>,
    repo: Option<string>,
    commit: Option<string>,
    tree: Option<string>,
    snapshot: Option<string>,
    manifest: Option<string>)

  const AUTHORIZATION_KIND := Str("repo_health_execution_authorization")

  function OrNull(value: Option<Json>): Json {
    if value.Some? then value.value else Null
  }

  function TextOrNull(value: Option<Json>): Json {
    if value.Some? && value.value.Str? then value.value else Null
  }

  // ----- projections of a decision -----

  /** `_gate_subject`. */
  function GateSubject(g: GateDecision, o: Outside): SubjectFields {
    var s := g.subject;
    SubjectFields(
      Some(Str(if s.repo.None? then "<repo>" else o.shown(s.repo.value))),
      Some(TextOrNull(s.commit)), Some(TextOrNull(s.tree)), Some(TextOrNull(s.snapshot)), Some(TextOrNull(s.manifest)),
      Some(Str(if s.binding.None? then "unbound" else o.shown(s.binding.value))), map[])
  }

  function LegacyScope(s: SubjectFields): SubjectFields {
    s.(snapshot := None, manifest := None)
  }

  function GateReference(g: GateDecision, o: Outside): Reference {
    Reference(Some(OrNull(g.kind)), Some(OrNull(g.version)), Some(OrNull(g.verdict)), Some(Str(o.digest(g))), map[])
  }

  /** The subject fields that an authorization repeats. */
  function SubjectPart(s: SubjectFields, v: Version): SubjectFields {
    var base := s.(binding := None, others := map[]);
    if v.Current? then base else LegacyScope(base)
  }

  predicate HasFieldsOf(s: SubjectFields, expected: SubjectFields) {
    && s.repo.Some? == expected.repo.Some? && s.commit.Some? == expected.commit.Some?
    && s.tree.Some? == expected.tree.Some? && s.snapshot.Some? == expected.snapshot.Some?
    && s.manifest.Some? == expected.manifest.Some? && s.binding.Some? == expected.binding.Some?
    && s.others.Keys == expected.others.Keys
  }

  /** `_is_fingerprint`. */
  predicate IsFingerprint(value: Option<Json>) {
    && value.Some? && value.value.Str?
    && "sha256:" <= value.value.s && |value.value.s| == 71
    && forall i :: 7 <= i < 71 ==> value.value.s[i] in "0123456789abcdef"
  }

  // ----- drafts -----

  function Strings(argv: seq<string>): seq<Json> {
    seq(|argv|, i requires 0 <= i < |argv| => Str(argv[i]))
  }

  /** `build_execution_authorization_draft`. */
  function Draft(g: GateDecision, argv: seq<string>, expiresAt: Option<string>, image: Option<Option<Image>>, o: Outside)
    : Authorization
  {
    var subject := GateSubject(g, o);
    Authorization(
      true, false, AUTHORIZATION_KIND, Current, Bool(false), Null, Null,
      if expiresAt.Some? then Str(expiresAt.value) else Null,
      Some(subject), Some(Strings(argv)), TextOrNull(g.policyVersion), Some(GateReference(g, o)),
      Some(SubjectPart(subject, Current)),
      ["draft_only_not_approved",
       "not_execution_authorization_until_human_approved",
       "argv_scope_policy_and_gate_decision_must_match_exactly"]
      + (if expiresAt.None? || expiresAt.value == "" then ["expires_at_must_be_set_before_approval"] else [])
      + (if image.None? then ["authorization_not_image_bound"] else []),
      ["human approval required before execution",
       "authorization is only valid for the exact reviewed command and scope"],
      image)
  }

  /** What a human does to a draft, and nothing else. */
  function Approved(a: Authorization, approver: Json, at: Json): Authorization {
    a.(approved := Bool(true), approvedBy := approver, approvedAt := at)
  }

  // ----- what the validator asks for -----

  predicate ShapeOk(a: Authorization) {
    && a.complete && !a.unknownFields && (a.image.Some? ==> a.version.ImageBound? || a.version.Current?)
    && a.kind == AUTHORIZATION_KIND && !a.version.OtherVersion?
    && a.approved == Bool(true)
    && a.limitations != [] && a.residualRisks != []
  }

  predicate ArgvOk(a: Authorization, argv: seq<string>) {
    a.argv == Some(Strings(argv)) && forall s :: s in argv ==> s != ""
  }

  function ScopeOf(a: Authorization): SubjectFields {
    if a.scope.Some? then a.scope.value else NO_FIELDS
  }

  function SubjectOf(a: Authorization): SubjectFields {
    if a.subject.Some? then a.subject.value else NO_FIELDS
  }

  function ReferenceOf(a: Authorization): Reference {
    if a.basedOn.Some? then a.basedOn.value else NO_REFERENCE
  }

  function ExpectedScope(g: GateDecision, v: Version, o: Outside): SubjectFields {
    if v.Current? then GateSubject(g, o) else LegacyScope(GateSubject(g, o))
  }

  predicate DecisionMatches(a: Authorization, g: GateDecision, o: Outside) {
    && ScopeOf(a) == ExpectedScope(g, a.version, o)
    && a.policyVersion == TextOrNull(g.policyVersion)
    && ReferenceOf(a) == GateReference(g, o)
    && SubjectOf(a) == SubjectPart(GateSubject(g, o), a.version)
  }

  predicate SnapshotBindingPresent(a: Authorization) {
    && a.version.Current?
    && IsFingerprint(SubjectOf(a).snapshot) && IsFingerprint(SubjectOf(a).manifest)
    && IsFingerprint(ScopeOf(a).snapshot) && IsFingerprint(ScopeOf(a).manifest)
  }

  predicate Meets(expected: Option<string>, subject: Option<Json>, scope: Option<Json>, gate: Option<Json>) {
    expected.Some? ==> subject == scope == gate == Some(Str(expected.value))
  }

  predicate MeetsExactly(expected: Option<string>, subject: Option<Json>, scope: Option<Json>, gate: Option<Json>) {
    subject == scope == gate && (expected.Some? ==> subject == Some(Str(expected.value)))
  }

  predicate RuntimeMatches(a: Authorization, g: GateDecision, x: Runtime, o: Outside) {
    var subject, scope, gate := SubjectOf(a), ScopeOf(a), GateSubject(g, o);
    && Meets(x.repo, subject.repo, scope.repo, gate.repo)
    && Meets(x.commit, subject.commit, scope.commit, gate.commit)
    && Meets(x.tree, subject.tree, scope.tree, gate.tree)
    && MeetsExactly(x.snapshot, subject.snapshot, scope.snapshot, gate.snapshot)
    && MeetsExactly(x.manifest, subject.manifest, scope.manifest, gate.manifest)
  }

  predicate SnapshotOk(a: Authorization, g: GateDecision, x: Runtime, o: Outside) {
    a.version.Current? ==>
      && SnapshotBindingPresent(a) && GateSubject(g, o).binding == Some(Str("snapshot_bound"))
      && RuntimeMatches(a, g, x, o)
  }

  predicate NotExpired(a: Authorization, x: Runtime, o: Outside) {
    && a.expiresAt.Str? && a.expiresAt.s != ""
    && o.date(a.expiresAt.s).Some? && o.date(a.expiresAt.s).value > x.now
  }

  predicate ApprovalOk(approver: Json, at: Json, o: Outside) {
    && approver.Str? && approver.s != ""
    && at.Str? && at.s != "" && o.date(at.s).Some?
  }

  predicate ImageOk(image: Option<Image>, x: Runtime, o: Outside) {
    && image.Some?
    && o.isPinned(image.value.reference)
    && x.imageReference.Some? && image.value.reference == Str(x.imageReference.value)
    && x.imageId.Some? && image.value.id == Str(x.imageId.value) && o.isFullId(image.value.id)
  }

  predicate VerdictOk(g: GateDecision) {
    g.verdict == Some(Str("warn")) || g.verdict == Some(Str("allow_limited"))
  }

  /** Everything that the validator asks for. */
  predicate Accepts(a: Authorization, g: GateDecision, argv: seq<string>, x: Runtime, o: Outside) {
    && ShapeOk(a)
    && ArgvOk(a, argv)
    && DecisionMatches(a, g, o)
    && SnapshotOk(a, g, x, o)
    && NotExpired(a, x, o)
    && ApprovalOk(a.approvedBy, a.approvedAt, o)
    && (a.image.Some? ==> ImageOk(a.image.value, x, o))
    && VerdictOk(g)
    && !o.hasForbiddenText(a) && !o.hasHostPath(a)
  }

  // ----- the validator -----

  function AddIf(errors: seq<string>, condition: bool, error: string): (r: seq<string>)
    ensures r == [] <==> errors == [] && !condition
  {
    if condition then errors + [error] else errors
  }

  method ShapeErrors(a: Authorization) returns (errors: seq<string>)
    ensures errors == [] <==> ShapeOk(a)
  {
    var imageAllowed := a.version.ImageBound? || a.version.Current?;
    errors := AddIf([], !a.complete || a.unknownFields || (a.image.Some? && !imageAllowed),
                    "authorization_top_level_required_or_unknown_field");
    errors := AddIf(errors, a.kind != AUTHORIZATION_KIND, "authorization_kind_unsupported");
    errors := AddIf(errors, a.version.OtherVersion?, "authorization_schema_version_unsupported");
    errors := AddIf(errors, a.approved != Bool(true), "approval_missing");
    errors := AddIf(errors, a.approved !in {Bool(true), Bool(false), Int(0), Int(1)}, "approved_must_be_boolean");
    errors := AddIf(errors, a.limitations == [], "limitations_empty");
    errors := AddIf(errors, a.residualRisks == [], "residual_risks_empty");
  }

  method ReferenceErrors(basedOn: Reference, g: GateDecision, o: Outside) returns (errors: seq<string>)
    ensures errors == [] <==> basedOn == GateReference(g, o)
  {
    errors := AddIf([], basedOn.kind.None? || basedOn.version.None? || basedOn.verdict.None?
                        || basedOn.fingerprint.None? || basedOn.others.Keys != {},
                    "based_on_gate_decision_required_or_unknown_field");
    errors := AddIf(errors, basedOn != GateReference(g, o), "based_on_gate_decision_mismatch");
  }

  method SubjectErrors(subject: SubjectFields, expected: SubjectFields) returns (errors: seq<string>)
    ensures errors == [] <==> subject == expected
  {
    errors := AddIf([], !HasFieldsOf(subject, expected), "authorization_subject_required_or_unknown_field");
    errors := AddIf(errors, subject != expected, "authorization_subject_mismatch");
  }

  method DecisionErrors(a: Authorization, g: GateDecision, argv: seq<string>, o: Outside) returns (errors: seq<string>)
    ensures errors == [] <==> DecisionMatches(a, g, o) && ArgvOk(a, argv)
  {
    var gateSubject := GateSubject(g, o);
    errors := AddIf([], ScopeOf(a) != (if a.version.Current? then gateSubject else LegacyScope(gateSubject)),
                    "approved_scope_mismatch");
    errors := AddIf(errors, a.argv != Some(Strings(argv)) || exists s :: s in argv && s == "", "approved_argv_mismatch");
    errors := AddIf(errors, a.policyVersion != TextOrNull(g.policyVersion), "approved_policy_version_mismatch");
    var ofReference := ReferenceErrors(ReferenceOf(a), g, o);
    var ofSubject := SubjectErrors(SubjectOf(a), SubjectPart(gateSubject, a.version));
    errors := errors + ofReference + ofSubject;
  }

  method SnapshotErrors(a: Authorization, g: GateDecision, x: Runtime, o: Outside) returns (errors: seq<string>)
    ensures errors == [] <==> SnapshotOk(a, g, x, o)
  {
    errors := [];
    if a.version.Current? {
      if !SnapshotBindingPresent(a) || GateSubject(g, o).binding != Some(Str("snapshot_bound")) {
        errors := ["authorization_snapshot_binding_unresolved"];
      } else if !RuntimeMatches(a, g, x, o) {
        errors := ["authorization_snapshot_binding_mismatch"];
      }
    }
  }

  method ExpiryErrors(a: Authorization, x: Runtime, o: Outside) returns (errors: seq<string>)
    ensures errors == [] <==> NotExpired(a, x, o)
  {
    if !a.expiresAt.Str? || a.expiresAt.s == "" {
      return ["expires_at_required"];
    }
    var expires := o.date(a.expiresAt.s);
    if expires.None? {
      return ["expires_at_invalid"];
    }
    errors := if expires.value <= x.now then ["authorization_expired"] else [];
  }

  method ApprovalErrors(a: Authorization, o: Outside) returns (errors: seq<string>)
    ensures errors == [] <==> a.approved == Bool(true) ==> ApprovalOk(a.approvedBy, a.approvedAt, o)
  {
    errors := [];
    if a.approved != Bool(true) {
      return;
    }
    errors := AddIf(errors, !a.approvedBy.Str? || a.approvedBy.s == "", "approved_by_required");
    if !a.approvedAt.Str? || a.approvedAt.s == "" {
      errors := errors + ["approved_at_required"];
      return;
    }
    errors := AddIf(errors, o.date(a.approvedAt.s).None?, "approved_at_invalid");
  }

  method ImageErrors(image: Option<Image>, x: Runtime, o: Outside) returns (errors: seq<string>)
    ensures errors == [] <==> ImageOk(image, x, o)
  {
    if image.None? {
      return ["authorization_approved_image_invalid"];
    }
    var reference, id := image.value.reference, image.value.id;
    errors := AddIf([], !o.isPinned(reference), "approved_image_digest_unpinned");
    errors := AddIf(errors, x.imageReference.None? || reference != Str(x.imageReference.value),
                    "approved_image_reference_mismatch");
    if x.imageId.None? || !o.isFullId(Str(x.imageId.value)) {
      errors := errors + ["runtime_image_id_unresolved"];
    } else {
      errors := AddIf(errors, Str(x.imageId.value) != id, "approved_image_id_mismatch");
    }
    errors := AddIf(errors, !o.isFullId(id), "approved_image_id_mismatch");
  }

  method VerdictErrors(g: GateDecision) returns (errors: seq<string>)
    ensures errors == [] <==> VerdictOk(g)
  {
    errors := [];
    var verdict := OrNull(g.verdict);
    if verdict == Str("block") || verdict == Str("quarantine") || verdict == Str("unknown") {
      errors := errors + ["gate_verdict_" + verdict.s + "_cannot_be_authorized"];
    } else if verdict != Str("warn") && verdict != Str("allow_limited") {
      errors := errors + ["gate_verdict_invalid_for_authorization"];
    }
  }

  /** `validate_execution_authorization`: valid and authorized exactly if everything asked for holds. */
  method ValidateExecutionAuthorization(a: Authorization, g: GateDecision, argv: seq<string>, x: Runtime, o: Outside)
    returns (errors: seq<string>, authorized: bool)
    ensures errors == [] <==> Accepts(a, g, argv, x, o)
    ensures authorized <==> Accepts(a, g, argv, x, o)
  {
    errors := ShapeErrors(a);
    var more := DecisionErrors(a, g, argv, o);
    errors := errors + more;
    more := SnapshotErrors(a, g, x, o);
    errors := errors + more;
    more := ExpiryErrors(a, x, o);
    errors := errors + more;
    more := ApprovalErrors(a, o);
    errors := errors + more;
    if a.image.Some? && (a.version.ImageBound? || a.version.Current?) {
      more := ImageErrors(a.image.value, x, o);
      errors := errors + more;
    }
    more := VerdictErrors(g);
    errors := errors + more;
    errors := AddIf(errors, o.hasForbiddenText(a), "authorization_contains_forbidden_raw_pattern");
    errors := AddIf(errors, o.hasHostPath(a), "authorization_contains_raw_host_path");
    authorized := errors == [] && a.approved == Bool(true);
  }

  // ----- one decision, one command -----

  lemma StringsAreInjective(a: seq<string>, b: seq<string>)
    requires Strings(a) == Strings(b)
    ensures a == b
  {
    assert |a| == |Strings(a)| && |b| == |Strings(b)|;
    forall i | 0 <= i < |a| ensures a[i] == b[i] {
      assert Strings(a)[i] == Str(a[i]) && Strings(b)[i] == Str(b[i]);
    }
  }

  /** An authorization that is valid twice is so for one command and one decision fingerprint. */
  lemma OneCommandOneDecision(a: Authorization, g: GateDecision, argv: seq<string>, x: Runtime, g': GateDecision,
                              argv': seq<string>, x': Runtime, o: Outside)
    requires Accepts(a, g, argv, x, o) && Accepts(a, g', argv', x', o)
    ensures argv == argv' && o.digest(g) == o.digest(g')
  {
    StringsAreInjective(argv, argv');
  }

  /** A subject field of the decision, if it is text, is what the caller expects of the run. */
  predicate Expects(expected: Option<string>, found: Option<Json>) {
    expected.Some? ==> found.Some? && found.value == Str(expected.value)
  }

  predicate IsSha256(value: Option<Json>) {
    && value.Some? && value.value.Str? && |value.value.s| == 71 && value.value.s[..7] == "sha256:"
    && forall i :: 7 <= i < 71 ==> '0' <= value.value.s[i] <= '9' || 'a' <= value.value.s[i] <= 'f'
  }

  predicate IsText(value: Json) {
    value.Str? && value.s != ""
  }

  predicate IsImageOfRun(image: Option<Image>, x: Runtime, o: Outside) {
    && image.Some? && x.imageReference.Some? && x.imageId.Some?
    && image.value == Image(Str(x.imageReference.value), Str(x.imageId.value))
    && o.isPinned(image.value.reference) && o.isFullId(image.value.id)
  }

  /** What a caller can check before approving a draft: the decision lets something pass and names its snapshot, the
      command has no empty arguments, approval and expiry are dated and the expiry is to come, the image is that of the
      run, and what is expected of the run is what the decision says of its subject. */
  predicate Approvable(g: GateDecision, argv: seq<string>, expiresAt: Option<string>, image: Option<Option<Image>>,
                       approver: Json, at: Json, x: Runtime, o: Outside)
  {
    var a := Approved(Draft(g, argv, expiresAt, image, o), approver, at);
    && g.verdict in {Some(Str("warn")), Some(Str("allow_limited"))}
    && IsSha256(g.subject.snapshot) && IsSha256(g.subject.manifest)
    && g.subject.binding.Some? && o.shown(g.subject.binding.value) == "snapshot_bound"
    && "" !in argv
    && IsText(approver) && IsText(at) && o.date(at.s).Some?
    && expiresAt.Some? && expiresAt.value != "" && o.date(expiresAt.value).Some? && x.now < o.date(expiresAt.value).value
    && (image.Some? ==> IsImageOfRun(image.value, x, o))
    && (x.repo.Some? ==> x.repo.value == if g.subject.repo.Some? then o.shown(g.subject.repo.value) else "<repo>")
    && Expects(x.commit, g.subject.commit) && Expects(x.tree, g.subject.tree)
    && Expects(x.snapshot, g.subject.snapshot) && Expects(x.manifest, g.subject.manifest)
    && !o.hasForbiddenText(a) && !o.hasHostPath(a)
  }

  lemma FingerprintIs(value: Option<Json>)
    ensures IsFingerprint(Some(TextOrNull(value))) <==> IsSha256(value)
  {
    var text := TextOrNull(value);
    if text.Str? && |text.s| == 71 {
      assert "sha256:" <= text.s <==> text.s[..7] == "sha256:";
      forall i | 7 <= i < 71 ensures text.s[i] in "0123456789abcdef" <==> '0' <= text.s[i] <= '9' || 'a' <= text.s[i] <= 'f' {
        HexDigitIs(text.s[i]);
      }
    }
  }

  lemma HexDigitIs(c: char)
    ensures c in "0123456789abcdef" <==> '0' <= c <= '9' || 'a' <= c <= 'f'
  {
    var digits := "0123456789abcdef";
    if '0' <= c <= '9' { assert digits[c as int - '0' as int] == c; }
    if 'a' <= c <= 'f' { assert digits[c as int - 'a' as int + 10] == c; }
  }

  lemma MeetsIs(expected: Option<string>, value: Option<Json>)
    ensures var f := Some(TextOrNull(value));
            && (Meets(expected, f, f, f) <==> Expects(expected, value))
            && (MeetsExactly(expected, f, f, f) <==> Expects(expected, value))
  {
  }

  lemma NoEmptyArgument(argv: seq<string>)
    ensures (forall s :: s in argv ==> s != "") <==> "" !in argv
  {
  }

  lemma ImageIs(image: Option<Image>, x: Runtime, o: Outside)
    ensures ImageOk(image, x, o) <==> IsImageOfRun(image, x, o)
  {
  }

  /** What the validator asks of a snapshot, of an approved draft. */
  lemma DraftSnapshotOk(g: GateDecision, argv: seq<string>, expiresAt: Option<string>, image: Option<Option<Image>>,
                        approver: Json, at: Json, x: Runtime, o: Outside)
    ensures SnapshotOk(Approved(Draft(g, argv, expiresAt, image, o), approver, at), g, x, o) <==>
              && IsSha256(g.subject.snapshot) && IsSha256(g.subject.manifest)
              && g.subject.binding.Some? && o.shown(g.subject.binding.value) == "snapshot_bound"
              && (x.repo.Some? ==> x.repo.value == if g.subject.repo.Some? then o.shown(g.subject.repo.value) else "<repo>")
              && Expects(x.commit, g.subject.commit) && Expects(x.tree, g.subject.tree)
              && Expects(x.snapshot, g.subject.snapshot) && Expects(x.manifest, g.subject.manifest)
  {
    FingerprintIs(g.subject.snapshot);
    FingerprintIs(g.subject.manifest);
    MeetsIs(x.commit, g.subject.commit);
    MeetsIs(x.tree, g.subject.tree);
    MeetsIs(x.snapshot, g.subject.snapshot);
    MeetsIs(x.manifest, g.subject.manifest);
    BindingIs(g.subject.binding, o);
  }

  lemma BindingIs(binding: Option<Json>, o: Outside)
    ensures Str(if binding.None? then "unbound" else o.shown(binding.value)) == Str("snapshot_bound") <==>
              binding.Some? && o.shown(binding.value) == "snapshot_bound"
  {
    assert |"unbound"| == 7;
  }

  /** A draft that was approved, and not otherwise changed, is valid for its own decision and command exactly when it
      was approvable. */
  lemma OwnPairExactlyWhen(g: GateDecision, argv: seq<string>, expiresAt: Option<string>, image: Option<Option<Image>>,
                           approver: Json, at: Json, x: Runtime, o: Outside)
    ensures Accepts(Approved(Draft(g, argv, expiresAt, image, o), approver, at), g, argv, x, o) <==>
            Approvable(g, argv, expiresAt, image, approver, at, x, o)
  {
    DraftMatchesItsDecision(g, argv, expiresAt, image, approver, at, o);
    DraftSnapshotOk(g, argv, expiresAt, image, approver, at, x, o);
    NoEmptyArgument(argv);
    if image.Some? { ImageIs(image.value, x, o); }
  }

  lemma DraftMatchesItsDecision(g: GateDecision, argv: seq<string>, expiresAt: Option<string>,
                                image: Option<Option<Image>>, approver: Json, at: Json, o: Outside)
    ensures var a := Approved(Draft(g, argv, expiresAt, image, o), approver, at);
            && ShapeOk(a) && DecisionMatches(a, g, o)
            && (ArgvOk(a, argv) <==> forall s :: s in argv ==> s != "")
  {
  }

  /** It is valid for another pair only if the command is the same and the fingerprints agree; so, with fingerprints that
      tell decisions apart, exactly for its own pair. */
  lemma DraftFitsOnePair(g: GateDecision, argv: seq<string>, expiresAt: Option<string>, image: Option<Option<Image>>,
                         approver: Json, at: Json, g': GateDecision, argv': seq<string>, x: Runtime, o: Outside)
    ensures var a := Approved(Draft(g, argv, expiresAt, image, o), approver, at);
            && (Accepts(a, g', argv', x, o) ==> argv' == argv && o.digest(g') == o.digest(g))
            && ((o.digest(g') == o.digest(g) ==> g' == g) ==>
                  (Accepts(a, g', argv', x, o) <==>
                     g' == g && argv' == argv && Approvable(g, argv, expiresAt, image, approver, at, x, o)))
  {
    var a := Approved(Draft(g, argv, expiresAt, image, o), approver, at);
    OwnPairExactlyWhen(g, argv, expiresAt, image, approver, at, x, o);
    if Accepts(a, g', argv', x, o) {
      StringsAreInjective(argv, argv');
      assert ReferenceOf(a) == GateReference(g', o);
    }
  }

  /** What a valid authorization means, for any version: the decision lets something pass, and the authorization refers to
      it, was approved by somebody at some time for this very command, has not expired, and is bound to the image and,
      unless it is an old one, to the snapshot of the run. */
  lemma ValidMeans(a: Authorization, g: GateDecision, argv: seq<string>, x: Runtime, o: Outside)
    requires Accepts(a, g, argv, x, o)
    ensures g.verdict in {Some(Str("warn")), Some(Str("allow_limited"))}
    ensures a.basedOn.Some? && a.basedOn.value.fingerprint == Some(Str(o.digest(g)))
    ensures a.approved == Bool(true) && IsText(a.approvedBy) && IsText(a.approvedAt) && o.date(a.approvedAt.s).Some?
    ensures a.argv.Some? && |a.argv.value| == |argv| && "" !in argv
            && forall i :: 0 <= i < |argv| ==> a.argv.value[i] == Str(argv[i])
    ensures IsText(a.expiresAt) && o.date(a.expiresAt.s).Some? && x.now < o.date(a.expiresAt.s).value
    ensures a.image.Some? ==> IsImageOfRun(a.image.value, x, o)
    ensures a.policyVersion == TextOrNull(g.policyVersion)
    ensures a.version.Current? ==>
              && IsSha256(g.subject.snapshot) && IsSha256(g.subject.manifest)
              && Expects(x.snapshot, g.subject.snapshot) && Expects(x.manifest, g.subject.manifest)
              && Expects(x.commit, g.subject.commit) && Expects(x.tree, g.subject.tree)
              && a.scope.Some? && a.scope.value.snapshot == g.subject.snapshot
              && a.scope.value.manifest == g.subject.manifest
    ensures !o.hasForbiddenText(a) && !o.hasHostPath(a)
  {
    CurrentMeans(a, g, x, o);
    NoEmptyArgument(argv);
    if a.image.Some? { ImageIs(a.image.value, x, o); }
    ReferenceMeans(a, g, o);
  }

  lemma ReferenceMeans(a: Authorization, g: GateDecision, o: Outside)
    requires DecisionMatches(a, g, o)
    ensures a.basedOn.Some? && a.basedOn.value.fingerprint == Some(Str(o.digest(g)))
  {
    assert ReferenceOf(a).fingerprint.Some?;
  }

  lemma CurrentMeans(a: Authorization, g: GateDecision, x: Runtime, o: Outside)
    requires DecisionMatches(a, g, o) && SnapshotOk(a, g, x, o)
    ensures a.version.Current? ==>
              && IsSha256(g.subject.snapshot) && IsSha256(g.subject.manifest)
              && Expects(x.snapshot, g.subject.snapshot) && Expects(x.manifest, g.subject.manifest)
              && Expects(x.commit, g.subject.commit) && Expects(x.tree, g.subject.tree)
              && a.scope.Some? && a.scope.value.snapshot == g.subject.snapshot
              && a.scope.value.manifest == g.subject.manifest
  {
    FingerprintIs(g.subject.snapshot);
    FingerprintIs(g.subject.manifest);
    MeetsIs(x.commit, g.subject.commit);
    MeetsIs(x.tree, g.subject.tree);
  }

  /** What could be authorized with a command could be authorized with the empty command, too. */
  lemma EmptyCommandIsAccepted(g: GateDecision, argv: seq<string>, expiresAt: Option<string>, image: Option<Option<Image>>,
                               approver: Json, at: Json, x: Runtime, o: Outside)
    requires Approvable(g, argv, expiresAt, image, approver, at, x, o)
    requires var a := Approved(Draft(g, [], expiresAt, image, o), approver, at);
             !o.hasForbiddenText(a) && !o.hasHostPath(a)
    ensures Accepts(Approved(Draft(g, [], expiresAt, image, o), approver, at), g, [], x, o)
  {
    OwnPairExactlyWhen(g, [], expiresAt, image, approver, at, x, o);
  }

  /** Nothing but an approval makes a valid authorization of a draft, whatever else is changed. */
  lemma UnapprovedIsNeverValid(a: Authorization, g: GateDecision, argv: seq<string>, x: Runtime, o: Outside)
    requires Accepts(a, g, argv, x, o)
    ensures a.approved == Bool(true)
    ensures forall g', argv', e, i :: a != Draft(g', argv', e, i, o)
  {
  }
}
