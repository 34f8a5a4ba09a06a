/** The bounded Goal Loop of scripts/goal_loop_runner.py. The agent is an arbitrary step over the repository,
    the features document and its own artifacts; signals may arrive between any two statements. */
module GoalLoop {
  import opened Wrappers
  import opened HostCommit
  import opened Porcelain
  import Text

  const TIMEOUT_EXIT_CODE := 4

  type Signal = n: int | 1 <= n <= 64 witness 2

  // ----- the features document -----

  datatype Feature = Feature(id: string, passes: bool, blocked: bool, verifiedAt: Option<string>)

  type Document = seq<Feature>

  /** docs/features.json: unreadable (or not of the required JSON types), or a list of features. */
  datatype FeaturesFile = Unreadable | Features(document: Document)

  datatype Completion = AllPassed | AllRemainingBlocked | Continue | Invalid

  function CompletionState(document: Document): Completion {
    if document == [] || exists f :: f in document && f.id == "" then Invalid
    else if forall f :: f in document ==> f.passes then AllPassed
    else if forall f :: f in document && !f.passes ==> f.blocked then AllRemainingBlocked
    else Continue
  }

  /** The features file can be loaded: it is readable and of valid shape. */
  predicate IsLoadable(f: FeaturesFile) {
    f.Features? && CompletionState(f.document) != Invalid
  }

  predicate IsPending(f: Feature) {
    !f.passes && !f.blocked
  }

  function PendingFeature(document: Document): Option<Feature> {
    if document == [] then None
    else if IsPending(document[0]) then Some(document[0])
    else PendingFeature(document[1..])
  }

  function FeatureById(document: Document, id: string): Option<Feature> {
    if document == [] then None
    else if document[0].id == id then Some(document[0])
    else FeatureById(document[1..], id)
  }

  predicate UniqueIds(document: Document) {
    forall i, j :: 0 <= i < j < |document| ==> document[i].id != document[j].id
  }

  predicate PendingIn(document: Document, id: string) {
    exists f :: f in document && f.id == id && IsPending(f)
  }

  lemma {:induction false} PendingFeatureIsPending(document: Document)
    ensures var f := PendingFeature(document);
            if f.Some? then f.value in document && IsPending(f.value)
            else forall g :: g in document ==> !IsPending(g)
  {
    if document != [] && !IsPending(document[0]) {
      PendingFeatureIsPending(document[1..]);
    }
  }

  /** A document of valid shape has a selectable feature exactly when its state is Continue; otherwise it is
      all passed or all remaining are blocked, so the loop's "no selectable feature" return is dead. */
  lemma SelectableExactlyWhenContinue(document: Document)
    requires CompletionState(document) != Invalid
    ensures PendingFeature(document).Some? <==> CompletionState(document) == Continue
    ensures PendingFeature(document).None? ==> CompletionState(document) in {AllPassed, AllRemainingBlocked}
  {
    PendingFeatureIsPending(document);
  }

  /** A document is invalid exactly if it lists nothing or a feature without an id; else it is all passed exactly if every
      feature passes, and all remaining are blocked exactly if some does not pass and every such is blocked. */
  lemma CompletionMeans(document: Document)
    ensures CompletionState(document) == Invalid <==> document == [] || exists f :: f in document && f.id == ""
    ensures CompletionState(document) == AllPassed <==>
              CompletionState(document) != Invalid && forall f :: f in document ==> f.passes
    ensures CompletionState(document) == AllRemainingBlocked <==>
              && CompletionState(document) != Invalid && (exists f :: f in document && !f.passes)
              && forall f :: f in document ==> f.passes || f.blocked
    ensures CompletionState(document) == Continue <==>
              CompletionState(document) != Invalid && exists f :: f in document && !f.passes && !f.blocked
  {
  }

  lemma {:induction false} FeatureByIdFinds(document: Document, id: string)
    ensures var f := FeatureById(document, id);
            if f.Some? then f.value in document && f.value.id == id
            else forall g :: g in document ==> g.id != id
    ensures UniqueIds(document) ==>
              forall g :: g in document && g.id == id ==> FeatureById(document, id) == Some(g)
  {
    if document != [] {
      FeatureByIdFinds(document[1..], id);
      if UniqueIds(document) {
        assert UniqueIds(document[1..]);
      }
    }
  }

  /** With unique ids a feature that passes or is blocked is not pending, and neither is one that is gone. */
  lemma FinishedIsNotPending(document: Document, id: string)
    requires UniqueIds(document)
    ensures var f := FeatureById(document, id); (f.Some? ==> f.value.passes || f.value.blocked) ==> !PendingIn(document, id)
  {
    FeatureByIdFinds(document, id);
  }

  /** `keep_timed_out_feature_pending` on the first feature with this id. */
  function Reopened(document: Document, id: string): Document {
    if document == [] then []
    else if document[0].id == id then
      [if document[0].passes || document[0].verifiedAt.Some?
       then document[0].(passes := false, verifiedAt := None) else document[0]] + document[1..]
    else [document[0]] + Reopened(document[1..], id)
  }

  /** After it, the selected feature neither passes nor carries a verification time, and every other
      feature is as it was. */
  lemma {:induction false} ReopenedIsNotPassing(document: Document, id: string)
    ensures |Reopened(document, id)| == |document|
    ensures FeatureById(document, id).Some? <==> FeatureById(Reopened(document, id), id).Some?
    ensures var f := FeatureById(Reopened(document, id), id);
            f.Some? ==> f.value == FeatureById(document, id).value.(passes := false, verifiedAt := None)
    ensures forall i :: 0 <= i < |document| && document[i].id != id ==> Reopened(document, id)[i] == document[i]
  {
    if document != [] && document[0].id != id {
      ReopenedIsNotPassing(document[1..], id);
      assert Reopened(document, id)[1..] == Reopened(document[1..], id);
    }
  }

  // ----- the outcome of one iteration -----

  datatype RunState =
    | Interrupted | TimedOut | RunFailed | Complete | RunBlocked
    | FeatureComplete | FeatureBlocked | Incomplete | ManualReview

  datatype Outcome = Outcome(state: RunState, exit: Option<int>, signal: Option<Signal>)

  /** What `finalize_iteration` is called with. `selected` is the (passes, blocked) pair of the feature that
      was worked on, if it still exists. */
  datatype Evidence = Evidence(
    timedOut: bool,
    artifactError: bool,
    agentExit: Option<int>,
    hostExit: Option<int>,
    selected: Option<(bool, bool)>,
    document: Document,
    attempt: int,
    maxAttempts: int,
    isFinal: bool)

  predicate SelectedFinished(e: Evidence) {
    e.selected.Some? && (e.selected.value.0 || e.selected.value.1)
  }

  function DetermineOutcome(received: Option<Signal>, e: Evidence): Outcome {
    if received.Some? then Outcome(Interrupted, Some(128 + received.value), received)
    else if e.timedOut then Outcome(TimedOut, Some(TIMEOUT_EXIT_CODE), None)
    else if e.artifactError then Outcome(RunFailed, Some(3), None)
    else if e.agentExit != Some(0) then Outcome(RunFailed, Some(3), None)
    else if e.hostExit.Some? then Outcome(RunFailed, e.hostExit, None)
    else
      var completion := CompletionState(e.document);
      if completion == AllPassed then Outcome(Complete, Some(0), None)
      else if completion == AllRemainingBlocked then Outcome(RunBlocked, Some(2), None)
      else if completion != Continue then Outcome(RunFailed, Some(3), None)
      else if SelectedFinished(e) then
        if !e.isFinal then
          Outcome(if e.selected.value.0 then FeatureComplete else FeatureBlocked, None, None)
        else Outcome(Incomplete, Some(1), None)
      else if e.attempt >= e.maxAttempts then Outcome(ManualReview, Some(2), None)
      else if e.isFinal then Outcome(Incomplete, Some(1), None)
      else Outcome(Incomplete, None, None)
  }

  predicate ValidHostExit(e: Evidence) {
    e.hostExit.Some? ==> e.hostExit.value in {RUNNER_REQUEST_ERROR, RUNNER_STAGE_ERROR, RUNNER_COMMIT_ERROR}
  }

  /** The run goes on exactly after an undisturbed, committed, non-final iteration that leaves work to do and
      either finished its feature or has attempts left. */
  lemma ContinuesExactlyWhen(received: Option<Signal>, e: Evidence)
    ensures DetermineOutcome(received, e).exit.None? <==>
              && received.None? && !e.timedOut && !e.artifactError
              && e.agentExit == Some(0) && e.hostExit.None?
              && CompletionState(e.document) == Continue
              && !e.isFinal
              && (SelectedFinished(e) || e.attempt < e.maxAttempts)
  {
  }

  /** Success is reported exactly for an undisturbed, committed iteration that leaves every feature passing; a code
      above 128 names the signal; and a timed-out iteration always ends the run. */
  lemma ExitCodeMeaning(received: Option<Signal>, e: Evidence)
    requires ValidHostExit(e)
    ensures var exit := DetermineOutcome(received, e).exit;
            && (exit == Some(0) <==>
                  && received.None? && !e.timedOut && !e.artifactError
                  && e.agentExit == Some(0) && e.hostExit.None?
                  && CompletionState(e.document) == AllPassed)
            && (exit.Some? && exit.value > 128 <==> received.Some?)
            && (received.Some? ==> exit == Some(128 + received.value))
            && (e.timedOut ==> exit == Some(TIMEOUT_EXIT_CODE) || received.Some?)
  {
  }

  /** Undisturbed and in time, a turn fails with 3 exactly for its artifacts, the agent's own failure, or a document of
      invalid shape; with a code of the commit boundary exactly if that failed; with 2 exactly if all remaining features are
      blocked or its own has no attempt left; and with 1 exactly if it was the last allowed and left work to do. */
  lemma FailureCodeMeaning(e: Evidence)
    requires ValidHostExit(e) && !e.timedOut
    ensures var exit, state := DetermineOutcome(None, e).exit, CompletionState(e.document);
            var committed := !e.artifactError && e.agentExit == Some(0) && e.hostExit.None?;
            var finished := e.selected.Some? && (e.selected.value.0 || e.selected.value.1);
            && (exit == Some(3) <==>
                  e.artifactError || e.agentExit != Some(0) || (e.hostExit.None? && state == Invalid))
            && (forall code :: code in {RUNNER_REQUEST_ERROR, RUNNER_STAGE_ERROR, RUNNER_COMMIT_ERROR} ==>
                  (exit == Some(code) <==> !e.artifactError && e.agentExit == Some(0) && e.hostExit == Some(code)))
            && (exit == Some(2) <==>
                  committed && (state == AllRemainingBlocked
                                || (state == Continue && !finished && e.attempt >= e.maxAttempts)))
            && (exit == Some(1) <==>
                  committed && state == Continue && e.isFinal && (finished || e.attempt < e.maxAttempts))
  {
  }

  /** The recorded state and the exit code tell the same story; and a continuing iteration that is recorded as complete
      or blocked says so of the feature that was worked on. */
  lemma StateAndExitAgree(received: Option<Signal>, e: Evidence)
    requires ValidHostExit(e)
    ensures var o := DetermineOutcome(received, e);
            && (o.state == Interrupted <==> o.signal.Some?) && o.signal == received
            && (o.state == TimedOut <==> o.exit == Some(TIMEOUT_EXIT_CODE))
            && (o.state == Complete <==> o.exit == Some(0))
            && (o.state in {RunBlocked, ManualReview} <==> o.exit == Some(2))
            && (o.state == Incomplete <==> o.exit == Some(1) || (o.exit.None? && !SelectedFinished(e)))
            && (o.state == FeatureComplete <==> o.exit.None? && e.selected.Some? && e.selected.value.0)
            && (o.state == FeatureBlocked <==> o.exit.None? && SelectedFinished(e) && !e.selected.value.0)
            && (o.exit == Some(1) ==> e.isFinal)
            && (o.state == ManualReview ==> !SelectedFinished(e) && e.attempt >= e.maxAttempts)
  {
  }

  // ----- histories of a run -----

  /** iter-NNN/metadata.json, and metadata.json and summary.txt of the run directory. */
  datatype Artifacts = Artifacts(iteration: Option<Outcome>, run: Option<Outcome>, summary: Option<Outcome>)

  /** What the agent left behind: how it ended, whether its final message can be read, its features file, request and
      snapshot file, and the tree. */
  datatype Turn = Turn(timedOut: bool, agentExit: Option<int>, finalReadable: bool, featuresFile: FeaturesFile,
                       request: RequestFile, snapshot: SnapshotFile, dirty: set<Path>, staged: set<Path>)

  /** What happened in one iteration that got as far as the agent, the signal that was noticed when its outcome was last
      written or printed, and the state it left. */
  datatype IterationRecord = IterationRecord(
    feature: string,
    dirtyAtStart: set<Path>,
    stagedAtStart: set<Path>,
    turn: Turn,
    read: Option<Document>,
    atBoundary: Option<Signal>,
    git: GitAnswers,
    logBefore: seq<Commit>,
    boundaryExit: Option<int>,
    evidence: Evidence,
    noticed: Option<Signal>,
    exit: Option<int>,
    dirtyAtEnd: set<Path>,
    logAfter: seq<Commit>,
    featuresFile: FeaturesFile,
    received: Option<Signal>,
    files: Artifacts)

  /** The agent ended well and left readable artifacts. */
  predicate TurnOk(e: Evidence) {
    e.agentExit == Some(0) && !e.timedOut && !e.artifactError
  }

  /** Either the boundary was called after a good turn, succeeded, and appended exactly the request, none of whose paths
      was dirty when the iteration began, or the log is untouched. */
  predicate CommitStepOk(r: IterationRecord) {
    && (r.boundaryExit.Some? ==> TurnOk(r.evidence))
    && r.evidence.hostExit == (if r.boundaryExit == Some(0) then None else r.boundaryExit)
    && (r.boundaryExit == Some(0) ==>
          && r.turn.request.Request?
          && r.logAfter == r.logBefore + [Commit(r.turn.request.message, AsSet(r.turn.request.paths))]
          && AsSet(r.turn.request.paths) !! r.dirtyAtStart
          && r.dirtyAtEnd <= r.dirtyAtStart)
    && (r.boundaryExit != Some(0) ==> r.logAfter == r.logBefore)
  }

  /** What the boundary asks for, the trusted snapshot being of the tree at the start: a one-line message that says
      something, different safe paths that are exactly what the agent changed, the snapshot file as it was, nothing staged
      before or now, only files in the repository that git does not ignore, and a git that does as it is told. */
  ghost predicate MayCommit(request: RequestFile, snapshot: SnapshotFile, trusted: SnapshotFile, dirty: set<Path>,
                            staged: set<Path>, git: GitAnswers, safe: Path -> bool)
  {
    && request.Request? && trusted.Snapshot? && snapshot == trusted
    && Text.Strip(request.message) != [] && '\n' !in request.message && '\r' !in request.message
    && request.paths != [] && (forall i, j :: 0 <= i < j < |request.paths| ==> request.paths[i] != request.paths[j])
    && (set p | p in request.paths) == dirty - trusted.dirty
    && (forall p :: p in request.paths || p in trusted.dirty ==> safe(p))
    && trusted.staged == {} && staged == {} && git.status.Some?
    && (forall p :: p in request.paths ==>
          var f := git.files(p); f.present && !f.isDirectory && f.insideRepo && f.ignore.NotIgnored?)
    && git.addSucceeds && git.matched == dirty - trusted.dirty && git.listSucceeds && git.checkSucceeds
    && git.commitSucceeds
  }

  /** The boundary's own checks say the same of a snapshot that is still the trusted one. */
  lemma BoundaryAsksFor(request: RequestFile, trusted: SnapshotFile, root: string, dirty: set<Path>, staged: set<Path>,
                        git: GitAnswers, safe: Path -> bool)
    requires trusted.Snapshot? && trusted.root == root && trusted.staged <= trusted.dirty
    ensures MayCommit(request, trusted, trusted, dirty, staged, git, safe) <==>
              && RequestAccepted(request, safe) && SnapshotAccepted(trusted, root, safe)
              && TreeAccepted(request.paths, trusted, dirty, staged, git)
              && StagingAccepted(request.paths, git) && git.commitSucceeds
  {
    if request.Request? {
      var requested := AsSet(request.paths);
      assert requested == dirty - trusted.dirty <==>
             requested !! trusted.dirty && requested <= dirty <= trusted.dirty + requested by {
        NewExactlyWhen(requested, trusted.dirty, dirty);
      }
      assert forall p :: p in trusted.staged ==> p in trusted.dirty;
    }
  }

  lemma NewExactlyWhen(requested: set<Path>, before: set<Path>, dirty: set<Path>)
    ensures requested == dirty - before <==> requested !! before && requested <= dirty <= before + requested
  {
  }

  /** The outcome is what the evidence and the signal noticed determine; the iteration's file records it, and all three
      files do if it ends the run. The feature of a timed-out iteration is saved as not passing if the artifacts were
      readable; a signal received before the boundary is noticed, and only a committed iteration lets the run go on. */
  predicate VerdictOk(r: IterationRecord) {
    && ValidHostExit(r.evidence)
    && var outcome := DetermineOutcome(r.noticed, r.evidence);
       && r.exit == outcome.exit && r.files.iteration == Some(outcome)
       && (r.exit.Some? ==> r.files.run == r.files.iteration && r.files.summary == r.files.iteration)
       && (r.noticed.Some? ==> r.received == r.noticed)
       && (r.atBoundary.Some? ==> r.noticed == r.atBoundary)
       && (r.exit.None? ==> r.boundaryExit == Some(0))
       && (r.evidence.timedOut && !r.evidence.artifactError ==> SavedAsNotPassing(r.featuresFile, r.feature))
  }

  predicate SavedAsNotPassing(file: FeaturesFile, id: string) {
    && file.Features?
    && var f := FeatureById(file.document, id);
       f.Some? ==> !f.value.passes && f.value.verifiedAt.None?
  }

  /** The host's commit in an iteration, if it made one. */
  function CommitOf(r: IterationRecord): seq<Commit> {
    if r.boundaryExit == Some(0) && r.turn.request.Request? then [Commit(r.turn.request.message, AsSet(r.turn.request.paths))] else []
  }

  function CommitsOf(history: seq<IterationRecord>): seq<Commit> {
    if history == [] then [] else CommitsOf(history[..|history| - 1]) + CommitOf(history[|history| - 1])
  }

  /** The host's commits over a history, as an argument of the methods that keep account of them. */
  type Tally = seq<IterationRecord> -> seq<Commit>

  function HostTally(): Tally {
    (history: seq<IterationRecord>) => CommitsOf(history)
  }

  ghost predicate IsTally(made: Tally) {
    forall history {:trigger CommitsOf(history)} :: made(history) == CommitsOf(history)
  }

  lemma TallyOfOneMore(made: Tally, start: seq<Commit>, history: seq<IterationRecord>, rec: IterationRecord)
    requires IsTally(made)
    ensures made([]) == []
    ensures start + made(history) + CommitOf(rec) == start + made(history + [rec])
  {
    assert CommitsOf([]) == [];
    assert (history + [rec])[..|history|] == history;
    assert CommitsOf(history + [rec]) == CommitsOf(history) + CommitOf(rec);
  }

  predicate RecordOk(r: IterationRecord) {
    CommitStepOk(r) && VerdictOk(r)
  }

  /** The run went on after iteration i, and nothing touched the tree before the next one. */
  predicate LeadsOn(history: seq<IterationRecord>, i: int)
    requires 0 <= i < |history| - 1
  {
    history[i].exit.None? && history[i + 1].dirtyAtStart == history[i].dirtyAtEnd
  }

  /** What every run of the loop records; in particular, only the last iteration may end the run. */
  ghost predicate HistoryOk(history: seq<IterationRecord>) {
    && (forall r :: r in history ==> RecordOk(r))
    && forall i :: 0 <= i < |history| - 1 ==> LeadsOn(history, i)
  }

  /** Over a whole run: the dirty sets at the start of the iterations form a decreasing chain, every iteration
      but the last committed its request, and no host commit holds a path that was dirty when its own or any
      later iteration began. */
  lemma {:induction false} HistoryIsSafe(history: seq<IterationRecord>, i: nat, j: nat)
    requires HistoryOk(history) && i <= j < |history|
    ensures history[j].dirtyAtStart <= history[i].dirtyAtStart
    ensures i < j ==> history[i].boundaryExit == Some(0) && history[i].turn.request.Request?
                      && history[i].logAfter == history[i].logBefore + [Commit(history[i].turn.request.message,
                                                                              AsSet(history[i].turn.request.paths))]
    ensures history[i].boundaryExit == Some(0) ==>
              history[i].turn.request.Request? && AsSet(history[i].turn.request.paths) !! history[j].dirtyAtStart
    decreases j - i
  {
    assert RecordOk(history[i]);
    if i < j {
      assert RecordOk(history[j - 1]) && LeadsOn(history, j - 1) && LeadsOn(history, i);
      HistoryIsSafe(history, i, j - 1);
    }
  }

  function Count(started: seq<string>, id: string): nat {
    if started == [] then 0
    else Count(started[..|started| - 1], id) + if started[|started| - 1] == id then 1 else 0
  }

  function Lookup(attempts: map<string, int>, id: string): int {
    if id in attempts then attempts[id] else 0
  }

  /** No feature was started more often than the limit. */
  ghost predicate WithinLimit(started: seq<string>, limit: int) {
    forall id :: Count(started, id) <= limit
  }

  /** No feature that used up its attempts is still selectable. */
  ghost predicate ExhaustedAreDone(started: seq<string>, limit: int, document: Document) {
    forall id :: Count(started, id) >= limit ==> !PendingIn(document, id)
  }

  /** No started feature that was finished, or gone, is selectable again. */
  ghost predicate NoneReopened(started: seq<string>, before: Document, after: Document) {
    forall id :: id in started && !PendingIn(before, id) ==> !PendingIn(after, id)
  }

  ghost predicate AttemptsMatch(started: seq<string>, attempts: map<string, int>) {
    forall id :: id in started || id in attempts ==> Count(started, id) == Lookup(attempts, id)
  }

  lemma CountAfter(started: seq<string>, id: string, other: string)
    ensures Count(started + [id], other) == Count(started, other) + if other == id then 1 else 0
  {
    assert (started + [id])[..|started|] == started;
  }

  lemma {:induction false} CountZero(started: seq<string>, id: string)
    requires id !in started
    ensures Count(started, id) == 0
  {
    if started != [] {
      CountZero(started[..|started| - 1], id);
    }
  }

  /** Starting a pending feature keeps the limit and the table. */
  lemma StartPending(started: seq<string>, limit: int, attempts: map<string, int>, document: Document, id: string)
    requires AttemptsMatch(started, attempts) && PendingIn(document, id)
    ensures AttemptsMatch(started + [id], attempts[id := Lookup(attempts, id) + 1])
    ensures Count(started + [id], id) == Lookup(attempts, id) + 1
    ensures WithinLimit(started, limit) && ExhaustedAreDone(started, limit, document) ==>
              WithinLimit(started + [id], limit)
  {
    if id !in started && id !in attempts { CountZero(started, id); }
    forall other ensures Count(started + [id], other) == Count(started, other) + if other == id then 1 else 0 {
      CountAfter(started, id, other);
    }
  }

  /** A disciplined iteration that lets the run go on leaves no exhausted feature selectable. */
  lemma ExhaustedStayDone(started: seq<string>, limit: int, before: Document, after: Document, id: string)
    requires ExhaustedAreDone(started, limit, before) && 0 < limit
    requires NoneReopened(started + [id], before, after)
    requires Count(started + [id], id) < limit || !PendingIn(after, id)
    ensures ExhaustedAreDone(started + [id], limit, after)
  {
    forall other | Count(started + [id], other) >= limit ensures !PendingIn(after, other) {
      CountAfter(started, id, other);
      if other != id {
        if other !in started { CountZero(started, other); }
        assert other in started + [id] && !PendingIn(before, other);
      }
    }
  }

  lemma HistoryGrows(history: seq<IterationRecord>, rec: IterationRecord)
    requires HistoryOk(history) && RecordOk(rec)
    requires history != [] ==>
               history[|history| - 1].exit.None? && history[|history| - 1].dirtyAtEnd == rec.dirtyAtStart
    ensures HistoryOk(history + [rec])
  {
    forall i | 0 <= i < |history| ensures LeadsOn(history + [rec], i) {
      if i < |history| - 1 { assert LeadsOn(history, i); }
    }
  }

  /** What a run did: its iterations, the features it started, and the documents it loaded, the first before any
      iteration and one in each. */
  datatype RunLog = RunLog(history: seq<IterationRecord>, started: seq<string>, documents: seq<Document>)

  function LastLoaded(log: RunLog): Document {
    if log.documents == [] then [] else log.documents[|log.documents| - 1]
  }

  /** A disciplined run: every document had unique ids, and no turn of the agent made a feature selectable again that
      had been started and was finished, or gone, before the turn. */
  ghost predicate Disciplined(started: seq<string>, documents: seq<Document>) {
    var n := |documents|;
    && n > 0 && UniqueIds(documents[n - 1])
    && (n > 1 ==>
          && n - 1 <= |started| && NoneReopened(started[..n - 1], documents[n - 2], documents[n - 1])
          && Disciplined(started, documents[..n - 1]))
  }

  lemma {:induction false} LaterStartsDoNotMatter(started: seq<string>, id: string, documents: seq<Document>)
    requires |documents| <= |started| + 1
    ensures Disciplined(started + [id], documents) <==> Disciplined(started, documents)
  {
    var n := |documents|;
    if n > 1 {
      assert (started + [id])[..n - 1] == started[..n - 1];
      LaterStartsDoNotMatter(started, id, documents[..n - 1]);
    }
  }

  lemma DisciplineOfOneMore(started: seq<string>, documents: seq<Document>, after: Document)
    requires |documents| == |started| > 0 && Disciplined(started, documents + [after])
    ensures Disciplined(started, documents) && UniqueIds(after)
    ensures NoneReopened(started, documents[|documents| - 1], after)
  {
    assert (documents + [after])[..|documents|] == documents;
    assert started[..|documents|] == started;
  }

  /** The limits of a run, whether its features file can always be read, and its repository. */
  datatype Terms = Terms(maxAttempts: int, maxIterations: int, quiet: bool, root: string, safe: Path -> bool)

  /** The evidence is about what the agent left: it ended as recorded, and its artifacts are in error exactly if its final
      message could not be read or its features file could not be loaded. */
  predicate IsJudged(r: IterationRecord, quiet: bool) {
    && r.evidence.timedOut == r.turn.timedOut && r.evidence.agentExit == r.turn.agentExit
    && (r.evidence.artifactError <==> !r.turn.finalReadable || r.read.None?)
    && (r.read.Some? ==> r.turn.featuresFile == Features(r.read.value) && IsLoadable(r.turn.featuresFile))
    && (quiet ==> (r.read.Some? <==> IsLoadable(r.turn.featuresFile)))
  }

  /** The boundary was called exactly after a good turn and without a signal, and went through exactly if all that it asks
      for was there. */
  ghost predicate IsDecided(r: IterationRecord, root: string, safe: Path -> bool) {
    var trusted := Snapshot(root, r.dirtyAtStart, r.stagedAtStart);
    && (r.boundaryExit.Some? <==> TurnOk(r.evidence) && r.atBoundary.None?)
    && (r.boundaryExit == Some(0) <==>
          r.boundaryExit.Some?
          && MayCommit(r.turn.request, r.turn.snapshot, trusted, r.turn.dirty, r.turn.staged, r.git, safe))
  }

  /** The document that the iteration goes by, the agent having left `after`. */
  function AfterTurn(timedOut: bool, after: Document, id: string): Document {
    if timedOut then Reopened(after, id) else after
  }

  function StateOf(document: Document, id: string): Option<(bool, bool)> {
    var f := FeatureById(document, id);
    if f.Some? then Some((f.value.passes, f.value.blocked)) else None
  }

  /** The iteration worked on this feature, and if its artifacts were readable it left, and goes by, the document that the
      agent left, with the feature reopened after a timeout. */
  predicate WorkedOn(r: IterationRecord, id: string, after: Document) {
    && r.feature == id
    && (!r.evidence.artifactError ==>
          && r.evidence.document == AfterTurn(r.evidence.timedOut, after, id)
          && r.featuresFile == Features(r.evidence.document)
          && r.evidence.selected == StateOf(r.evidence.document, id))
  }

  /** The i-th feature started is the first one that was pending in the document loaded before. */
  predicate IsSelected(log: RunLog, i: nat)
    requires i < |log.started| <= |log.documents|
  {
    PendingFeature(log.documents[i]).Some? && PendingFeature(log.documents[i]).value.id == log.started[i]
  }

  /** The i-th record is about the i-th feature started and the document that was loaded in its iteration, which is the one
      before if none could be; its attempt counts the starts of the feature so far, and it is final exactly if it is the
      last one allowed. */
  ghost predicate RecordFits(log: RunLog, terms: Terms, i: nat)
    requires i < |log.history| < |log.documents| && |log.history| <= |log.started|
  {
    var r := log.history[i];
    && WorkedOn(r, log.started[i], log.documents[i + 1])
    && IsJudged(r, terms.quiet) && IsDecided(r, terms.root, terms.safe)
    && log.documents[i + 1] == (if r.read.Some? then r.read.value else log.documents[i])
    && r.evidence.attempt == Count(log.started[..i + 1], log.started[i])
    && r.evidence.maxAttempts == terms.maxAttempts
    && (r.evidence.isFinal <==> i + 1 == terms.maxIterations)
  }

  /** The parts of the log are about the same iterations; a feature may have been started whose iteration has no record,
      and nothing was loaded only if nothing was started. */
  ghost predicate IsTied(log: RunLog, terms: Terms) {
    && |log.history| <= |log.started| <= |log.history| + 1
    && (if log.documents == [] then log.started == [] else |log.documents| == |log.history| + 1)
    && (forall i :: 0 <= i < |log.started| ==> IsSelected(log, i))
    && (forall i :: 0 <= i < |log.history| ==> RecordFits(log, terms, i))
  }

  lemma StartKeepsTies(log: RunLog, terms: Terms, id: string)
    requires IsTied(log, terms) && |log.started| == |log.history| < |log.documents|
    requires PendingFeature(LastLoaded(log)).Some? && PendingFeature(LastLoaded(log)).value.id == id
    ensures IsTied(log.(started := log.started + [id]), terms)
  {
    var next := log.(started := log.started + [id]);
    forall i | 0 <= i < |next.started| ensures IsSelected(next, i) {
      if i < |log.started| { assert IsSelected(log, i); }
    }
    forall i | 0 <= i < |log.history| ensures RecordFits(next, terms, i) {
      assert RecordFits(log, terms, i);
      assert next.started[..i + 1] == log.started[..i + 1];
    }
  }

  /** A record fits a log whose last start it is about. */
  ghost predicate FitsNext(log: RunLog, terms: Terms, r: IterationRecord, id: string, after: Document) {
    && WorkedOn(r, id, after)
    && IsJudged(r, terms.quiet) && IsDecided(r, terms.root, terms.safe)
    && after == (if r.read.Some? then r.read.value else LastLoaded(log))
    && r.evidence.attempt == Count(log.started, id)
    && r.evidence.maxAttempts == terms.maxAttempts
    && (r.evidence.isFinal <==> |log.started| == terms.maxIterations)
  }

  lemma RecordKeepsTies(log: RunLog, terms: Terms, rec: IterationRecord, id: string, after: Document)
    requires IsTied(log, terms) && |log.started| == |log.history| + 1 && log.started[|log.history|] == id
    requires FitsNext(log, terms, rec, id, after)
    ensures IsTied(RunLog(log.history + [rec], log.started, log.documents + [after]), terms)
  {
    var next := RunLog(log.history + [rec], log.started, log.documents + [after]);
    forall i | 0 <= i < |next.started| ensures IsSelected(next, i) {
      assert IsSelected(log, i);
    }
    forall i | 0 <= i < |next.history| ensures RecordFits(next, terms, i) {
      if i < |log.history| {
        assert RecordFits(log, terms, i);
      } else {
        assert log.started[..i + 1] == log.started;
      }
    }
  }

  /** What holds between two iterations, the tree being dirty as given. */
  ghost predicate Between(log: RunLog, terms: Terms, attempts: map<string, int>, dirty: set<Path>) {
    && HistoryOk(log.history) && IsTied(log, terms) && |log.history| == |log.started| == |log.documents| - 1
    && (log.history != [] ==>
          log.history[|log.history| - 1].exit.None? && log.history[|log.history| - 1].dirtyAtEnd == dirty)
    && AttemptsMatch(log.started, attempts)
    && (Disciplined(log.started, log.documents) ==>
          WithinLimit(log.started, terms.maxAttempts) && ExhaustedAreDone(log.started, terms.maxAttempts, LastLoaded(log)))
  }

  /** What holds when a feature has been entered into the table and its iteration begins. */
  ghost predicate Started(log: RunLog, terms: Terms, attempts: map<string, int>, id: string,
                          dirty: set<Path>) {
    && 0 < terms.maxAttempts && HistoryOk(log.history) && IsTied(log, terms) && |log.history| + 1 == |log.started| == |log.documents|
    && (log.history != [] ==>
          log.history[|log.history| - 1].exit.None? && log.history[|log.history| - 1].dirtyAtEnd == dirty)
    && log.started[|log.started| - 1] == id
    && AttemptsMatch(log.started, attempts) && id in attempts && Count(log.started, id) == attempts[id]
    && (Disciplined(log.started, log.documents) ==>
          && WithinLimit(log.started, terms.maxAttempts)
          && ExhaustedAreDone(log.started[..|log.started| - 1], terms.maxAttempts, LastLoaded(log)))
  }

  /** What holds when a run is over. */
  ghost predicate RunOk(log: RunLog, terms: Terms, r: RunResult) {
    && HistoryOk(log.history) && IsTied(log, terms) && |log.started| <= terms.maxIterations
    && (r == Exit(0) ==> CompletionState(LastLoaded(log)) == AllPassed)
    && (Disciplined(log.started, log.documents) ==> WithinLimit(log.started, terms.maxAttempts))
    && (log.history != [] && log.history[|log.history| - 1].exit.Some? ==>
          r == Exit(log.history[|log.history| - 1].exit.value))
    && (r.Exit? && r.code > RUNNER_COMMIT_ERROR ==>
          log.history != [] && log.history[|log.history| - 1].exit == Some(r.code))
  }

  /** The features that the iterations worked on. */
  function FeaturesOf(history: seq<IterationRecord>): seq<string> {
    seq(|history|, i requires 0 <= i < |history| => history[i].feature)
  }

  lemma {:induction false} CountOfPrefix(started: seq<string>, n: nat, id: string)
    requires n <= |started|
    ensures Count(started[..n], id) <= Count(started, id)
  {
    if n < |started| {
      CountOfPrefix(started[..|started| - 1], n, id);
      assert started[..|started| - 1][..n] == started[..n];
    } else {
      assert started[..n] == started;
    }
  }

  lemma FeaturesAreThoseStarted(log: RunLog, terms: Terms)
    requires IsTied(log, terms)
    ensures FeaturesOf(log.history) == log.started[..|log.history|]
  {
    forall i | 0 <= i < |log.history| ensures log.history[i].feature == log.started[i] {
      assert RecordFits(log, terms, i);
    }
  }

  /** What a finished run of the loop means: success means that every feature passes in the last document loaded;
      no feature was worked on more often than allowed, given a disciplined agent; a code above 128 is returned exactly if
      the last iteration noticed a signal, which it names; and a timed-out iteration is the last one, with its feature
      saved as not passing if its artifacts were readable. */
  lemma RunMeans(log: RunLog, terms: Terms, r: RunResult, i: nat)
    requires RunOk(log, terms, r)
    ensures r == Exit(0) ==> forall f :: f in LastLoaded(log) ==> f.passes
    ensures Disciplined(log.started, log.documents) ==> forall id :: Count(FeaturesOf(log.history), id) <= terms.maxAttempts
    ensures r.Exit? && r.code > 128 <==> log.history != [] && log.history[|log.history| - 1].noticed.Some?
    ensures r.Exit? && r.code > 128 ==>
              var last := log.history[|log.history| - 1];
              last.received == last.noticed && r.code == 128 + last.noticed.value
    ensures i < |log.history| && log.history[i].evidence.timedOut ==>
              && i == |log.history| - 1
              && r.Exit? && (r.code == TIMEOUT_EXIT_CODE || r.code > 128)
              && (!log.history[i].evidence.artifactError ==>
                    SavedAsNotPassing(log.history[i].featuresFile, log.history[i].feature))
  {
    FeaturesAreThoseStarted(log, terms);
    forall id | Disciplined(log.started, log.documents) ensures Count(FeaturesOf(log.history), id) <= terms.maxAttempts {
      CountOfPrefix(log.started, |log.history|, id);
    }
    if log.history != [] {
      VerdictMeans(log.history[|log.history| - 1]);
      if i < |log.history| { VerdictMeans(log.history[i]); }
      if i < |log.history| - 1 { assert LeadsOn(log.history, i); }
    }
  }

  lemma VerdictMeans(r: IterationRecord)
    requires RecordOk(r)
    ensures r.exit.Some? && r.exit.value > 128 <==> r.noticed.Some?
    ensures r.noticed.Some? ==> r.exit == Some(128 + r.noticed.value) && r.received == r.noticed
    ensures r.evidence.timedOut ==> r.exit == Some(TIMEOUT_EXIT_CODE) || r.noticed.Some?
    ensures r.evidence.timedOut && !r.evidence.artifactError ==> SavedAsNotPassing(r.featuresFile, r.feature)
  {
    ExitCodeMeaning(r.noticed, r.evidence);
  }

  /** What becomes of every turn of the agent. The host commits exactly after a good turn, undisturbed, for which all that
      the boundary asks for is there; and the turn is good exactly if the agent ended in time with 0, its final message can
      be read, and, if reading does not fail by itself, its features file can be loaded. */
  lemma GoodTurnIsCommitted(log: RunLog, terms: Terms, r: RunResult, i: nat)
    requires RunOk(log, terms, r) && i < |log.history|
    ensures var rec := log.history[i];
            var trusted := Snapshot(terms.root, rec.dirtyAtStart, rec.stagedAtStart);
            var good := rec.turn.agentExit == Some(0) && !rec.turn.timedOut && rec.turn.finalReadable && rec.read.Some?;
            && (rec.boundaryExit == Some(0) <==>
                  good && rec.atBoundary.None?
                  && MayCommit(rec.turn.request, rec.turn.snapshot, trusted, rec.turn.dirty, rec.turn.staged, rec.git,
                               terms.safe))
            && (rec.noticed.None? ==> rec.atBoundary.None?)
            && (terms.quiet ==> (rec.read.Some? <==> IsLoadable(rec.turn.featuresFile)))
            && (!good && !rec.turn.timedOut && rec.noticed.None? ==> rec.exit == Some(3))
  {
    assert RecordFits(log, terms, i);
    assert RecordOk(log.history[i]);
    if log.history[i].noticed.None? && !log.history[i].evidence.timedOut {
      FailureCodeMeaning(log.history[i].evidence);
    }
  }

  /** A run may end before an iteration, or in one that got no snapshot and left no record. */
  lemma RunEndsUnrecorded(log: RunLog, terms: Terms, r: RunResult)
    requires HistoryOk(log.history) && IsTied(log, terms) && |log.started| <= terms.maxIterations
    requires log.history != [] ==> log.history[|log.history| - 1].exit.None?
    requires Disciplined(log.started, log.documents) ==> WithinLimit(log.started, terms.maxAttempts)
    requires r.Exit? ==> 0 <= r.code <= RUNNER_COMMIT_ERROR
    requires r == Exit(0) ==> CompletionState(LastLoaded(log)) == AllPassed
    ensures RunOk(log, terms, r)
  {
  }

  /** What discipline promises after one more document. */
  lemma DisciplineAfter(started: seq<string>, documents: seq<Document>, limit: int, after: Document, id: string,
                        goesOn: bool)
    requires 0 < limit && |started| == |documents| > 0 && started[|started| - 1] == id
    requires Disciplined(started, documents) ==>
               && WithinLimit(started, limit)
               && ExhaustedAreDone(started[..|started| - 1], limit, documents[|documents| - 1])
    requires goesOn && UniqueIds(after) ==> Count(started, id) < limit || !PendingIn(after, id)
    ensures Disciplined(started, documents + [after]) ==>
              WithinLimit(started, limit) && (goesOn ==> ExhaustedAreDone(started, limit, after))
  {
    var before := started[..|started| - 1];
    assert before + [id] == started;
    if Disciplined(started, documents + [after]) {
      DisciplineOfOneMore(started, documents, after);
      if goesOn {
        ExhaustedStayDone(before, limit, documents[|documents| - 1], after, id);
      }
    }
  }

  /** A finished iteration either ends the run well or leads to the next one. */
  lemma IterationClosesOrContinues(log: RunLog, terms: Terms, attempts: map<string, int>,
                                   rec: IterationRecord, after: Document, id: string)
    requires Started(log, terms, attempts, id, rec.dirtyAtStart) && RecordOk(rec)
    requires |log.started| <= terms.maxIterations && FitsNext(log, terms, rec, id, after)
    requires rec.exit == Some(0) ==> CompletionState(after) == AllPassed
    requires rec.exit.None? && UniqueIds(after) ==> Count(log.started, id) < terms.maxAttempts || !PendingIn(after, id)
    ensures var next := RunLog(log.history + [rec], log.started, log.documents + [after]);
            if rec.exit.None? then Between(next, terms, attempts, rec.dirtyAtEnd)
            else RunOk(next, terms, Exit(rec.exit.value))
  {
    HistoryGrows(log.history, rec);
    RecordKeepsTies(log, terms, rec, id, after);
    DisciplineAfter(log.started, log.documents, terms.maxAttempts, after, id, rec.exit.None?);
  }

  datatype RunResult = Exit(code: int) | Raised

  /** The repository and the features file, as a run or an iteration begins or ends with them. */
  datatype World = World(hostCommits: seq<Commit>, commits: seq<Commit>, dirty: set<Path>, featuresFile: FeaturesFile)

  /** The history and the documents lead from one world to another: the host made exactly the commits of the history, the
      first iteration began with the first tree, the first document is the one that was there, and the last record left
      the last world, which without any record is still the first. */
  ghost predicate LeadFrom(origin: World, history: seq<IterationRecord>, documents: seq<Document>, here: World,
                           made: Tally)
  {
    && here.hostCommits == origin.hostCommits + made(history)
    && (documents != [] ==> origin.featuresFile == Features(documents[0]))
    && if history == [] then here == origin.(hostCommits := here.hostCommits)
       else history[0].dirtyAtStart == origin.dirty && LeftWorld(history[|history| - 1], here)
  }

  predicate LeftWorld(r: IterationRecord, here: World) {
    r.dirtyAtEnd == here.dirty && r.logAfter == here.commits && r.featuresFile == here.featuresFile
  }

  lemma OneMoreLeadsOn(origin: World, history: seq<IterationRecord>, documents: seq<Document>, before: World, made: Tally,
                       rec: IterationRecord, loaded: Document, here: World)
    requires IsTally(made) && LeadFrom(origin, history, documents, before, made) && documents != []
    requires rec.dirtyAtStart == before.dirty && LeftWorld(rec, here)
    requires here.hostCommits == before.hostCommits + CommitOf(rec)
    ensures LeadFrom(origin, history + [rec], documents + [loaded], here, made)
  {
    TallyOfOneMore(made, origin.hostCommits, history, rec);
  }

  class Runner {
    const repo: Repo
    const maxIterations: int
    const maxAttempts: int
    var received: Option<Signal>
    var featuresFile: FeaturesFile
    var files: Artifacts
    /** The signal received by the time the last file was written or the summary was printed. */
    ghost var atLast: Option<Signal>
    /** What git and the file system answered last, and what the agent left last. */
    ghost var answer: GitAnswers
    ghost var turn: Turn
    ghost var log: RunLog

    constructor (repo: Repo, maxIterations: int, maxAttempts: int, featuresFile: FeaturesFile)
      requires maxIterations >= 1 && maxAttempts >= 1
      ensures this.repo == repo && this.maxIterations == maxIterations && this.maxAttempts == maxAttempts
      ensures received == None && this.featuresFile == featuresFile
    {
      this.repo, this.maxIterations, this.maxAttempts := repo, maxIterations, maxAttempts;
      this.featuresFile := featuresFile;
      received, files, log := None, Artifacts(None, None, None), RunLog([], [], []);
      atLast := None;
      answer := GitAnswers(None, _ => FileFacts(false, false, false, IgnoreUnknown), false, {}, false, false, false);
      turn := Turn(false, None, false, Unreadable, NoRequest, BadSnapshot, {}, {});
    }

    // ----- signals -----

    method HandleSignal(s: Signal)
      modifies this`received
      ensures received == if old(received).None? then Some(s) else old(received)
    {
      if received.None? {
        received := Some(s);
      }
    }

    /** The gap between two statements, in which a signal may be delivered. */
    method Gap()
      modifies this`received
      ensures received == old(received) || old(received).None?
    {
      var s: Option<Signal> := *;
      if s.Some? {
        HandleSignal(s.value);
      }
    }

    /** Writes one of the files; signals may arrive in the meantime. */
    method Write(f: Artifacts)
      modifies this`received, this`files, this`atLast
      ensures files == f && atLast == received
      ensures received == old(received) || old(received).None?
    {
      files := f;
      Gap();
      atLast := received;
    }

    /** Prints the summary; signals may arrive in the meantime. */
    method PrintSummary()
      modifies this`received, this`atLast
      ensures atLast == received
      ensures received == old(received) || old(received).None?
    {
      Gap();
      atLast := received;
    }

    /** Records the outcome of an iteration. A signal that arrives on the way is noticed by the last check and
        the records are written again, at most once; whatever is returned is what the files say, and what the last
        signal noticed in writing and printing them asks for. */
    method FinalizeIteration(e: Evidence) returns (exit: Option<int>, ghost seen: Option<Signal>, ghost passes: nat)
      requires ValidHostExit(e)
      modifies this`received, this`files, this`atLast
      ensures 1 <= passes <= 2
      ensures seen == atLast
      ensures old(received).Some? ==> passes == 1
      ensures seen == old(received) || old(received).None?
      ensures received == seen || seen.None?
      ensures exit == DetermineOutcome(seen, e).exit
      ensures files.iteration == Some(DetermineOutcome(seen, e))
      ensures if exit.Some? then files.run == files.iteration && files.summary == files.iteration
              else files.run == old(files).run && files.summary == old(files).summary
      ensures seen.Some? ==> exit == Some(128 + seen.value)
      ensures seen.None? ==> exit.None? || 0 <= exit.value <= RUNNER_COMMIT_ERROR
    {
      passes := 0;
      while true
        invariant passes <= 1
        invariant received == old(received) || old(received).None?
        invariant passes == 1 ==> old(received).None? && received.Some?
        invariant passes == 0 ==> files == old(files)
        decreases if received.None? then 1 else 0
      {
        passes := passes + 1;
        var before := received;
        Gap();
        var outcome := DetermineOutcome(received, e);
        Gap();
        Write(files.(iteration := Some(outcome)));
        var hasSummary := false;
        if outcome.exit.Some? {
          Write(files.(run := Some(outcome)));
          Write(files.(summary := Some(outcome)));
          hasSummary := true;
        }
        if received != before {
          continue;
        }
        seen := received;
        if hasSummary {
          PrintSummary();
          if received != before {
            continue;
          }
          seen := received;
        }
        Gap();
        return outcome.exit, seen, passes;
      }
    }

    // ----- one agent turn and its surroundings -----

    /** What git and the file system answer right now. */
    method AskGit() returns (git: GitAnswers)
      requires repo.Valid()
      modifies this`answer
      ensures repo.Truthful(git) && answer == git
    {
      git := *;
      if git.status.Some? && !repo.Describes(git.status.value) {
        git := git.(status := None);
      }
      git := git.(matched := git.matched * repo.dirty);
      answer := git;
    }

    /** The untrusted agent: it may leave any tree, any index, any log (it can run git itself), any features
        document, any request and any snapshot file behind. */
    method AgentTurn()
      returns (timedOut: bool, agentExit: Option<int>, finalReadable: bool, request: RequestFile, snapshot: SnapshotFile)
      requires repo.Valid()
      modifies repo, this`featuresFile, this`received, this`turn
      ensures repo.Valid() && repo.hostCommits == old(repo.hostCommits)
      ensures received == old(received) || old(received).None?
      ensures turn == Turn(timedOut, agentExit, finalReadable, featuresFile, request, snapshot, repo.dirty, repo.staged)
    {
      timedOut, agentExit, finalReadable, request, snapshot := *, *, *, *, *;
      featuresFile := *;
      repo.dirty, repo.staged, repo.tracked, repo.commits := *, *, *, *;
      repo.staged := repo.staged * repo.dirty;
      if repo.commits == [] {
        repo.tracked := {};
      }
      turn := Turn(timedOut, agentExit, finalReadable, featuresFile, request, snapshot, repo.dirty, repo.staged);
      Gap();
    }

    /** `quiet` means that reading does not fail for another reason. */
    method LoadFeatures(quiet: bool) returns (document: Option<Document>)
      ensures document.Some? ==>
                featuresFile == Features(document.value) && CompletionState(document.value) != Invalid
      ensures quiet ==> (document.Some? <==> IsLoadable(featuresFile))
    {
      var readable: bool := *;
      if (!readable && !quiet) || featuresFile.Unreadable? || CompletionState(featuresFile.document) == Invalid {
        return None;
      }
      return Some(featuresFile.document);
    }

    method KeepTimedOutFeaturePending(document: Document, id: string)
      returns (after: Document, selected: Option<Feature>)
      requires featuresFile == Features(document)
      modifies this`featuresFile
      ensures after == Reopened(document, id)
      ensures selected == FeatureById(after, id)
      ensures featuresFile == Features(after)
    {
      ReopenedIsNotPassing(document, id);
      after := Reopened(document, id);
      selected := FeatureById(after, id);
      if after != document {
        featuresFile := Features(after);
      }
    }

    // ----- the loop -----

    method TakeSnapshot() returns (r: Result<SnapshotFile, int>)
      requires repo.Valid()
      modifies this`answer
      ensures r == if answer.status.Some? then Ok(Snapshot(repo.root, repo.dirty, repo.staged)) else Err(REQUEST_ERROR)
    {
      var git := AskGit();
      r := repo.WriteSnapshot(git);
    }

    /** The agent's turn and the reading of what it left. `loaded` is the last document loaded; the artifacts are in error
        exactly if the final message cannot be read or the features file was not loaded. */
    method WorkOnFeature(document: Document, id: string, quiet: bool)
      returns (artifactError: bool, documentAfter: Document, selected: Option<(bool, bool)>, timedOut: bool,
               agentExit: Option<int>, request: RequestFile, snapshot: SnapshotFile, ghost read: Option<Document>)
      requires repo.Valid()
      modifies this`received, this`featuresFile, this`turn, repo
      ensures repo.Valid() && repo.hostCommits == old(repo.hostCommits)
      ensures timedOut == turn.timedOut && agentExit == turn.agentExit
      ensures request == turn.request && snapshot == turn.snapshot
      ensures repo.dirty == turn.dirty && repo.staged == turn.staged
      ensures artifactError <==> !turn.finalReadable || read.None?
      ensures read.Some? ==> turn.featuresFile == Features(read.value) && IsLoadable(turn.featuresFile)
      ensures quiet ==> (read.Some? <==> IsLoadable(turn.featuresFile))
      ensures timedOut && !artifactError ==> SavedAsNotPassing(featuresFile, id)
      ensures !artifactError ==>
                && documentAfter == AfterTurn(timedOut, read.value, id) && featuresFile == Features(documentAfter)
                && selected == StateOf(documentAfter, id)
      ensures artifactError ==> featuresFile == turn.featuresFile
    {
      var finalReadable;
      timedOut, agentExit, finalReadable, request, snapshot := AgentTurn();
      artifactError := !finalReadable;
      documentAfter := document;
      var loaded := LoadFeatures(quiet);
      read := loaded;
      if loaded.None? {
        artifactError := true;
      } else {
        documentAfter := loaded.value;
      }
      var selectedAfter := FeatureById(documentAfter, id);
      if timedOut && !artifactError {
        ReopenedIsNotPassing(documentAfter, id);
        documentAfter, selectedAfter := KeepTimedOutFeaturePending(documentAfter, id);
      }
      selected := if selectedAfter.Some? then Some((selectedAfter.value.passes, selectedAfter.value.blocked))
                  else None;
    }

    /** The commit boundary on what the agent left, against the snapshot the runner trusted. */
    method CommitWork(request: RequestFile, snapshot: SnapshotFile, trusted: SnapshotFile) returns (code: int)
      requires repo.Valid() && IsTrusted(trusted)
      modifies repo, this`answer
      ensures repo.Valid()
      ensures code == 0 <==>
                MayCommit(request, snapshot, trusted, old(repo.dirty), old(repo.staged), answer, repo.safe)
      ensures code == 0 ==>
                && request.Request?
                && repo.commits == old(repo.commits) + [Commit(request.message, AsSet(request.paths))]
                && repo.hostCommits == old(repo.hostCommits) + [Commit(request.message, AsSet(request.paths))]
                && AsSet(request.paths) !! trusted.dirty
                && repo.dirty <= trusted.dirty
      ensures code != 0 ==> repo.commits == old(repo.commits) && repo.hostCommits == old(repo.hostCommits)
      ensures code in {0, RUNNER_REQUEST_ERROR, RUNNER_STAGE_ERROR, RUNNER_COMMIT_ERROR}
    {
      var git := AskGit();
      BoundaryAsksFor(request, trusted, repo.root, repo.dirty, repo.staged, git, repo.safe);
      code := repo.RunCommitBoundary(request, snapshot, Some(Sha256(trusted)), git);
    }

    /** A snapshot of this repository. */
    predicate IsTrusted(trusted: SnapshotFile) {
      trusted.Snapshot? && trusted.root == repo.root && trusted.staged <= trusted.dirty
    }

    /** The boundary is called exactly after an undisturbed turn; only its failures are passed on. */
    method CommitIfUndisturbed(turnOk: bool, request: RequestFile, snapshot: SnapshotFile, trusted: SnapshotFile)
      returns (hostExit: Option<int>, ghost boundaryExit: Option<int>)
      requires repo.Valid() && IsTrusted(trusted)
      modifies repo, this`answer
      ensures repo.Valid()
      ensures boundaryExit.Some? <==> turnOk && received.None?
      ensures hostExit == if boundaryExit == Some(0) then None else boundaryExit
      ensures boundaryExit.Some? ==>
                boundaryExit.value in {0, RUNNER_REQUEST_ERROR, RUNNER_STAGE_ERROR, RUNNER_COMMIT_ERROR}
      ensures boundaryExit == Some(0) <==>
                boundaryExit.Some?
                && MayCommit(request, snapshot, trusted, old(repo.dirty), old(repo.staged), answer, repo.safe)
      ensures boundaryExit == Some(0) ==>
                && request.Request?
                && repo.commits == old(repo.commits) + [Commit(request.message, AsSet(request.paths))]
                && repo.hostCommits == old(repo.hostCommits) + [Commit(request.message, AsSet(request.paths))]
                && AsSet(request.paths) !! trusted.dirty
                && repo.dirty <= trusted.dirty
      ensures boundaryExit != Some(0) ==> repo.commits == old(repo.commits) && repo.hostCommits == old(repo.hostCommits)
    {
      hostExit, boundaryExit := None, None;
      if turnOk && received.None? {
        var code := CommitWork(request, snapshot, trusted);
        boundaryExit := Some(code);
        if code != 0 {
          hostExit := Some(code);
        }
      }
    }

    /** The record describes the state the iteration left. */
    ghost predicate Left(rec: IterationRecord)
      reads this, repo
    {
      && rec.dirtyAtEnd == repo.dirty && rec.logAfter == repo.commits
      && rec.featuresFile == featuresFile && rec.received == received && rec.noticed == atLast && rec.files == files
    }

    /** The agent's turn and the commit, up to the evidence for the verdict. `made` is the record but for the verdict. */
    method TakeTurn(document: Document, id: string, attempt: int, isFinal: bool, quiet: bool, trusted: SnapshotFile)
      returns (e: Evidence, ghost made: IterationRecord, ghost loaded: Document)
      requires repo.Valid() && trusted == Snapshot(repo.root, repo.dirty, repo.staged)
      modifies this`received, this`featuresFile, this`answer, this`turn, repo
      ensures repo.Valid()
      ensures e.attempt == attempt && e.maxAttempts == maxAttempts && e.isFinal == isFinal && ValidHostExit(e)
      ensures made.evidence == e && CommitStepOk(made)
      ensures WorkedOn(made, id, loaded) && IsJudged(made, quiet) && IsDecided(made, repo.root, repo.safe)
      ensures e.timedOut && !e.artifactError ==> SavedAsNotPassing(featuresFile, id)
      ensures loaded == if made.read.Some? then made.read.value else document
      ensures made.dirtyAtStart == old(repo.dirty)
      ensures made.dirtyAtEnd == repo.dirty && made.logAfter == repo.commits && made.featuresFile == featuresFile
      ensures made.atBoundary.Some? ==> received == made.atBoundary
      ensures received.None? && TurnOk(e) && e.hostExit.None? ==> made.boundaryExit == Some(0)
      ensures repo.hostCommits == old(repo.hostCommits) + CommitOf(made)
    {
      var timedOut, agentExit, artifactError, documentAfter, selected, request, snapshot, hostExit;
      ghost var read, boundaryExit;
      artifactError, documentAfter, selected, timedOut, agentExit, request, snapshot, read :=
        WorkOnFeature(document, id, quiet);
      loaded := if read.Some? then read.value else document;
      Gap();
      ghost var logBefore, atBoundary := repo.commits, received;
      hostExit, boundaryExit :=
        CommitIfUndisturbed(agentExit == Some(0) && !timedOut && !artifactError, request, snapshot, trusted);
      Gap();
      e := Evidence(timedOut, artifactError, agentExit, hostExit, selected, documentAfter, attempt, maxAttempts, isFinal);
      made := IterationRecord(id, old(repo.dirty), old(repo.staged), turn, read, atBoundary, answer, logBefore,
                              boundaryExit, e, None, None, repo.dirty, repo.commits, featuresFile, received, files);
    }

    /** One iteration, from the snapshot to the verdict. Without a snapshot there is no record and the run ends;
        otherwise the verdict is the record's exit, and `None` there lets the run go on. */
    method RunIteration(document: Document, id: string, attempt: int, isFinal: bool, quiet: bool)
      returns (exit: Option<int>, ghost rec: Option<IterationRecord>, ghost loaded: Document)
      requires repo.Valid()
      modifies this`received, this`featuresFile, this`files, this`atLast, this`answer, this`turn, repo
      ensures repo.Valid()
      ensures repo.hostCommits == old(repo.hostCommits) + if rec.Some? then CommitOf(rec.value) else []
      ensures rec.None? ==>
                && exit == Some(RUNNER_REQUEST_ERROR) && answer.status.None? && unchanged(repo)
                && featuresFile == old(featuresFile) && received == old(received) && atLast == old(atLast)
                && files == old(files)
      ensures rec.Some? ==>
                && RecordOk(rec.value) && Left(rec.value)
                && rec.value.exit == exit && rec.value.dirtyAtStart == old(repo.dirty)
                && WorkedOn(rec.value, id, loaded)
                && IsJudged(rec.value, quiet) && IsDecided(rec.value, repo.root, repo.safe)
                && loaded == (if rec.value.read.Some? then rec.value.read.value else document)
                && rec.value.evidence.attempt == attempt
                && rec.value.evidence.maxAttempts == maxAttempts && rec.value.evidence.isFinal == isFinal
                && (exit == Some(0) ==> CompletionState(loaded) == AllPassed && featuresFile == Features(loaded))
      ensures exit.None? ==>
                && featuresFile == Features(loaded) && CompletionState(loaded) == Continue
                && !isFinal
                && (UniqueIds(loaded) ==> attempt < maxAttempts || !PendingIn(loaded, id))
    {
      loaded := document;
      var trusted := TakeSnapshot();
      if trusted.Err? {
        return Some(MapCommitError(trusted.error)), None, loaded;
      }

      var e;
      ghost var made, seen, passes;
      e, made, loaded := TakeTurn(document, id, attempt, isFinal, quiet, trusted.value);
      exit, seen, passes := FinalizeIteration(e);
      ContinuesExactlyWhen(seen, e);
      ExitCodeMeaning(seen, e);
      if UniqueIds(loaded) {
        FinishedIsNotPending(loaded, id);
      }
      rec := Some(made.(noticed := seen, exit := exit, received := received, files := files));
    }

    /** Loads the document and selects a feature, or decides that there is none left to select. */
    method SelectFeature(quiet: bool) returns (r: Option<RunResult>, document: Document, feature: Feature)
      ensures r.None? ==>
                && featuresFile == Features(document) && CompletionState(document) == Continue
                && PendingFeature(document) == Some(feature) && feature in document && IsPending(feature)
      ensures r.Some? && r.value.Exit? ==>
                && featuresFile == Features(document)
                && r.value.code == (if CompletionState(document) == AllPassed then 0 else 2)
                && CompletionState(document) in {AllPassed, AllRemainingBlocked}
      ensures quiet ==> (r == Some(Raised) <==> !IsLoadable(featuresFile))
    {
      document, feature := [], Feature("", false, false, None);
      var loaded := LoadFeatures(quiet);
      if loaded.None? {
        return Some(Raised), document, feature;
      }
      document := loaded.value;
      SelectableExactlyWhenContinue(document);
      PendingFeatureIsPending(document);
      var pending := PendingFeature(document);
      if pending.None? {
        if CompletionState(document) == AllPassed {
          return Some(Exit(0)), document, feature;
        }
        if CompletionState(document) == AllRemainingBlocked {
          return Some(Exit(2)), document, feature;
        }
        // "no selectable feature remains" is never reported
        assert false;
      } else {
        feature := pending.value;
      }
      r := None;
    }

    /** The terms of a run. */
    ghost function Rules(quiet: bool): Terms {
      Terms(maxAttempts, maxIterations, quiet, repo.root, repo.safe)
    }

    /** Selects a feature and enters its attempt into the table. */
    method StartFeature(n: int, attempts: map<string, int>, quiet: bool, ghost origin: World, ghost made: Tally)
      returns (r: Option<RunResult>, document: Document, id: string, attemptsAfter: map<string, int>)
      requires maxAttempts >= 1 && n < maxIterations && Ready(n, attempts, quiet, origin, made)
      modifies this`log
      ensures Since(origin, made)
      ensures r.Some? ==> log == old(log) && Over(r.value, quiet, origin, made)
      ensures r.None? ==>
                && log == old(log).(started := old(log).started + [id]) && document == LastLoaded(log)
                && Started(log, Rules(quiet), attemptsAfter, id, repo.dirty) && |log.started| == n + 1
      ensures quiet ==> r.None?
    {
      id, attemptsAfter := "", attempts;
      var feature;
      r, document, feature := SelectFeature(quiet);
      if r.Some? {
        RunEndsUnrecorded(log, Rules(quiet), r.value);
        return;
      }
      id := feature.id;
      attemptsAfter := attempts[id := Lookup(attempts, id) + 1];
      StartPending(log.started, maxAttempts, attempts, document, id);
      StartKeepsTies(log, Rules(quiet), id);
      LaterStartsDoNotMatter(log.started, id, log.documents);
      assert (log.started + [id])[..|log.started|] == log.started;
      log := log.(started := log.started + [id]);
    }

    /** The world as it is now. */
    ghost function Here(): World
      reads this, repo
    {
      World(repo.hostCommits, repo.commits, repo.dirty, featuresFile)
    }

    /** The log is about what happened since the origin, and the last record describes the state it left. */
    ghost predicate Since(origin: World, made: Tally)
      reads this, repo
    {
      && LeadFrom(origin, log.history, log.documents, Here(), made)
      && (log.history != [] ==> Left(log.history[|log.history| - 1]))
    }

    /** The state before iteration n + 1. */
    ghost predicate Ready(n: int, attempts: map<string, int>, quiet: bool, origin: World, made: Tally)
      reads this, repo
    {
      && repo.Valid() && Between(log, Rules(quiet), attempts, repo.dirty) && |log.history| == n
      && featuresFile == Features(LastLoaded(log)) && CompletionState(LastLoaded(log)) == Continue
      && Since(origin, made)
    }

    /** The state after a run: all that `RunOk` says, of what happened since the origin; and success is about the document
        on disk. */
    ghost predicate Over(r: RunResult, quiet: bool, origin: World, made: Tally)
      reads this, repo
    {
      && repo.Valid() && RunOk(log, Rules(quiet), r) && Since(origin, made)
      && (|log.started| > |log.history| ==> answer.status.None?)
      && (r == Exit(0) ==> featuresFile == Features(LastLoaded(log)))
    }

    /** Enters an iteration that lets the run go on into the log; `before` is the world that it began with. */
    ghost method EnterRecord(rec: IterationRecord, loaded: Document, attempts: map<string, int>, id: string,
                             quiet: bool, origin: World, before: World, made: Tally)
      requires repo.Valid() && IsTally(made) && |log.started| <= maxIterations
      requires LeadFrom(origin, log.history, log.documents, before, made)
      requires rec.dirtyAtStart == before.dirty && Left(rec)
      requires repo.hostCommits == before.hostCommits + CommitOf(rec)
      requires Started(log, Rules(quiet), attempts, id, rec.dirtyAtStart) && RecordOk(rec)
      requires FitsNext(log, Rules(quiet), rec, id, loaded)
      requires rec.exit.None? && featuresFile == Features(loaded) && CompletionState(loaded) == Continue
      requires UniqueIds(loaded) ==> attempts[id] < maxAttempts || !PendingIn(loaded, id)
      modifies this`log
      ensures Ready(|old(log).started|, attempts, quiet, origin, made) && log.started == old(log).started
    {
      IterationClosesOrContinues(log, Rules(quiet), attempts, rec, loaded, id);
      OneMoreLeadsOn(origin, log.history, log.documents, before, made, rec, loaded, Here());
      log := RunLog(log.history + [rec], log.started, log.documents + [loaded]);
    }

    /** Enters the iteration that ended the run. */
    ghost method EnterLastRecord(rec: IterationRecord, loaded: Document, attempts: map<string, int>, id: string,
                                 quiet: bool, origin: World, before: World, made: Tally)
      requires repo.Valid() && IsTally(made) && |log.started| <= maxIterations
      requires LeadFrom(origin, log.history, log.documents, before, made)
      requires rec.dirtyAtStart == before.dirty && Left(rec)
      requires repo.hostCommits == before.hostCommits + CommitOf(rec)
      requires Started(log, Rules(quiet), attempts, id, rec.dirtyAtStart) && RecordOk(rec)
      requires FitsNext(log, Rules(quiet), rec, id, loaded)
      requires rec.exit.Some?
      requires rec.exit == Some(0) ==> featuresFile == Features(loaded) && CompletionState(loaded) == AllPassed
      modifies this`log
      ensures Over(Exit(rec.exit.value), quiet, origin, made) && log.started == old(log).started
    {
      IterationClosesOrContinues(log, Rules(quiet), attempts, rec, loaded, id);
      OneMoreLeadsOn(origin, log.history, log.documents, before, made, rec, loaded, Here());
      log := RunLog(log.history + [rec], log.started, log.documents + [loaded]);
    }

    /** The iteration for a feature that has been started. */
    method Iterate(document: Document, id: string, attempts: map<string, int>, isFinal: bool, quiet: bool,
                   ghost origin: World, ghost made: Tally)
      returns (r: Option<RunResult>)
      requires IsTally(made) && Since(origin, made)
      requires repo.Valid() && Started(log, Rules(quiet), attempts, id, repo.dirty) && document == LastLoaded(log)
      requires |log.started| <= maxIterations && (isFinal <==> |log.started| == maxIterations)
      modifies this, repo
      ensures if r.None? then !isFinal && Ready(|old(log).started|, attempts, quiet, origin, made)
              else Over(r.value, quiet, origin, made)
      ensures r != Some(Raised) && log.started != []
    {
      ghost var before := Here();
      var exit;
      ghost var rec, loaded;
      exit, rec, loaded := RunIteration(document, id, attempts[id], isFinal, quiet);
      if exit.None? {
        EnterRecord(rec.value, loaded, attempts, id, quiet, origin, before, made);
      } else if rec.Some? {
        EnterLastRecord(rec.value, loaded, attempts, id, quiet, origin, before, made);
      } else {
        RunEndsUnrecorded(log, Rules(quiet), Exit(RUNNER_REQUEST_ERROR));
      }
      r := if exit.Some? then Some(Exit(exit.value)) else None;
    }

    /** One pass of the loop body. */
    method RunOnce(iteration: int, attempts: map<string, int>, quiet: bool, ghost origin: World, ghost made: Tally)
      returns (r: Option<RunResult>, attemptsAfter: map<string, int>)
      requires IsTally(made) && 1 <= iteration <= maxIterations && maxAttempts >= 1
      requires Ready(iteration - 1, attempts, quiet, origin, made)
      modifies this, repo
      ensures if r.None? then iteration < maxIterations && Ready(iteration, attemptsAfter, quiet, origin, made)
              else Over(r.value, quiet, origin, made)
      ensures quiet ==> r != Some(Raised) && log.started != []
    {
      var document, id;
      r, document, id, attemptsAfter := StartFeature(iteration - 1, attempts, quiet, origin, made);
      if r.None? {
        r := Iterate(document, id, attemptsAfter, iteration == maxIterations, quiet, origin, made);
      }
    }

    /** One bounded run. If reading the features file does not fail by itself, the run raises exactly for a file that
        cannot be loaded, and starts nothing exactly if nothing is pending in it. */
    method RunLoop(quiet: bool) returns (r: RunResult)
      requires repo.Valid()
      requires maxIterations >= 1 && maxAttempts >= 1
      modifies this, repo
      ensures Over(r, quiet, old(Here()), HostTally())
      ensures quiet ==> (r == Raised <==> !IsLoadable(old(featuresFile)))
      ensures quiet && IsLoadable(old(featuresFile)) ==>
                var document := old(featuresFile).document;
                && (log.started == [] <==> CompletionState(document) != Continue)
                && (CompletionState(document) == AllPassed ==> r == Exit(0))
                && (CompletionState(document) == AllRemainingBlocked ==> r == Exit(2))
    {
      log := RunLog([], [], []);
      var early, document, feature := SelectFeature(quiet);
      if early != Some(Raised) {
        log := RunLog([], [], [document]);
      }
      ghost var origin, made := Here(), HostTally();
      if early.Some? {
        return early.value;
      }
      var attempts: map<string, int> := map[];
      for iteration := 1 to maxIterations + 1
        invariant iteration <= maxIterations && Ready(iteration - 1, attempts, quiet, origin, made)
      {
        var verdict;
        verdict, attempts := RunOnce(iteration, attempts, quiet, origin, made);
        if verdict.Some? {
          return verdict.value;
        }
      }
      // the loop always returns from inside
      assert false;
    }
  }
}
