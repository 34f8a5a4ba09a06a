/** The host commit boundary of scripts/host_commit.py: one Git repository, and the
    check-stage-verify-commit transaction that the runner performs on it. */
module HostCommit {
  import opened Wrappers
  import opened Porcelain
  import Text

  const REQUEST_ERROR := 10
  const STAGE_ERROR := 11
  const COMMIT_ERROR := 12
  const RUNNER_REQUEST_ERROR := 5
  const RUNNER_STAGE_ERROR := 6
  const RUNNER_COMMIT_ERROR := 7

  datatype Commit = Commit(message: string, paths: set<Path>)

  /** commit-request.json: absent, not of the required JSON shape, or a message with paths. */
  datatype RequestFile = NoRequest | BadRequest | Request(message: string, paths: seq<Path>)

  /** pre-existing-dirty.json: not of the required JSON shape, or what it records. */
  datatype SnapshotFile = BadSnapshot | Snapshot(root: string, dirty: set<Path>, staged: set<Path>)

  /** SHA-256 as an injective function of the file. */
  datatype Digest = Sha256(file: SnapshotFile)

  datatype IgnoreAnswer = Ignored | NotIgnored | IgnoreUnknown

  datatype FileFacts = FileFacts(present: bool, isDirectory: bool, insideRepo: bool, ignore: IgnoreAnswer)

  /** What the file system and each git command answer during one boundary call. `matched` is what the
      request's paths match when git reads them as path specifications. */
  datatype GitAnswers = GitAnswers(
    status: Option<seq<Entry>>,
    files: Path -> FileFacts,
    addSucceeds: bool,
    matched: set<Path>,
    listSucceeds: bool,
    checkSucceeds: bool,
    commitSucceeds: bool)

  datatype Check = Passed | Failed(code: int)

  function AsSet(paths: seq<Path>): set<Path> {
    set p | p in paths
  }

  predicate Distinct(paths: seq<Path>) {
    forall i, j :: 0 <= i < j < |paths| ==> paths[i] != paths[j]
  }

  predicate IsCommittable(f: FileFacts) {
    f.present && !f.isDirectory && f.insideRepo && f.ignore == NotIgnored
  }

  /** What `load_request` accepts. */
  predicate RequestAccepted(request: RequestFile, safe: Path -> bool) {
    && request.Request?
    && Text.Strip(request.message) != []
    && '\n' !in request.message && '\r' !in request.message
    && request.paths != []
    && (forall p :: p in request.paths ==> safe(p))
    && Distinct(request.paths)
  }

  /** What `load_snapshot` accepts. */
  predicate SnapshotAccepted(snapshot: SnapshotFile, root: string, safe: Path -> bool) {
    && snapshot.Snapshot?
    && snapshot.root == root
    && (forall p :: p in snapshot.dirty + snapshot.staged ==> safe(p))
    && snapshot.staged <= snapshot.dirty
  }

  /** When the tree lets a request through: it was clean and unstaged at the start of the iteration on the
      requested paths, and now exactly the requested paths are newly dirty. */
  predicate TreeAccepted(paths: seq<Path>, snapshot: SnapshotFile, dirty: set<Path>, staged: set<Path>,
                         git: GitAnswers)
    requires snapshot.Snapshot?
  {
    var requested := AsSet(paths);
    && requested !! snapshot.dirty
    && snapshot.staged == {}
    && git.status.Some?
    && staged == {}
    && requested <= dirty <= snapshot.dirty + requested
    && forall p :: p in paths ==> IsCommittable(git.files(p))
  }

  /** Something was staged when the iteration began, or is now, and nothing else was wrong before that was looked at. */
  predicate SomethingIsStaged(paths: seq<Path>, snapshot: SnapshotFile, staged: set<Path>, git: GitAnswers)
    requires snapshot.Snapshot?
  {
    AsSet(paths) !! snapshot.dirty && (snapshot.staged != {} || (git.status.Some? && staged != {}))
  }

  /** git stages exactly the request and raises no objection to it. */
  predicate StagingAccepted(paths: seq<Path>, git: GitAnswers) {
    git.addSucceeds && git.matched == AsSet(paths) && git.listSucceeds && git.checkSucceeds
  }

  class Repo {
    const root: string
    /** The verdict of `validate_path_text` on a path. */
    const safe: Path -> bool
    /** Paths that differ between HEAD, index and working tree, and those that differ between HEAD and index. */
    var dirty: set<Path>
    var staged: set<Path>
    /** Paths in HEAD's tree; the log has no entry exactly when HEAD is unborn. */
    var tracked: set<Path>
    var commits: seq<Commit>
    /** The commits that the host made, whoever else made commits. */
    ghost var hostCommits: seq<Commit>

    ghost predicate Valid()
      reads this
    {
      staged <= dirty && (commits == [] ==> tracked == {})
    }

    /** git reports the repository as it is. */
    ghost predicate Truthful(git: GitAnswers)
      reads this
    {
      && (git.status.Some? ==> Describes(git.status.value))
      && git.matched <= dirty
    }

    predicate Describes(entries: seq<Entry>)
      reads this
    {
      ValidEntries(entries) && DirtyOf(entries) == dirty && StagedOf(entries) == staged
    }

    constructor (root: string, safe: Path -> bool)
      ensures Valid() && commits == [] && dirty == {} && this.root == root && this.safe == safe
    {
      this.root, this.safe := root, safe;
      dirty, staged, tracked, commits := {}, {}, {}, [];
      hostCommits := [];
    }

    // ----- git commands -----

    method Add(git: GitAnswers)
      requires Valid() && Truthful(git)
      modifies this`staged
      ensures Valid()
      ensures staged == old(staged) + if git.addSucceeds then git.matched else {}
    {
      if git.addSucceeds {
        staged := staged + git.matched;
      }
    }

    method CommitStaged(message: string, git: GitAnswers)
      requires Valid()
      modifies this
      ensures Valid()
      ensures hostCommits == old(hostCommits) + if git.commitSucceeds then [Commit(message, old(staged))] else []
      ensures !git.commitSucceeds ==>
                commits == old(commits) && dirty == old(dirty) && staged == old(staged) && tracked == old(tracked)
      ensures git.commitSucceeds ==>
                && commits == old(commits) + [Commit(message, old(staged))]
                && dirty == old(dirty - staged) && staged == {} && tracked == old(tracked + staged)
    {
      if git.commitSucceeds {
        commits := commits + [Commit(message, staged)];
        hostCommits := hostCommits + [Commit(message, staged)];
        tracked := tracked + staged;
        dirty := dirty - staged;
        staged := {};
      }
    }

    /** `git restore --staged`: puts HEAD's version back into the index; it needs a HEAD. */
    method RestoreStaged(matched: set<Path>)
      requires Valid()
      modifies this`staged
      ensures Valid()
      ensures staged == if commits == [] then old(staged) else old(staged) - matched
    {
      if commits != [] {
        staged := staged - matched;
      }
    }

    /** `git rm --cached`: drops paths from the index, which stages a deletion of those that HEAD has. */
    method RemoveCached(matched: set<Path>)
      requires Valid() && matched <= dirty
      modifies this`staged
      ensures Valid()
      ensures staged == (old(staged) - matched) + matched * tracked
    {
      staged := (staged - matched) + matched * tracked;
    }

    // ----- the boundary -----

    method WorkingTreeState(git: GitAnswers) returns (r: Result<TreeState, int>)
      requires Valid() && Truthful(git)
      ensures r == if git.status.Some? then Ok(TreeState(dirty, staged)) else Err(REQUEST_ERROR)
    {
      if git.status.None? {
        return Err(REQUEST_ERROR);
      }
      ParseInvertsEncode(git.status.value);
      var parsed := ParsePorcelain(Encode(git.status.value));
      if parsed.Err? {
        return Err(REQUEST_ERROR);
      }
      return Ok(parsed.value);
    }

    method WriteSnapshot(git: GitAnswers) returns (r: Result<SnapshotFile, int>)
      requires Valid() && Truthful(git)
      ensures r == if git.status.Some? then Ok(Snapshot(root, dirty, staged)) else Err(REQUEST_ERROR)
    {
      var tree := WorkingTreeState(git);
      if tree.Err? {
        return Err(tree.error);
      }
      return Ok(Snapshot(root, tree.value.dirty, tree.value.staged));
    }

    /** Every path is a file in the repository, and then none is ignored. */
    method CheckFiles(paths: seq<Path>, git: GitAnswers) returns (r: Check)
      ensures r == if forall p :: p in paths ==> IsCommittable(git.files(p)) then Passed else Failed(REQUEST_ERROR)
    {
      for i := 0 to |paths|
        invariant forall p :: p in paths[..i] ==>
                    var f := git.files(p); f.present && !f.isDirectory && f.insideRepo
      {
        var f := git.files(paths[i]);
        if !f.present || f.isDirectory || !f.insideRepo {
          return Failed(REQUEST_ERROR);
        }
      }
      for i := 0 to |paths|
        invariant forall p :: p in paths[..i] ==> git.files(p).ignore == NotIgnored
      {
        if git.files(paths[i]).ignore != NotIgnored {
          return Failed(REQUEST_ERROR);
        }
      }
      assert paths[..|paths|] == paths;
      return Passed;
    }

    method ValidateRequestState(paths: seq<Path>, snapshot: SnapshotFile, git: GitAnswers) returns (r: Check)
      requires Valid() && Truthful(git) && snapshot.Snapshot?
      ensures r.Passed? <==> TreeAccepted(paths, snapshot, dirty, staged, git)
      ensures r.Failed? ==> r.code in {REQUEST_ERROR, STAGE_ERROR}
      ensures r == Failed(STAGE_ERROR) <==> SomethingIsStaged(paths, snapshot, staged, git)
    {
      var requested := AsSet(paths);
      if requested * snapshot.dirty != {} {
        return Failed(REQUEST_ERROR);
      }
      assert forall p :: p in requested && p in snapshot.dirty ==> p in requested * snapshot.dirty;
      if snapshot.staged != {} {
        return Failed(STAGE_ERROR);
      }
      var tree := WorkingTreeState(git);
      if tree.Err? {
        return Failed(tree.error);
      }
      if tree.value.staged != {} {
        return Failed(STAGE_ERROR);
      }
      if tree.value.dirty - snapshot.dirty - requested != {} {
        assert !(dirty <= snapshot.dirty + requested);
        return Failed(REQUEST_ERROR);
      }
      if requested - tree.value.dirty != {} {
        assert !(requested <= dirty);
        return Failed(REQUEST_ERROR);
      }
      r := CheckFiles(paths, git);
    }

    method UnstageAfterFailure(matched: set<Path>, hadHead: bool)
      requires Valid() && matched <= dirty && hadHead == (commits != [])
      modifies this`staged
      ensures Valid()
      ensures staged == old(staged) - matched
    {
      if hadHead {
        RestoreStaged(matched);
      } else {
        RemoveCached(matched);
      }
    }

    /** The transaction. It goes through exactly when every check accepts and every git command succeeds; then
        the log grows by one commit of exactly the request. On every other exit the repository is as it was. */
    method CommitRequest(request: RequestFile, snapshot: SnapshotFile, git: GitAnswers) returns (r: Check)
      requires Valid() && Truthful(git)
      modifies this
      ensures Valid()
      ensures r.Passed? <==>
                && old(Admitted(request, snapshot, git))
                && StagingAccepted(request.paths, git)
                && git.commitSucceeds
      ensures r.Passed? ==>
                var requested := AsSet(request.paths);
                && commits == old(commits) + [Commit(request.message, requested)]
                && hostCommits == old(hostCommits) + [Commit(request.message, requested)]
                && dirty == old(dirty) - requested
                && staged == {}
      ensures r.Failed? ==>
                && commits == old(commits) && hostCommits == old(hostCommits)
                && dirty == old(dirty) && staged == old(staged) && tracked == old(tracked)
      ensures r.Failed? ==> r.code in {REQUEST_ERROR, STAGE_ERROR, COMMIT_ERROR}
      ensures r.Failed? && r.code == STAGE_ERROR <==>
                || old(FoundStaged(request, snapshot, git))
                || (old(Admitted(request, snapshot, git)) && !StagingAccepted(request.paths, git))
      ensures r.Failed? && r.code == COMMIT_ERROR <==>
                old(Admitted(request, snapshot, git)) && StagingAccepted(request.paths, git) && !git.commitSucceeds
    {
      if !RequestAccepted(request, safe) || !SnapshotAccepted(snapshot, root, safe) {
        return Failed(REQUEST_ERROR);
      }
      r := ValidateRequestState(request.paths, snapshot, git);
      if r.Failed? {
        return;
      }
      var hadHead := commits != [];
      var needsUnstaging := false;
      Add(git);
      if !git.addSucceeds {
        r := Failed(STAGE_ERROR);
      } else {
        needsUnstaging := true;
        if !git.listSucceeds || staged != AsSet(request.paths) || !git.checkSucceeds {
          r := Failed(STAGE_ERROR);
        } else {
          CommitStaged(request.message, git);
          if !git.commitSucceeds {
            r := Failed(COMMIT_ERROR);
          } else {
            needsUnstaging := false;
          }
        }
      }
      if needsUnstaging {
        UnstageAfterFailure(git.matched, hadHead);
      }
    }

    /** Every check before `git add` accepts. */
    ghost predicate Admitted(request: RequestFile, snapshot: SnapshotFile, git: GitAnswers)
      reads this
    {
      && RequestAccepted(request, safe)
      && SnapshotAccepted(snapshot, root, safe)
      && TreeAccepted(request.paths, snapshot, dirty, staged, git)
    }

    /** Request and snapshot are as they should be, but something is staged that the host has not staged. */
    ghost predicate FoundStaged(request: RequestFile, snapshot: SnapshotFile, git: GitAnswers)
      reads this
    {
      && RequestAccepted(request, safe)
      && SnapshotAccepted(snapshot, root, safe)
      && SomethingIsStaged(request.paths, snapshot, staged, git)
    }

    /** The boundary as the runner calls it: the snapshot must still be the one the runner trusted. */
    method RunCommitBoundary(request: RequestFile, snapshot: SnapshotFile, expected: Option<Digest>, git: GitAnswers)
      returns (code: int)
      requires Valid() && Truthful(git)
      modifies this
      ensures Valid()
      ensures code == 0 <==>
                && (expected.Some? ==> Sha256(snapshot) == expected.value)
                && old(Admitted(request, snapshot, git))
                && StagingAccepted(request.paths, git)
                && git.commitSucceeds
      ensures code == 0 ==>
                var requested := AsSet(request.paths);
                && commits == old(commits) + [Commit(request.message, requested)]
                && hostCommits == old(hostCommits) + [Commit(request.message, requested)]
                && requested !! snapshot.dirty
                && dirty == old(dirty) - requested
                && dirty <= snapshot.dirty
                && staged == {}
      ensures code != 0 ==>
                && code in {RUNNER_REQUEST_ERROR, RUNNER_STAGE_ERROR, RUNNER_COMMIT_ERROR}
                && commits == old(commits) && hostCommits == old(hostCommits)
                && dirty == old(dirty) && staged == old(staged) && tracked == old(tracked)
      ensures code == RUNNER_STAGE_ERROR <==>
                && (expected.Some? ==> Sha256(snapshot) == expected.value)
                && (old(FoundStaged(request, snapshot, git))
                    || (old(Admitted(request, snapshot, git)) && !StagingAccepted(request.paths, git)))
      ensures old(staged) != {} ==> code in {RUNNER_REQUEST_ERROR, RUNNER_STAGE_ERROR} && staged == old(staged)
    {
      if request.NoRequest? {
        return RUNNER_REQUEST_ERROR;
      }
      if expected.Some? && Sha256(snapshot) != expected.value {
        return RUNNER_REQUEST_ERROR;
      }
      var r := CommitRequest(request, snapshot, git);
      if r.Passed? {
        return 0;
      }
      return MapCommitError(r.code);
    }
  }

  /** An index into which somebody, say the agent, has staged anything is refused, whatever the request and whatever git
      answers; and if request and snapshot are good and git can tell, this is what the caller is told. */
  lemma StagedIndexIsRefused(repo: Repo, request: RequestFile, snapshot: SnapshotFile, git: GitAnswers)
    requires repo.staged != {}
    ensures !repo.Admitted(request, snapshot, git)
    ensures && RequestAccepted(request, repo.safe)
            && SnapshotAccepted(snapshot, repo.root, repo.safe)
            && AsSet(request.paths) !! snapshot.dirty
            && git.status.Some?
            ==> repo.FoundStaged(request, snapshot, git)
  {
  }

  function MapCommitError(code: int): int {
    if code == REQUEST_ERROR then RUNNER_REQUEST_ERROR
    else if code == STAGE_ERROR then RUNNER_STAGE_ERROR
    else RUNNER_COMMIT_ERROR
  }
}
