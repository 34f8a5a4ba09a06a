/** The bounded snapshot read of src/repo_health_doctor/control_file.py, with any interference of other processes
    between its system calls. */
module ControlFile {
  import opened Wrappers
  import opened Porcelain

  const READ_CHUNK_BYTES := 8192

  datatype FileKind = Regular | Link | Other

  /** `ControlFileState`: device and inode number, mode, size and the two times. */
  datatype FileState = FileState(device: int, inode: int, kind: FileKind, permissions: int, size: nat, mtime: int,
                                 ctime: int)

  datatype Version = Version(state: FileState, content: Bytes)

  datatype ReadError = TooLarge | NotFound | FileChanged | SymlinkRefused | NotRegular

  datatype ControlFile = ControlFile(content: Bytes, state: FileState)

  type InodeId = nat

  /** An inode got a new version, or the path now leads to another inode, or to none. */
  datatype Event = Changed(id: InodeId, version: Version) | Linked(target: Option<InodeId>)

  /** The read took the state of an inode, of the one at the path or of the one that it held open, when this much of the
      log had happened. */
  datatype StateTaken = StateTaken(at: nat, id: InodeId, byPath: bool)

  /** No version recorded from `from` on belongs to this inode. */
  predicate Untouched(log: seq<Event>, from: nat, id: InodeId) {
    forall k :: from <= k < |log| ==> !(log[k].Changed? && log[k].id == id)
  }

  predicate StatesAreDistinct(log: seq<Event>) {
    forall i, j :: 0 <= i < j < |log| && log[i].Changed? && log[j].Changed? ==>
      log[i].version.state != log[j].version.state
  }

  /** Where the path leads after these events. */
  function PathAt(log: seq<Event>): Option<InodeId> {
    if log == [] then None
    else if log[|log| - 1].Linked? then log[|log| - 1].target
    else PathAt(log[..|log| - 1])
  }

  /** The last version recorded for an inode. */
  function Latest(log: seq<Event>, id: InodeId): Option<Version> {
    if log == [] then None
    else if log[|log| - 1].Changed? && log[|log| - 1].id == id then Some(log[|log| - 1].version)
    else Latest(log[..|log| - 1], id)
  }

  lemma {:induction false} LatestIsRecorded(log: seq<Event>, id: InodeId) returns (k: nat)
    requires Latest(log, id).Some?
    ensures k < |log| && log[k] == Changed(id, Latest(log, id).value) && Untouched(log, k + 1, id)
  {
    k := |log| - 1;
    if !(log[k].Changed? && log[k].id == id) {
      k := LatestIsRecorded(log[..|log| - 1], id);
    }
  }

  lemma {:induction false} LatestWhenUntouched(log: seq<Event>, from: nat, id: InodeId)
    requires from <= |log| && Untouched(log, from, id)
    ensures Latest(log, id) == Latest(log[..from], id)
  {
    if from < |log| {
      var front := log[..|log| - 1];
      assert front[..from] == log[..from];
      LatestWhenUntouched(front, from, id);
    } else {
      assert log[..from] == log;
    }
  }

  /** If an inode shows the state it showed before, it was not touched in between: the earlier and the later version
      are the same recorded one. */
  lemma SameStateMeansUntouched(log: seq<Event>, from: nat, first: InodeId, second: InodeId)
    requires from <= |log| && StatesAreDistinct(log)
    requires Latest(log[..from], first).Some? && Latest(log, second).Some?
    requires Latest(log[..from], first).value.state == Latest(log, second).value.state
    ensures first == second && Untouched(log, from, first)
    ensures Latest(log[..from], first) == Latest(log, second)
  {
    var i := LatestIsRecorded(log[..from], first);
    var j := LatestIsRecorded(log, second);
    assert log[..from][i] == log[i];
    assert i == j;
  }

  /** One path, the inodes that exist, and every version they ever had. */
  class FileTree {
    var atPath: Option<InodeId>
    var inodes: map<InodeId, Version>
    var log: seq<Event>
    ghost var taken: seq<StateTaken>

    /** Every change of an inode gave it a stat state that was never seen before. */
    ghost predicate Valid()
      reads this
    {
      && StatesAreDistinct(log)
      && (forall id :: id in inodes ==> Latest(log, id) == Some(inodes[id]))
      && (forall id :: id in inodes ==> inodes[id].state.size == |inodes[id].content|)
      && (atPath.Some? ==> atPath.value in inodes)
      && atPath == PathAt(log)
    }

    constructor ()
      ensures Valid()
    {
      atPath, inodes, log := None, map[], [];
      taken := [];
    }

    predicate IsFresh(state: FileState)
      reads this`log
    {
      forall k :: 0 <= k < |log| && log[k].Changed? ==> log[k].version.state != state
    }

    /** A write, truncation, chmod or touch of an inode, or its creation, by anybody. */
    method Change(id: InodeId, version: Version)
      requires Valid()
      requires version.state.size == |version.content| && IsFresh(version.state)
      modifies this`inodes, this`log
      ensures Valid() && log == old(log) + [Changed(id, version)] && inodes == old(inodes)[id := version]
    {
      inodes := inodes[id := version];
      log := log + [Changed(id, version)];
      assert log[..|log| - 1] == old(log);
    }

    /** A rename over the path, or its removal. */
    method Link(target: Option<InodeId>)
      requires Valid() && (target.Some? ==> target.value in inodes)
      modifies this`atPath, this`log
      ensures Valid() && log == old(log) + [Linked(target)] && atPath == target
    {
      atPath := target;
      log := log + [Linked(target)];
      assert log[..|log| - 1] == old(log);
    }

    /** Whatever others do between two system calls: change or create inodes, and replace or remove the path. */
    method Interfere(quiet: bool)
      requires Valid()
      modifies this
      ensures Valid() && old(log) <= log && old(inodes.Keys) <= inodes.Keys
      ensures taken == old(taken)
      ensures quiet ==> log == old(log) && inodes == old(inodes) && atPath == old(atPath)
    {
      var steps: int := *;
      steps := if quiet || steps < 0 then 0 else steps;
      for i := 0 to steps
        invariant Valid() && old(log) <= log && old(inodes.Keys) <= inodes.Keys
        invariant taken == old(taken)
        invariant i == 0 ==> log == old(log) && inodes == old(inodes) && atPath == old(atPath)
      {
        var target: Option<InodeId>, id: InodeId, version: Version := *, *, *;
        if target.None? || target.value in inodes {
          Link(target);
        }
        if version.state.size == |version.content| && IsFresh(version.state) {
          Change(id, version);
        }
      }
    }

    // ----- system calls; `quiet` means that none fails -----

    method Lstat(quiet: bool) returns (r: Result<Version, ReadError>, ghost id: InodeId)
      requires Valid()
      modifies this`taken
      ensures atPath.None? ==> r.Err?
      ensures r.Ok? ==> atPath == Some(id) && r.value == inodes[id]
      ensures taken == old(taken) + if r.Ok? then [StateTaken(|log|, id, true)] else []
      ensures quiet && atPath.Some? ==> r.Ok?
    {
      id := 0;
      if atPath.None? {
        return Err(NotFound), id;
      }
      var fails: bool := *;
      if fails && !quiet {
        return Err(FileChanged), id;
      }
      id := atPath.value;
      taken := taken + [StateTaken(|log|, id, true)];
      return Ok(inodes[atPath.value]), id;
    }

    /** `os.open` with O_NOFOLLOW. */
    method Open(quiet: bool) returns (r: Result<InodeId, ReadError>)
      requires Valid()
      ensures r.Ok? ==> atPath == Some(r.value) && !inodes[r.value].state.kind.Link?
      ensures quiet && atPath.Some? && !inodes[atPath.value].state.kind.Link? ==> r.Ok?
    {
      var fails: bool := *;
      if atPath.None? || (fails && !quiet) {
        return Err(FileChanged);
      }
      if inodes[atPath.value].state.kind.Link? {
        return Err(SymlinkRefused);
      }
      return Ok(atPath.value);
    }

    method Fstat(id: InodeId, quiet: bool) returns (r: Result<FileState, ReadError>)
      requires Valid() && id in inodes
      modifies this`taken
      ensures r.Ok? ==> r.value == inodes[id].state
      ensures taken == old(taken) + if r.Ok? then [StateTaken(|log|, id, false)] else []
      ensures quiet ==> r.Ok?
    {
      var fails: bool := *;
      if fails && !quiet {
        return Err(FileChanged);
      }
      taken := taken + [StateTaken(|log|, id, false)];
      return Ok(inodes[id].state);
    }

    /** `os.read` at an offset: any non-empty part of what is left, or nothing at the end of the file. */
    method Read(id: InodeId, offset: nat, atMost: nat) returns (chunk: Bytes)
      requires Valid() && id in inodes && atMost > 0
      ensures |chunk| <= atMost
      ensures offset < |inodes[id].content| ==> chunk != [] && chunk <= inodes[id].content[offset..]
      ensures offset >= |inodes[id].content| ==> chunk == []
    {
      var content := inodes[id].content;
      if offset >= |content| {
        return [];
      }
      var n: int := *;
      var available := if |content| - offset < atMost then |content| - offset else atMost;
      n := if n < 1 then 1 else if n > available then available else n;
      return content[offset..][..n];
    }

    // ----- the bounded read -----

    /** `_bounded_read`: never more than one byte beyond the limit. As long as nobody touched the inode, the result
        is its content, or it is longer than the limit. */
    method BoundedRead(id: InodeId, maxBytes: nat, quiet: bool) returns (r: Option<Bytes>, ghost total: nat)
      requires Valid() && id in inodes
      modifies this
      ensures Valid() && old(log) <= log && id in inodes
      ensures taken == old(taken)
      ensures quiet ==> log == old(log) && inodes == old(inodes) && atPath == old(atPath)
      ensures total <= maxBytes + 1
      ensures r.Some? ==> |r.value| == total <= maxBytes
      ensures r.None? ==> total == maxBytes + 1
      ensures Untouched(log, |old(log)|, id) ==>
                inodes[id] == old(inodes[id])
                && (r.Some? ==> r.value == inodes[id].content)
                && (r.None? ==> |inodes[id].content| > maxBytes)
    {
      var remaining := maxBytes + 1;
      var content: Bytes := [];
      while remaining > 0
        invariant Valid() && old(log) <= log && id in inodes
        invariant taken == old(taken)
        invariant quiet ==> log == old(log) && inodes == old(inodes) && atPath == old(atPath)
        invariant 0 <= remaining == maxBytes + 1 - |content|
        invariant Untouched(log, |old(log)|, id) ==> inodes[id] == old(inodes[id]) && content <= inodes[id].content
        decreases remaining
      {
        Interfere(quiet);
        Unchanged(old(log), old(inodes), id);
        var chunk := Read(id, |content|, if READ_CHUNK_BYTES < remaining then READ_CHUNK_BYTES else remaining);
        if chunk == [] {
          break;
        }
        content := content + chunk;
        remaining := remaining - |chunk|;
      }
      total := |content|;
      r := if |content| > maxBytes then None else Some(content);
    }

    lemma Unchanged(before: seq<Event>, was: map<InodeId, Version>, id: InodeId)
      requires Valid() && before <= log && id in was && id in inodes && Latest(before, id) == Some(was[id])
      ensures Untouched(log, |before|, id) ==> inodes[id] == was[id]
    {
      if Untouched(log, |before|, id) {
        LatestWhenUntouched(log, |before|, id);
        assert log[..|before|] == before;
      }
    }

    /** The state of an open inode after others had their turn. */
    method FstatLater(fd: InodeId, quiet: bool) returns (r: Result<FileState, ReadError>)
      requires Valid() && fd in inodes
      modifies this
      ensures Valid() && old(log) <= log && fd in inodes
      ensures r.Ok? ==> r.value == inodes[fd].state
      ensures taken == old(taken) + if r.Ok? then [StateTaken(|log|, fd, false)] else []
      ensures Untouched(log, |old(log)|, fd) ==> inodes[fd] == old(inodes[fd])
      ensures quiet ==> r.Ok? && log == old(log) && inodes == old(inodes)
    {
      Interfere(quiet);
      Unchanged(old(log), old(inodes), fd);
      r := Fstat(fd, quiet);
    }

    /** The part of the read that holds a descriptor. It takes the state of the open inode first and last, and if the
        inode was not touched at all, the result is its content. */
    method ReadDescriptor(fd: InodeId, was: FileState, maxBytes: nat, quiet: bool)
      returns (r: Result<ControlFile, ReadError>, ghost first: nat)
      requires Valid() && fd in inodes
      modifies this
      ensures Valid() && old(log) <= log && fd in inodes
      ensures r.Ok? ==>
                && r.value.state == was == inodes[fd].state
                && |r.value.content| == r.value.state.size <= maxBytes
                && (Untouched(log, |old(log)|, fd) ==> r.value.content == inodes[fd].content)
                && |old(log)| <= first <= |log|
                && taken == old(taken) + [StateTaken(first, fd, false), StateTaken(|log|, fd, false)]
      ensures quiet ==>
                && log == old(log) && inodes == old(inodes)
                && (r.Ok? <==> inodes[fd].state == was && |inodes[fd].content| <= maxBytes)
    {
      var atOpen := FstatLater(fd, quiet);
      first := |log|;
      if atOpen.Err? || atOpen.value != was {
        return Err(FileChanged), first;
      }
      if atOpen.value.size > maxBytes {
        return Err(TooLarge), first;
      }
      var content;
      ghost var total;
      content, total := BoundedRead(fd, maxBytes, quiet);
      if content.None? {
        return Err(TooLarge), first;
      }
      var last := FstatLater(fd, quiet);
      if last.Err? || last.value != atOpen.value || |content.value| != last.value.size {
        return Err(FileChanged), first;
      }
      return Ok(ControlFile(content.value, last.value)), first;
    }

    /** `read_bounded_control_file`. A success takes three states of one inode: at `from` that of the path, where the
        inode then was, and two of the open file, the last of them at the end. It returns that state and the whole
        content that the inode had all the while: nobody touched it in between, and it is a regular file within the
        limit. Without interference every such file is read. */
    method ReadBoundedControlFile(maxBytes: int, quiet: bool)
      returns (r: Result<ControlFile, ReadError>, ghost id: InodeId, ghost from: nat)
      requires Valid()
      modifies this
      ensures Valid() && old(log) <= log
      ensures r.Ok? ==>
                && |old(log)| <= from <= |log| && Untouched(log, from, id)
                && (exists between | from <= between <= |log| ::
                      taken == old(taken) + [StateTaken(from, id, true), StateTaken(between, id, false),
                                             StateTaken(|log|, id, false)])
                && id in inodes && inodes[id] == Version(r.value.state, r.value.content)
                && PathAt(log[..from]) == Some(id) && Latest(log[..from], id) == Some(inodes[id])
                && r.value.state.kind.Regular?
                && |r.value.content| == r.value.state.size <= maxBytes
      ensures quiet && maxBytes >= 1 && old(atPath.Some?) ==>
                var v := old(inodes[atPath.value]);
                if v.state.kind.Regular? && |v.content| <= maxBytes then r == Ok(ControlFile(v.content, v.state))
                else r.Err?
    {
      id, from := 0, |log|;
      if maxBytes < 1 {
        return Err(TooLarge), id, from;
      }
      Interfere(quiet);
      var before;
      from := |log|;
      ghost var logAtLstat := log;
      before, id := Lstat(quiet);
      if before.Err? {
        return Err(before.error), id, from;
      }
      var was := before.value.state;
      if was.kind.Link? {
        return Err(SymlinkRefused), id, from;
      }
      if !was.kind.Regular? {
        return Err(NotRegular), id, from;
      }
      if was.size > maxBytes {
        return Err(TooLarge), id, from;
      }
      Interfere(quiet);
      var descriptor := Open(quiet);
      if descriptor.Err? {
        return Err(descriptor.error), id, from;
      }
      var fd := descriptor.value;
      ghost var between;
      r, between := ReadDescriptor(fd, was, maxBytes, quiet);
      if r.Ok? {
        assert log[..from] == logAtLstat;
        SameStateMeansUntouched(log, from, id, fd);
      }
    }
  }
}
