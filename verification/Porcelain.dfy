/** The parser of `git status --porcelain=v1 -z` output in scripts/host_commit.py.

    Paths stay byte strings: the source decodes them with `os.fsdecode`, which is
    injective, so set membership is the same before and after decoding. */
module Porcelain {
  import opened Wrappers

  newtype Byte = b: int | 0 <= b < 256

  type Bytes = seq<Byte>

  type Path = seq<Byte>

  const NUL: Byte := 0
  const SPACE: Byte := 32
  const BANG: Byte := 33
  const QUESTION: Byte := 63
  const COPIED: Byte := 67
  const RENAMED: Byte := 82

  datatype StatusError = Unparsable | StatusNotAscii | IncompleteRename

  /** What one status call says about the tree. */
  datatype TreeState = TreeState(dirty: set<Path>, staged: set<Path>)

  /** One line of `git status`: two status columns, a path, and the old path of a rename or copy. */
  datatype Entry = Entry(x: Byte, y: Byte, path: Path, source: Option<Path>)

  predicate IsRename(x: Byte, y: Byte) {
    x == RENAMED || y == RENAMED || x == COPIED || y == COPIED
  }

  predicate IsStagedColumn(x: Byte) {
    x != SPACE && x != QUESTION && x != BANG
  }

  predicate NulFree(s: Bytes) {
    NUL !in s
  }

  /** What git promises of an entry: ASCII columns, non-empty NUL-free paths, and a source exactly for renames. */
  predicate ValidEntry(e: Entry) {
    && 0 < e.x < 128 && 0 < e.y < 128
    && e.path != [] && NulFree(e.path)
    && (e.source.Some? <==> IsRename(e.x, e.y))
    && (e.source.Some? ==> e.source.value != [] && NulFree(e.source.value))
  }

  predicate ValidEntries(es: seq<Entry>) {
    forall e :: e in es ==> ValidEntry(e)
  }

  function Touched(e: Entry): set<Path> {
    {e.path} + if e.source.Some? then {e.source.value} else {}
  }

  function DirtyOf(es: seq<Entry>): (paths: set<Path>)
    ensures forall p :: p in paths <==> exists e :: e in es && p in Touched(e)
  {
    if es == [] then {} else Touched(es[0]) + DirtyOf(es[1..])
  }

  function StagedOf(es: seq<Entry>): (paths: set<Path>)
    ensures forall p :: p in paths <==> exists e :: e in es && IsStagedColumn(e.x) && p in Touched(e)
  {
    if es == [] then {}
    else (if IsStagedColumn(es[0].x) then Touched(es[0]) else {}) + StagedOf(es[1..])
  }

  // ----- the encoding git prints -----

  function Header(e: Entry): Bytes {
    [e.x, e.y, SPACE] + e.path
  }

  function EncodeEntry(e: Entry): Bytes {
    Header(e) + [NUL] + if e.source.Some? then e.source.value + [NUL] else []
  }

  function Encode(es: seq<Entry>): Bytes {
    if es == [] then [] else EncodeEntry(es[0]) + Encode(es[1..])
  }

  // ----- the parser -----

  /** `bytes.split(b"\0")`. */
  function Split(data: Bytes): (records: seq<Bytes>)
    ensures records != []
  {
    if data == [] then [[]]
    else if data[0] == NUL then [[]] + Split(data[1..])
    else
      var rest := Split(data[1..]);
      [[data[0]] + rest[0]] + rest[1..]
  }

  /** The entries that the records spell out, read left to right. */
  function ReadEntries(records: seq<Bytes>): Result<seq<Entry>, StatusError> {
    if records == [] then Ok([])
    else
      var record := records[0];
      if record == [] then ReadEntries(records[1..])
      else if |record| < 4 || record[2] != SPACE then Err(Unparsable)
      else if record[0] > 127 || record[1] > 127 then Err(StatusNotAscii)
      else if !IsRename(record[0], record[1]) then
        Prepend(Entry(record[0], record[1], record[3..], None), ReadEntries(records[1..]))
      else if |records| < 2 || records[1] == [] then Err(IncompleteRename)
      else
        Prepend(Entry(record[0], record[1], record[3..], Some(records[1])), ReadEntries(records[2..]))
  }

  function Prepend(e: Entry, rest: Result<seq<Entry>, StatusError>): Result<seq<Entry>, StatusError> {
    if rest.Ok? then Ok([e] + rest.value) else rest
  }

  function Summary(entries: Result<seq<Entry>, StatusError>): Result<TreeState, StatusError> {
    if entries.Ok? then Ok(TreeState(DirtyOf(entries.value), StagedOf(entries.value)))
    else Err(entries.error)
  }

  function Join(seen: TreeState, rest: Result<TreeState, StatusError>): Result<TreeState, StatusError> {
    if rest.Err? then rest
    else Ok(TreeState(seen.dirty + rest.value.dirty, seen.staged + rest.value.staged))
  }

  /** Summing up an entry after what was seen is the same as having seen it too. */
  lemma SummaryOfPrepend(seen: TreeState, e: Entry, rest: Result<seq<Entry>, StatusError>)
    ensures var staged := if IsStagedColumn(e.x) then Touched(e) else {};
            Join(seen, Summary(Prepend(e, rest))) ==
            Join(TreeState(seen.dirty + Touched(e), seen.staged + staged), Summary(rest))
  {
    if rest.Ok? {
      var staged := if IsStagedColumn(e.x) then Touched(e) else {};
      assert ([e] + rest.value)[1..] == rest.value;
      assert seen.dirty + (Touched(e) + DirtyOf(rest.value)) == (seen.dirty + Touched(e)) + DirtyOf(rest.value);
      assert seen.staged + (staged + StagedOf(rest.value)) == (seen.staged + staged) + StagedOf(rest.value);
    }
  }

  method ParsePorcelain(data: Bytes) returns (r: Result<TreeState, StatusError>)
    ensures r == Summary(ReadEntries(Split(data)))
    ensures r.Ok? ==> r.value.staged <= r.value.dirty
  {
    var dirty, staged: set<Path> := {}, {};
    var records := Split(data);
    ghost var goal := Summary(ReadEntries(records));
    var index := 0;
    assert records[0..] == records;
    assert goal == Join(TreeState({}, {}), goal) by {
      if goal.Ok? {
        assert {} + goal.value.dirty == goal.value.dirty && {} + goal.value.staged == goal.value.staged;
      }
    }
    while index < |records|
      invariant 0 <= index <= |records|
      invariant staged <= dirty
      invariant goal == Join(TreeState(dirty, staged), Summary(ReadEntries(records[index..])))
    {
      ghost var suffix, seen := records[index..], TreeState(dirty, staged);
      ghost var entry;
      var record := records[index];
      index := index + 1;
      assert suffix[0] == record && suffix[1..] == records[index..];
      if record == [] {
        continue;
      }
      if |record| < 4 || record[2] != SPACE {
        return Err(Unparsable);
      }
      if record[0] > 127 || record[1] > 127 {
        return Err(StatusNotAscii);
      }
      var path := record[3..];
      dirty := dirty + {path};
      if IsStagedColumn(record[0]) {
        staged := staged + {path};
      }
      if IsRename(record[0], record[1]) {
        if index >= |records| || records[index] == [] {
          return Err(IncompleteRename);
        }
        var source := records[index];
        index := index + 1;
        assert suffix[1] == source && suffix[2..] == records[index..];
        dirty := dirty + {source};
        if IsStagedColumn(record[0]) {
          staged := staged + {source};
        }
        entry := Entry(record[0], record[1], path, Some(source));
      } else {
        entry := Entry(record[0], record[1], path, None);
      }
      SummaryOfPrepend(seen, entry, ReadEntries(records[index..]));
      assert dirty == seen.dirty + Touched(entry);
      assert staged == seen.staged + if IsStagedColumn(entry.x) then Touched(entry) else {};
    }
    return Ok(TreeState(dirty, staged));
  }

  // ----- parsing inverts encoding -----

  lemma {:induction false} SplitAtNul(record: Bytes, rest: Bytes)
    requires NulFree(record)
    ensures Split(record + [NUL] + rest) == [record] + Split(rest)
  {
    var data := record + [NUL] + rest;
    if record == [] {
      assert data[1..] == rest;
    } else {
      assert data[1..] == record[1..] + [NUL] + rest;
      SplitAtNul(record[1..], rest);
      assert [record[0]] + record[1..] == record;
    }
  }

  lemma {:induction false} SplitNulFree(record: Bytes)
    requires NulFree(record)
    ensures Split(record) == [record]
  {
    if record != [] {
      SplitNulFree(record[1..]);
      assert [record[0]] + record[1..] == record;
    }
  }

  /** Reading one encoded entry takes exactly its bytes and leaves the rest. */
  lemma ReadOneEntry(e: Entry, rest: Bytes)
    requires ValidEntry(e)
    ensures ReadEntries(Split(EncodeEntry(e) + rest)) == Prepend(e, ReadEntries(Split(rest)))
  {
    var header := Header(e);
    assert header[3..] == e.path;
    if e.source.Some? {
      var source := e.source.value;
      var tail := source + [NUL] + rest;
      assert EncodeEntry(e) + rest == header + [NUL] + tail;
      SplitAtNul(header, tail);
      SplitAtNul(source, rest);
      var records := [header] + ([source] + Split(rest));
      assert records[1] == source && records[2..] == Split(rest);
    } else {
      assert EncodeEntry(e) + rest == header + [NUL] + rest;
      SplitAtNul(header, rest);
      assert ([header] + Split(rest))[1..] == Split(rest);
    }
  }

  lemma {:induction false} ReadEncoded(es: seq<Entry>, rest: Bytes)
    requires ValidEntries(es)
    ensures ReadEntries(Split(Encode(es) + rest)) ==
            var tail := ReadEntries(Split(rest));
            if tail.Ok? then Ok(es + tail.value) else tail
  {
    if es == [] {
      assert Encode(es) + rest == rest;
      var tail := ReadEntries(Split(rest));
      if tail.Ok? { assert es + tail.value == tail.value; }
    } else {
      assert Encode(es) + rest == EncodeEntry(es[0]) + (Encode(es[1..]) + rest);
      ReadOneEntry(es[0], Encode(es[1..]) + rest);
      ReadEncoded(es[1..], rest);
      var tail := ReadEntries(Split(rest));
      if tail.Ok? { assert [es[0]] + (es[1..] + tail.value) == es + tail.value; }
    }
  }

  /** Parsing the encoding of any entries gives exactly their paths and their staged paths. */
  lemma ParseInvertsEncode(es: seq<Entry>)
    requires ValidEntries(es)
    ensures ReadEntries(Split(Encode(es))) == Ok(es)
    ensures Summary(ReadEntries(Split(Encode(es)))) == Ok(TreeState(DirtyOf(es), StagedOf(es)))
    ensures StagedOf(es) <= DirtyOf(es)
  {
    ReadEncoded(es, []);
    assert Encode(es) + [] == Encode(es);
    assert ReadEntries([[]]) == Ok([]);
    assert es + [] == es;
  }

  /** A rename cut off before its source is refused, whatever came before it. */
  lemma CutRenameRefused(es: seq<Entry>, e: Entry, terminated: bool)
    requires ValidEntries(es) && ValidEntry(e) && e.source.Some?
    ensures ReadEntries(Split(Encode(es) + (Header(e) + if terminated then [NUL] else []))) == Err(IncompleteRename)
  {
    var header := Header(e);
    var cut := header + if terminated then [NUL] else [];
    if terminated {
      assert cut == header + [NUL] + [];
      SplitAtNul(header, []);
      assert Split(cut) == [header, []];
    } else {
      assert cut == header;
      SplitNulFree(header);
    }
    ReadEncoded(es, cut);
  }

  // ----- nothing in an accepted snapshot is ignored -----

  function RecordsOf(es: seq<Entry>): seq<Bytes> {
    if es == [] then []
    else [Header(es[0])] + (if es[0].source.Some? then [es[0].source.value] else []) + RecordsOf(es[1..])
  }

  function NonEmpty(records: seq<Bytes>): seq<Bytes> {
    if records == [] then []
    else (if records[0] == [] then [] else [records[0]]) + NonEmpty(records[1..])
  }

  /** Whenever the parser accepts, the entries it read account for every non-empty record, in order. */
  lemma {:induction false} AcceptedRecordsAreAllRead(records: seq<Bytes>)
    ensures var r := ReadEntries(records);
            r.Ok? ==> RecordsOf(r.value) == NonEmpty(records)
  {
    if records != [] {
      var record := records[0];
      if record == [] {
        AcceptedRecordsAreAllRead(records[1..]);
      } else if |record| >= 4 && record[2] == SPACE && record[0] <= 127 && record[1] <= 127 {
        assert [record[0], record[1], SPACE] + record[3..] == record;
        if !IsRename(record[0], record[1]) {
          AcceptedRecordsAreAllRead(records[1..]);
          var rest := ReadEntries(records[1..]);
          if rest.Ok? {
            var e := Entry(record[0], record[1], record[3..], None);
            assert ([e] + rest.value)[1..] == rest.value;
          }
        } else if |records| >= 2 && records[1] != [] {
          AcceptedRecordsAreAllRead(records[2..]);
          assert records[1..][1..] == records[2..];
          var rest := ReadEntries(records[2..]);
          if rest.Ok? {
            var e := Entry(record[0], record[1], record[3..], Some(records[1]));
            assert ([e] + rest.value)[1..] == rest.value;
          }
        }
      }
    }
  }
}
