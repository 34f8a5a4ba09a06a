/** The policy document parser of src/repo_health_doctor/doctor.py: a line-oriented reader of top-level keys that hold
    lists of scalars or of string maps, and its inverse. */
module PolicyYaml {
  import opened Wrappers
  import opened Text

  // ----- documents -----

  datatype Item = Scalar(text: string) | Entry(fields: map<string, string>)

  type PolicyDocument = map<string, seq<Item>>

  datatype Problem = InvalidTopLevelEntry | NestedEntryWithoutKey | EmptyListItem | InvalidNestedEntry

  // ----- pieces of lines -----

  /** The characters at which `str.splitlines` breaks. */
  predicate IsBreak(c: char) {
    || '\n' <= c <= '\r' || '\U{1c}' <= c <= '\U{1e}' || c == '\U{85}' || c == '\U{2028}' || c == '\U{2029}'
  }

  function FirstBreak(s: string): (n: nat)
    ensures n <= |s|
    ensures n < |s| ==> IsBreak(s[n])
    ensures forall k :: 0 <= k < n ==> !IsBreak(s[k])
  {
    if s == [] || IsBreak(s[0]) then 0 else 1 + FirstBreak(s[1..])
  }

  function SplitLines(s: string): seq<string> {
    var n := FirstBreak(s);
    if s == [] then []
    else if n == |s| then [s]
    else if s[n] == '\r' && n + 1 < |s| && s[n + 1] == '\n' then [s[..n]] + SplitLines(s[n + 2..])
    else [s[..n]] + SplitLines(s[n + 1..])
  }

  /** The first position of a character, or the length. */
  function Find(s: string, c: char): (n: nat)
    ensures n <= |s|
    ensures n < |s| ==> s[n] == c
    ensures forall k :: 0 <= k < n ==> s[k] != c
  {
    if s == [] || s[0] == c then 0 else 1 + Find(s[1..], c)
  }

  /** A line without its comment and trailing space. */
  function Clean(line: string): string {
    RStrip(line[..Find(line, '#')])
  }

  /** `_parse_scalar`. */
  function ParseScalar(value: string): string {
    var t := Strip(value);
    if |t| >= 2 && t[0] == t[|t| - 1] && t[0] in {'\'', '"'} then t[1..|t| - 1] else t
  }

  // ----- the parser -----

  /** The document so far, the current top-level key, and whether the last item of its list is the current item. */
  datatype RawState = RawState(parsed: PolicyDocument, key: Option<string>, inItem: bool)

  type State = s: RawState | IsConsistent(s) witness RawState(map[], None, false)

  predicate IsConsistent(s: RawState) {
    && (s.key.Some? ==> s.key.value in s.parsed)
    && (s.inItem ==> s.key.Some? && s.parsed[s.key.value] != [] && Last(s.parsed[s.key.value]).Entry?)
  }

  function Last(items: seq<Item>): Item
    requires items != []
  {
    items[|items| - 1]
  }

  /** Splits at the first colon: the stripped key, and the value as it stands. */
  function Partition(s: string): (r: (string, string))
    requires ':' in s
  {
    var n := Find(s, ':');
    assert n < |s| by { var k :| 0 <= k < |s| && s[k] == ':'; }
    (Strip(s[..n]), s[n + 1..])
  }

  function WithItem(s: State, item: Item): State
    requires s.key.Some?
  {
    RawState(s.parsed[s.key.value := s.parsed[s.key.value] + [item]], s.key, item.Entry?)
  }

  function WithField(s: State, field: string, value: string): State
    requires s.inItem
  {
    var items := s.parsed[s.key.value];
    RawState(s.parsed[s.key.value := items[|items| - 1 := Entry(Last(items).fields[field := value])]], s.key, true)
  }

  function TopLevel(s: State, line: string): Result<State, Problem> {
    if ':' !in line then Err(InvalidTopLevelEntry)
    else
      var (key, value) := Partition(line);
      var items := if Strip(value) == [] then [] else [Scalar(ParseScalar(value))];
      Ok(RawState(s.parsed[key := items], Some(key), false))
  }

  function ListItem(s: State, rest: string): Result<State, Problem>
    requires s.key.Some?
  {
    if rest == [] then Err(EmptyListItem)
    else if ':' in rest then
      var (field, value) := Partition(rest);
      Ok(WithItem(s, Entry(map[field := ParseScalar(value)])))
    else Ok(WithItem(s, Scalar(ParseScalar(rest))))
  }

  /** The effect of one line that is not blank. */
  function Step(s: State, line: string): Result<State, Problem> {
    var stripped := Strip(line);
    if !(" " <= line) then TopLevel(s, stripped)
    else if s.key.None? then Err(NestedEntryWithoutKey)
    else if "- " <= stripped then ListItem(s, Strip(stripped[2..]))
    else if !s.inItem || ':' !in stripped then Err(InvalidNestedEntry)
    else
      var (field, value) := Partition(stripped);
      Ok(WithField(s, field, ParseScalar(value)))
  }

  type Stepper = (State, string) -> Result<State, Problem>

  function Steps(): Stepper {
    (s: State, line: string) => Step(s, line)
  }

  /** `step` is the parser's step; stated so that it is used only where `Step` is spoken of. */
  ghost predicate IsStep(step: Stepper) {
    forall s: State, line: string {:trigger Step(s, line)} :: step(s, line) == Step(s, line)
  }

  function StepAll(step: Stepper, s: State, lines: seq<string>): Result<State, Problem>
    decreases lines
  {
    if lines == [] then Ok(s)
    else
      var next := step(s, lines[0]);
      if next.Ok? then StepAll(step, next.value, lines[1..]) else next
  }

  /** The cleaned lines that are not blank. */
  function Significant(lines: seq<string>): seq<string> {
    if lines == [] then []
    else if Strip(Clean(lines[0])) == [] then Significant(lines[1..])
    else [Clean(lines[0])] + Significant(lines[1..])
  }

  const START: State := RawState(map[], None, false)

  /** What a text means to the parser. */
  function Parsed(content: string): Result<PolicyDocument, Problem> {
    var r := StepAll(Steps(), START, Significant(SplitLines(content)));
    if r.Ok? then Ok(r.value.parsed) else Err(r.error)
  }

  lemma SignificantFrom(lines: seq<string>, n: nat)
    requires n < |lines|
    ensures Significant(lines[n..]) ==
            if Strip(Clean(lines[n])) == [] then Significant(lines[n + 1..])
            else [Clean(lines[n])] + Significant(lines[n + 1..])
  {
    assert lines[n..][0] == lines[n] && lines[n..][1..] == lines[n + 1..];
  }

  lemma StepAllFirst(step: Stepper, s: State, line: string, rest: seq<string>)
    ensures StepAll(step, s, [line] + rest) == var next := step(s, line);
                                               if next.Ok? then StepAll(step, next.value, rest) else next
  {
    assert ([line] + rest)[1..] == rest;
  }

  method TakeStep(s: State, line: string, ghost step: Stepper) returns (next: Result<State, Problem>)
    requires IsStep(step)
    ensures next == step(s, line)
  {
    next := Step(s, line);
  }

  /** The line loop, from any state. */
  method ParseLines(lines: seq<string>, start: State, ghost step: Stepper) returns (r: Result<State, Problem>)
    requires IsStep(step)
    ensures r == StepAll(step, start, Significant(lines))
  {
    var state := start;
    for n := 0 to |lines|
      invariant StepAll(step, start, Significant(lines)) == StepAll(step, state, Significant(lines[n..]))
    {
      SignificantFrom(lines, n);
      var line := Clean(lines[n]);
      if Strip(line) == [] {
        continue;
      }
      StepAllFirst(step, state, line, Significant(lines[n + 1..]));
      var next := TakeStep(state, line, step);
      if next.Err? {
        return next;
      }
      state := next.value;
    }
    r := Ok(state);
  }

  /** `_parse_simple_policy_yaml`. */
  method ParseSimplePolicyYaml(content: string) returns (r: Result<PolicyDocument, Problem>)
    ensures r == Parsed(content)
  {
    var end := ParseLines(SplitLines(content), START, Steps());
    r := if end.Ok? then Ok(end.value.parsed) else Err(end.error);
  }

  // ----- the printer -----

  datatype Quoting = Bare | Single | Double

  datatype Value = Value(text: string, quoting: Quoting)

  datatype Field = Field(key: string, value: Value)

  datatype Node = ScalarNode(value: Value) | EntryNode(first: Field, more: seq<Field>)

  /** A top-level key with a value on its own line, or with a list below it. */
  datatype Section = Inline(key: string, value: Value) | Block(key: string, nodes: seq<Node>)

  function Shown(v: Value): string {
    match v.quoting
    case Bare => v.text
    case Single => "'" + v.text + "'"
    case Double => "\"" + v.text + "\""
  }

  function KeyAndValue(f: Field): string {
    f.key + ":" + if Shown(f.value) == [] then [] else " " + Shown(f.value)
  }

  function FieldLines(fields: seq<Field>): seq<string> {
    if fields == [] then [] else ["    " + KeyAndValue(fields[0])] + FieldLines(fields[1..])
  }

  function NodeLines(n: Node): seq<string> {
    match n
    case ScalarNode(v) => ["  - " + Shown(v)]
    case EntryNode(first, more) => ["  - " + KeyAndValue(first)] + FieldLines(more)
  }

  function NodesLines(nodes: seq<Node>): seq<string> {
    if nodes == [] then [] else NodeLines(nodes[0]) + NodesLines(nodes[1..])
  }

  function SectionLines(s: Section): seq<string> {
    match s
    case Inline(key, value) => [KeyAndValue(Field(key, value))]
    case Block(key, nodes) => [key + ":"] + NodesLines(nodes)
  }

  function Rendered(sections: seq<Section>): seq<string> {
    if sections == [] then [] else SectionLines(sections[0]) + Rendered(sections[1..])
  }

  // ----- what a rendering means -----

  function FieldsMeaning(start: map<string, string>, fields: seq<Field>): map<string, string>
    decreases fields
  {
    if fields == [] then start else FieldsMeaning(start[fields[0].key := fields[0].value.text], fields[1..])
  }

  function NodeMeaning(n: Node): Item {
    match n
    case ScalarNode(v) => Scalar(v.text)
    case EntryNode(first, more) => Entry(FieldsMeaning(map[first.key := first.value.text], more))
  }

  function NodesMeaning(nodes: seq<Node>): (r: seq<Item>)
    ensures |r| == |nodes|
  {
    if nodes == [] then [] else [NodeMeaning(nodes[0])] + NodesMeaning(nodes[1..])
  }

  function SectionMeaning(s: Section): seq<Item> {
    match s
    case Inline(_, value) => [Scalar(value.text)]
    case Block(_, nodes) => NodesMeaning(nodes)
  }

  /** A key given twice means what it is given last. */
  function Meaning(start: PolicyDocument, sections: seq<Section>): PolicyDocument
    decreases sections
  {
    if sections == [] then start
    else Meaning(start[sections[0].key := SectionMeaning(sections[0])], sections[1..])
  }

  // ----- the legal alphabet -----

  predicate IsTrimmed(s: string) {
    s == [] || (!IsSpace(s[0]) && !IsSpace(s[|s| - 1]))
  }

  predicate IsUnbroken(s: string) {
    forall c :: c in s ==> !IsBreak(c)
  }

  predicate OnOneLine(s: string) {
    '#' !in s && IsUnbroken(s)
  }

  predicate LooksQuoted(s: string) {
    |s| >= 2 && s[0] == s[|s| - 1] && s[0] in {'\'', '"'}
  }

  /** Bare text must be trimmed and not look quoted; quoted text may be anything on one line. */
  predicate LegalValue(v: Value) {
    OnOneLine(v.text) && (v.quoting.Bare? ==> IsTrimmed(v.text) && !LooksQuoted(v.text))
  }

  predicate LegalKey(k: string) {
    OnOneLine(k) && IsTrimmed(k) && ':' !in k
  }

  predicate LegalField(f: Field) {
    LegalKey(f.key) && LegalValue(f.value)
  }

  /** A field on a line of its own must not look like a list item. */
  predicate LegalNode(n: Node) {
    match n
    case ScalarNode(v) => LegalValue(v) && Shown(v) != [] && ':' !in v.text
    case EntryNode(first, more) => LegalField(first) && forall f :: f in more ==> LegalField(f) && !("- " <= f.key)
  }

  predicate LegalSection(s: Section) {
    match s
    case Inline(key, value) => LegalKey(key) && LegalValue(value) && Shown(value) != []
    case Block(key, nodes) => LegalKey(key) && forall n :: n in nodes ==> LegalNode(n)
  }

  predicate Legal(sections: seq<Section>) {
    forall s :: s in sections ==> LegalSection(s)
  }

  // ----- stripping -----

  predicate AllSpace(s: string) {
    forall c :: c in s ==> IsSpace(c)
  }

  lemma {:induction false} RStripDropsSpace(s: string, space: string)
    requires AllSpace(space) && (s == [] || !IsSpace(s[|s| - 1]))
    ensures RStrip(s + space) == s
  {
    if space == [] {
      assert s + space == s;
    } else {
      assert IsSpace(space[|space| - 1]);
      assert (s + space)[..|s + space| - 1] == s + space[..|space| - 1];
      RStripDropsSpace(s, space[..|space| - 1]);
    }
  }

  lemma {:induction false} LStripDropsSpace(space: string, s: string)
    requires AllSpace(space) && (s == [] || !IsSpace(s[0]))
    ensures LStrip(space + s) == s
  {
    if space == [] {
      assert space + s == s;
    } else {
      assert IsSpace(space[0]);
      assert (space + s)[1..] == space[1..] + s;
      LStripDropsSpace(space[1..], s);
    }
  }

  lemma StripFindsTrimmed(space: string, s: string)
    requires AllSpace(space) && IsTrimmed(s)
    ensures Strip(space + s) == s
  {
    LStripDropsSpace(space, s);
    RStripDropsSpace(s, []);
    assert s + [] == s;
  }

  lemma StripOfTrimmed(s: string)
    requires IsTrimmed(s)
    ensures Strip(s) == s
  {
    StripFindsTrimmed([], s);
    assert [] + s == s;
  }

  // ----- reading printed pieces back -----

  lemma Concatenated(a: string, b: string)
    ensures IsUnbroken(a + b) <==> IsUnbroken(a) && IsUnbroken(b)
    ensures OnOneLine(a + b) <==> OnOneLine(a) && OnOneLine(b)
  {
    var s := a + b;
    assert forall c :: c in s <==> c in a || c in b;
  }

  lemma ShownIsTrimmed(v: Value)
    requires LegalValue(v)
    ensures IsTrimmed(Shown(v)) && OnOneLine(Shown(v))
    ensures ':' in Shown(v) ==> ':' in v.text
  {
  }

  /** A printed value reads back as its text. */
  lemma ScalarReadsBack(space: string, v: Value)
    requires AllSpace(space) && LegalValue(v)
    ensures ParseScalar(space + Shown(v)) == v.text && Strip(space + Shown(v)) == Shown(v)
  {
    ShownIsTrimmed(v);
    StripFindsTrimmed(space, Shown(v));
    if !v.quoting.Bare? {
      assert Shown(v)[1..|Shown(v)| - 1] == v.text;
    }
  }

  lemma FindAfter(k: string, rest: string)
    requires ':' !in k
    ensures Find(k + ":" + rest, ':') == |k| && ':' in k + ":" + rest
  {
    var s := k + ":" + rest;
    assert s[|k|] == ':';
    forall i | 0 <= i < |k| ensures s[i] != ':' {
      assert s[i] == k[i] && k[i] in k;
    }
  }

  /** What a printed field has behind its colon. */
  function Tail(v: Value): string {
    if Shown(v) == [] then [] else " " + Shown(v)
  }

  lemma TailReadsBack(v: Value)
    requires LegalValue(v)
    ensures ParseScalar(Tail(v)) == v.text && Strip(Tail(v)) == Shown(v)
  {
    if Shown(v) == [] {
      ScalarReadsBack([], v);
      assert [] + Shown(v) == Tail(v);
    } else {
      ScalarReadsBack(" ", v);
    }
  }

  lemma PartitionAtColon(key: string, tail: string)
    requires LegalKey(key)
    ensures ':' in key + ":" + tail && Partition(key + ":" + tail) == (key, tail)
  {
    var s := key + ":" + tail;
    FindAfter(key, tail);
    assert s[..|key|] == key && s[|key| + 1..] == tail;
    StripOfTrimmed(key);
  }

  lemma FieldIsTrimmed(f: Field)
    requires LegalField(f)
    ensures KeyAndValue(f) == f.key + ":" + Tail(f.value)
    ensures IsTrimmed(KeyAndValue(f)) && KeyAndValue(f) != []
  {
    var s := KeyAndValue(f);
    assert f.key != [] ==> s[0] == f.key[0];
    ShownIsTrimmed(f.value);
    if Shown(f.value) != [] {
      assert s[|s| - 1] == Shown(f.value)[|Shown(f.value)| - 1];
    }
  }

  /** A printed field splits at its colon. */
  lemma FieldReadsBack(f: Field)
    requires LegalField(f)
    ensures var s := KeyAndValue(f);
            && ':' in s
            && Partition(s).0 == f.key && ParseScalar(Partition(s).1) == f.value.text
            && Strip(Partition(s).1) == Shown(f.value)
            && IsTrimmed(s) && s != []
  {
    FieldIsTrimmed(f);
    PartitionAtColon(f.key, Tail(f.value));
    TailReadsBack(f.value);
  }

  // ----- reading printed lines back -----

  lemma {:induction false} StepAllConcat(step: Stepper, s: State, a: seq<string>, b: seq<string>)
    ensures StepAll(step, s, a + b) == var mid := StepAll(step, s, a);
                                       if mid.Ok? then StepAll(step, mid.value, b) else mid
    decreases a
  {
    if a == [] {
      assert a + b == b;
    } else {
      assert (a + b)[0] == a[0] && (a + b)[1..] == a[1..] + b;
      var next := step(s, a[0]);
      if next.Ok? { StepAllConcat(step, next.value, a[1..], b); }
    }
  }

  lemma StripIndented(indent: string, s: string)
    requires AllSpace(indent) && " " <= indent && IsTrimmed(s)
    ensures Strip(indent + s) == s && " " <= indent + s
  {
    StripFindsTrimmed(indent, s);
  }

  /** A printed list item is stripped of its dash. */
  lemma StepListItem(s: State, body: string)
    requires s.key.Some? && IsTrimmed(body) && body != []
    ensures Step(s, "  - " + body) == ListItem(s, body)
  {
    var line, item := "  - " + body, "- " + body;
    assert line == "  " + item;
    assert item[0] == '-' && item[|item| - 1] == body[|body| - 1];
    StripIndented("  ", item);
    assert item[2..] == body;
    StripOfTrimmed(body);
  }

  lemma ScalarNodeReadsBack(s: State, v: Value)
    requires s.key.Some? && LegalNode(ScalarNode(v))
    ensures Step(s, "  - " + Shown(v)) == Ok(WithItem(s, Scalar(v.text)))
  {
    ShownIsTrimmed(v);
    StepListItem(s, Shown(v));
    ListScalarReadsBack(s, v);
  }

  lemma ListScalarReadsBack(s: State, v: Value)
    requires s.key.Some? && LegalValue(v) && Shown(v) != [] && ':' !in Shown(v)
    ensures ListItem(s, Shown(v)) == Ok(WithItem(s, Scalar(v.text)))
  {
    ScalarReadsBack([], v);
    assert [] + Shown(v) == Shown(v);
  }

  lemma FirstFieldReadsBack(s: State, f: Field)
    requires s.key.Some? && LegalField(f)
    ensures Step(s, "  - " + KeyAndValue(f)) == Ok(WithItem(s, Entry(map[f.key := f.value.text])))
  {
    FieldReadsBack(f);
    StepListItem(s, KeyAndValue(f));
  }

  lemma NoDash(f: Field)
    requires !("- " <= f.key) && LegalField(f)
    ensures !("- " <= KeyAndValue(f))
  {
    var s := KeyAndValue(f);
    if |f.key| >= 2 {
      assert s[0] == f.key[0] && s[1] == f.key[1];
    } else if |f.key| == 1 {
      assert s[1] == ':';
    } else {
      assert s[0] == ':';
    }
  }

  lemma FieldLineReadsBack(s: State, f: Field)
    requires s.inItem && LegalField(f) && !("- " <= f.key)
    ensures Step(s, "    " + KeyAndValue(f)) == Ok(WithField(s, f.key, f.value.text))
  {
    FieldReadsBack(f);
    StripIndented("    ", KeyAndValue(f));
    NoDash(f);
  }

  lemma StepDeepListItem(s: State, body: string)
    requires s.key.Some? && IsTrimmed(body) && body != []
    ensures Step(s, "    - " + body) == ListItem(s, body)
  {
    var line, item := "    - " + body, "- " + body;
    assert line == "    " + item;
    assert item[0] == '-' && item[|item| - 1] == body[|body| - 1];
    StripIndented("    ", item);
    assert item[2..] == body;
    StripOfTrimmed(body);
  }

  lemma NewItemIsNoField(s: State, item: Item, field: string, value: string)
    requires s.inItem
    ensures WithItem(s, item) != WithField(s, field, value)
  {
    var k := s.key.value;
    assert |WithItem(s, item).parsed[k]| == |s.parsed[k]| + 1;
    assert |WithField(s, field, value).parsed[k]| == |s.parsed[k]|;
  }

  lemma DashedFieldReadsBack(s: State, f: Field)
    requires s.key.Some? && LegalField(f)
    ensures Step(s, "    - " + KeyAndValue(f)) == Ok(WithItem(s, Entry(map[f.key := f.value.text])))
  {
    FieldReadsBack(f);
    StepDeepListItem(s, KeyAndValue(f));
  }

  lemma DashIsPrintedFirst(f: Field)
    ensures "    " + KeyAndValue(Field("- " + f.key, f.value)) == "    - " + KeyAndValue(f)
  {
  }

  /** A field whose key begins with a dash and a space starts a new list item instead. */
  lemma DashKeyStartsAnItem(s: State, f: Field)
    requires s.inItem && LegalField(f)
    ensures var dashed := Field("- " + f.key, f.value);
            var next := WithItem(s, Entry(map[f.key := f.value.text]));
            && Step(s, "    " + KeyAndValue(dashed)) == Ok(next)
            && next != WithField(s, dashed.key, dashed.value.text)
  {
    DashedFieldReadsBack(s, f);
    DashIsPrintedFirst(f);
    NewItemIsNoField(s, Entry(map[f.key := f.value.text]), "- " + f.key, f.value.text);
  }

  /** The state with the current list replaced. */
  function WithList(s: State, items: seq<Item>, inItem: bool): RawState
    requires s.key.Some?
  {
    RawState(s.parsed[s.key.value := items], s.key, inItem)
  }

  lemma ListsReplaced(s: State, first: seq<Item>, second: seq<Item>)
    requires s.key.Some?
    ensures s.parsed[s.key.value := first][s.key.value := second] == s.parsed[s.key.value := second]
  {
  }

  lemma {:induction false} FieldLinesReadBack(step: Stepper, s: State, fields: seq<Field>)
    requires IsStep(step)
    requires s.inItem && forall f :: f in fields ==> LegalField(f) && !("- " <= f.key)
    ensures var items := s.parsed[s.key.value];
            var after := WithList(s, items[|items| - 1 := Entry(FieldsMeaning(Last(items).fields, fields))], true);
            IsConsistent(after) && StepAll(step, s, FieldLines(fields)) == Ok(after)
    decreases fields
  {
    var items := s.parsed[s.key.value];
    if fields == [] {
      assert items[|items| - 1 := Last(items)] == items;
      assert s.parsed[s.key.value := items] == s.parsed;
    } else {
      FieldLineReadsBack(s, fields[0]);
      var next := WithField(s, fields[0].key, fields[0].value.text);
      StepAllFirst(step, s, "    " + KeyAndValue(fields[0]), FieldLines(fields[1..]));
      FieldLinesReadBack(step, next, fields[1..]);
      var one := items[|items| - 1 := Entry(Last(items).fields[fields[0].key := fields[0].value.text])];
      var all := items[|items| - 1 := Entry(FieldsMeaning(Last(items).fields, fields))];
      ListsReplaced(s, one, all);
      assert one[|items| - 1 := Last(all)] == all;
    }
  }

  lemma NodeReadsBack(step: Stepper, s: State, n: Node)
    requires IsStep(step)
    requires s.key.Some? && LegalNode(n)
    ensures StepAll(step, s, NodeLines(n)) == Ok(WithItem(s, NodeMeaning(n)))
  {
    match n
    case ScalarNode(v) =>
      ScalarNodeReadsBack(s, v);
      StepAllFirst(step, s, "  - " + Shown(v), []);
    case EntryNode(first, more) =>
      FirstFieldReadsBack(s, first);
      var next := WithItem(s, Entry(map[first.key := first.value.text]));
      StepAllFirst(step, s, "  - " + KeyAndValue(first), FieldLines(more));
      FieldLinesReadBack(step, next, more);
      var before, one := s.parsed[s.key.value], Entry(map[first.key := first.value.text]);
      ListsReplaced(s, before + [one], before + [NodeMeaning(n)]);
      assert (before + [one])[|before| := NodeMeaning(n)] == before + [NodeMeaning(n)];
  }

  predicate EndsInItem(s: State, nodes: seq<Node>) {
    if nodes == [] then s.inItem else nodes[|nodes| - 1].EntryNode?
  }

  lemma ListAfterOneNode(s: State, nodes: seq<Node>)
    requires s.key.Some? && nodes != []
    ensures var next := WithItem(s, NodeMeaning(nodes[0]));
            WithList(next, next.parsed[s.key.value] + NodesMeaning(nodes[1..]), EndsInItem(next, nodes[1..])) ==
            WithList(s, s.parsed[s.key.value] + NodesMeaning(nodes), EndsInItem(s, nodes))
  {
    var before := s.parsed[s.key.value];
    ListsReplaced(s, before + [NodeMeaning(nodes[0])], before + NodesMeaning(nodes));
    assert before + [NodeMeaning(nodes[0])] + NodesMeaning(nodes[1..]) == before + NodesMeaning(nodes);
  }

  lemma {:induction false} NodesReadBack(step: Stepper, s: State, nodes: seq<Node>)
    requires IsStep(step)
    requires s.key.Some? && forall n :: n in nodes ==> LegalNode(n)
    ensures var after := WithList(s, s.parsed[s.key.value] + NodesMeaning(nodes), EndsInItem(s, nodes));
            IsConsistent(after) && StepAll(step, s, NodesLines(nodes)) == Ok(after)
    decreases nodes
  {
    if nodes == [] {
      var before := s.parsed[s.key.value];
      assert before + [] == before;
      assert s.parsed[s.key.value := before] == s.parsed;
    } else {
      NodeReadsBack(step, s, nodes[0]);
      StepAllConcat(step, s, NodeLines(nodes[0]), NodesLines(nodes[1..]));
      NodesReadBack(step, WithItem(s, NodeMeaning(nodes[0])), nodes[1..]);
      ListAfterOneNode(s, nodes);
    }
  }

  /** A line that begins with a trimmed key is a top-level line. */
  lemma StepTopLevel(s: State, line: string)
    requires IsTrimmed(line) && line != []
    ensures Step(s, line) == TopLevel(s, line)
  {
    StripOfTrimmed(line);
  }

  lemma InlineReadsBack(s: State, f: Field)
    requires LegalField(f) && Shown(f.value) != []
    ensures Step(s, KeyAndValue(f)) == Ok(RawState(s.parsed[f.key := [Scalar(f.value.text)]], Some(f.key), false))
  {
    FieldReadsBack(f);
    StepTopLevel(s, KeyAndValue(f));
  }

  lemma HeaderReadsBack(s: State, key: string)
    requires LegalKey(key)
    ensures Step(s, key + ":") == Ok(RawState(s.parsed[key := []], Some(key), false))
  {
    var f := Field(key, Value([], Bare));
    FieldReadsBack(f);
    assert KeyAndValue(f) == key + ":";
    StepTopLevel(s, key + ":");
  }

  lemma InlineSectionReadsBack(step: Stepper, s: State, f: Field)
    requires IsStep(step) && LegalField(f) && Shown(f.value) != []
    ensures var r := StepAll(step, s, [KeyAndValue(f)]);
            r.Ok? && r.value.parsed == s.parsed[f.key := [Scalar(f.value.text)]]
  {
    InlineReadsBack(s, f);
    StepAllFirst(step, s, KeyAndValue(f), []);
  }

  lemma BlockReadsBack(step: Stepper, s: State, key: string, nodes: seq<Node>)
    requires IsStep(step) && LegalKey(key) && forall n :: n in nodes ==> LegalNode(n)
    ensures var r := StepAll(step, s, [key + ":"] + NodesLines(nodes));
            r.Ok? && r.value.parsed == s.parsed[key := NodesMeaning(nodes)]
  {
    HeaderReadsBack(s, key);
    var next: State := RawState(s.parsed[key := []], Some(key), false);
    StepAllFirst(step, s, key + ":", NodesLines(nodes));
    NodesReadBack(step, next, nodes);
    ListsReplaced(next, [], NodesMeaning(nodes));
    assert [] + NodesMeaning(nodes) == NodesMeaning(nodes);
  }

  lemma SectionReadsBack(step: Stepper, s: State, section: Section)
    requires IsStep(step) && LegalSection(section)
    ensures var r := StepAll(step, s, SectionLines(section));
            r.Ok? && r.value.parsed == s.parsed[section.key := SectionMeaning(section)]
  {
    match section
    case Inline(key, value) => InlineSectionReadsBack(step, s, Field(key, value));
    case Block(key, nodes) => BlockReadsBack(step, s, key, nodes);
  }

  lemma {:induction false} RenderedReadsBack(step: Stepper, s: State, sections: seq<Section>)
    requires IsStep(step)
    requires Legal(sections)
    ensures var r := StepAll(step, s, Rendered(sections));
            r.Ok? && r.value.parsed == Meaning(s.parsed, sections)
    decreases sections
  {
    if sections != [] {
      SectionReadsBack(step, s, sections[0]);
      StepAllConcat(step, s, SectionLines(sections[0]), Rendered(sections[1..]));
      RenderedReadsBack(step, StepAll(step, s, SectionLines(sections[0])).value, sections[1..]);
    }
  }

  // ----- decorations -----

  /** White space, or white space and a comment. */
  predicate IsRemark(s: string) {
    AllSpace(s[..Find(s, '#')]) && IsUnbroken(s)
  }

  /** Lines of remarks before a line, and a remark behind it. */
  datatype Decoration = Decoration(before: seq<string>, behind: string)

  predicate AllRemarks(lines: seq<string>) {
    forall l :: l in lines ==> IsRemark(l)
  }

  predicate IsHarmless(decorations: seq<Decoration>) {
    forall d :: d in decorations ==> AllRemarks(d.before) && IsRemark(d.behind)
  }

  function Decorated(lines: seq<string>, decorations: seq<Decoration>): seq<string>
    requires |decorations| == |lines|
  {
    if lines == [] then []
    else decorations[0].before + [lines[0] + decorations[0].behind] + Decorated(lines[1..], decorations[1..])
  }

  function Joined(lines: seq<string>, eol: string): string {
    if lines == [] then [] else lines[0] + eol + Joined(lines[1..], eol)
  }

  /** A line that says something and carries neither a comment nor trailing space. */
  predicate IsCleanLine(l: string) {
    l != [] && OnOneLine(l) && !IsSpace(l[|l| - 1])
  }

  lemma {:induction false} StripKeepsLast(l: string)
    requires l != [] && !IsSpace(l[|l| - 1])
    ensures Strip(l) != []
  {
    if IsSpace(l[0]) {
      assert l[1..][|l[1..]| - 1] == l[|l| - 1];
      StripKeepsLast(l[1..]);
    }
  }

  lemma CleanOfDecorated(l: string, remark: string)
    requires (IsCleanLine(l) || l == []) && IsRemark(remark)
    ensures Clean(l + remark) == l
  {
    var s, n := l + remark, Find(remark, '#');
    assert Find(s, '#') == |l| + n by {
      assert forall k :: 0 <= k < |l| ==> s[k] == l[k] && l[k] in l;
      assert forall k :: |l| <= k < |l| + n ==> s[k] == remark[k - |l|];
      assert n < |remark| ==> s[|l| + n] == '#';
    }
    assert s[..|l| + n] == l + remark[..n];
    RStripDropsSpace(l, remark[..n]);
  }

  lemma {:induction false} RemarksAreInsignificant(remarks: seq<string>, rest: seq<string>)
    requires AllRemarks(remarks)
    ensures Significant(remarks + rest) == Significant(rest)
  {
    if remarks == [] {
      assert remarks + rest == rest;
    } else {
      CleanOfDecorated([], remarks[0]);
      assert [] + remarks[0] == remarks[0];
      assert (remarks + rest)[1..] == remarks[1..] + rest;
      RemarksAreInsignificant(remarks[1..], rest);
    }
  }

  lemma OneDecoratedLine(l: string, d: Decoration, rest: seq<string>)
    requires IsCleanLine(l) && AllRemarks(d.before) && IsRemark(d.behind)
    ensures Significant(d.before + ([l + d.behind] + rest)) == [l] + Significant(rest)
  {
    RemarksAreInsignificant(d.before, [l + d.behind] + rest);
    CleanOfDecorated(l, d.behind);
    StripKeepsLast(l);
    assert ([l + d.behind] + rest)[1..] == rest;
  }

  lemma DecoratedUnfolds(lines: seq<string>, decorations: seq<Decoration>, trailer: seq<string>)
    requires |decorations| == |lines| > 0
    ensures Decorated(lines, decorations) + trailer ==
            decorations[0].before + ([lines[0] + decorations[0].behind]
                                     + (Decorated(lines[1..], decorations[1..]) + trailer))
  {
  }

  /** Decorations are what the parser does not see. */
  lemma {:induction false} DecorationsAreInsignificant(lines: seq<string>, decorations: seq<Decoration>,
                                                       trailer: seq<string>)
    requires |decorations| == |lines| && IsHarmless(decorations) && AllRemarks(trailer)
    requires forall l :: l in lines ==> IsCleanLine(l)
    ensures Significant(Decorated(lines, decorations) + trailer) == lines
  {
    if lines == [] {
      RemarksAreInsignificant(trailer, []);
      assert trailer + [] == trailer && Decorated(lines, decorations) + trailer == trailer;
    } else {
      assert decorations[0] in decorations && lines[0] in lines;
      DecorationsAreInsignificant(lines[1..], decorations[1..], trailer);
      DecoratedUnfolds(lines, decorations, trailer);
      OneDecoratedLine(lines[0], decorations[0], Decorated(lines[1..], decorations[1..]) + trailer);
    }
  }

  // ----- printed lines are clean -----

  lemma FieldIsOnOneLine(f: Field)
    requires LegalField(f)
    ensures OnOneLine(KeyAndValue(f))
  {
    ShownIsTrimmed(f.value);
    Concatenated(" ", Shown(f.value));
    Concatenated(f.key, ":");
    Concatenated(f.key + ":", Tail(f.value));
  }

  lemma IndentedIsClean(indent: string, s: string)
    requires OnOneLine(indent) && OnOneLine(s) && IsTrimmed(s) && s != []
    ensures IsCleanLine(indent + s)
  {
    Concatenated(indent, s);
    assert (indent + s)[|indent + s| - 1] == s[|s| - 1];
  }

  lemma FieldIsClean(indent: string, f: Field)
    requires OnOneLine(indent) && LegalField(f)
    ensures IsCleanLine(indent + KeyAndValue(f))
  {
    FieldIsTrimmed(f);
    FieldIsOnOneLine(f);
    IndentedIsClean(indent, KeyAndValue(f));
  }

  lemma {:induction false} FieldLinesAreClean(fields: seq<Field>)
    requires forall f :: f in fields ==> LegalField(f)
    ensures forall l :: l in FieldLines(fields) ==> IsCleanLine(l)
  {
    if fields != [] {
      FieldIsClean("    ", fields[0]);
      FieldLinesAreClean(fields[1..]);
    }
  }

  lemma NodeLinesAreClean(n: Node)
    requires LegalNode(n)
    ensures forall l :: l in NodeLines(n) ==> IsCleanLine(l)
  {
    match n
    case ScalarNode(v) =>
      ShownIsTrimmed(v);
      IndentedIsClean("  - ", Shown(v));
    case EntryNode(first, more) =>
      FieldIsClean("  - ", first);
      FieldLinesAreClean(more);
  }

  lemma {:induction false} NodesLinesAreClean(nodes: seq<Node>)
    requires forall n :: n in nodes ==> LegalNode(n)
    ensures forall l :: l in NodesLines(nodes) ==> IsCleanLine(l)
  {
    if nodes != [] {
      NodeLinesAreClean(nodes[0]);
      NodesLinesAreClean(nodes[1..]);
    }
  }

  lemma SectionLinesAreClean(s: Section)
    requires LegalSection(s)
    ensures forall l :: l in SectionLines(s) ==> IsCleanLine(l)
  {
    match s
    case Inline(key, value) =>
      FieldIsClean("", Field(key, value));
      assert "" + KeyAndValue(Field(key, value)) == KeyAndValue(Field(key, value));
    case Block(key, nodes) =>
      var f := Field(key, Value([], Bare));
      FieldIsClean("", f);
      assert "" + KeyAndValue(f) == key + ":";
      NodesLinesAreClean(nodes);
  }

  lemma {:induction false} RenderedIsClean(sections: seq<Section>)
    requires Legal(sections)
    ensures forall l :: l in Rendered(sections) ==> IsCleanLine(l)
  {
    if sections != [] {
      SectionLinesAreClean(sections[0]);
      RenderedIsClean(sections[1..]);
    }
  }

  // ----- lines and text -----

  lemma FirstBreakIs(s: string, n: nat)
    requires n < |s| && IsBreak(s[n]) && forall k :: 0 <= k < n ==> !IsBreak(s[k])
    ensures FirstBreak(s) == n
  {
  }

  lemma FirstLineSplitsOff(l: string, eol: string, rest: string)
    requires eol in {"\n", "\r\n"} && IsUnbroken(l)
    ensures SplitLines(l + eol + rest) == [l] + SplitLines(rest)
  {
    var s := l + eol + rest;
    forall k | 0 <= k < |l| ensures !IsBreak(s[k]) {
      assert s[k] == l[k] && l[k] in l;
    }
    assert s[|l|] == eol[0] && (|eol| == 2 ==> s[|l| + 1] == '\n');
    FirstBreakIs(s, |l|);
    assert s[..|l|] == l && s[|l| + |eol|..] == rest;
  }

  /** Splitting undoes joining, with either line end. */
  lemma {:induction false} SplitInvertsJoin(lines: seq<string>, eol: string)
    requires eol in {"\n", "\r\n"}
    requires forall l :: l in lines ==> IsUnbroken(l)
    ensures SplitLines(Joined(lines, eol)) == lines
  {
    if lines != [] {
      var l, rest := lines[0], Joined(lines[1..], eol);
      FirstLineSplitsOff(l, eol, rest);
      SplitInvertsJoin(lines[1..], eol);
    }
  }

  lemma {:induction false} DecoratedHasNoBreaks(lines: seq<string>, decorations: seq<Decoration>)
    requires |decorations| == |lines| && IsHarmless(decorations)
    requires forall l :: l in lines ==> IsCleanLine(l)
    ensures forall l :: l in Decorated(lines, decorations) ==> IsUnbroken(l)
  {
    if lines != [] {
      var d := decorations[0];
      assert d in decorations;
      DecoratedHasNoBreaks(lines[1..], decorations[1..]);
      assert lines[0] in lines && IsCleanLine(lines[0]);
      Concatenated(lines[0], d.behind);
    }
  }

  // ----- the round trip -----

  /** The parser inverts the printer, whatever comments, blank lines and trailing space are put in. */
  lemma ParseInvertsRender(sections: seq<Section>, decorations: seq<Decoration>, trailer: seq<string>, eol: string)
    requires Legal(sections) && |decorations| == |Rendered(sections)|
    requires IsHarmless(decorations) && AllRemarks(trailer) && eol in {"\n", "\r\n"}
    ensures Parsed(Joined(Decorated(Rendered(sections), decorations) + trailer, eol)) == Ok(Meaning(map[], sections))
  {
    var lines := Rendered(sections);
    RenderedIsClean(sections);
    DecorationsAreInsignificant(lines, decorations, trailer);
    DecoratedHasNoBreaks(lines, decorations);
    SplitInvertsJoin(Decorated(lines, decorations) + trailer, eol);
    RenderedReadsBack(Steps(), START, sections);
  }

  predicate DistinctKeys(sections: seq<Section>) {
    forall i, j :: 0 <= i < j < |sections| ==> sections[i].key != sections[j].key
  }

  /** With distinct keys, the document holds exactly what each section says. */
  lemma {:induction false} MeaningOfDistinctSections(start: PolicyDocument, sections: seq<Section>)
    requires DistinctKeys(sections)
    ensures var d := Meaning(start, sections);
            && (forall s :: s in sections ==> s.key in d && d[s.key] == SectionMeaning(s))
            && (forall k :: k in d <==> k in start || exists s :: s in sections && s.key == k)
            && (forall k :: k in start && (forall s :: s in sections ==> s.key != k) ==> d[k] == start[k])
    decreases sections
  {
    if sections != [] {
      var next := start[sections[0].key := SectionMeaning(sections[0])];
      assert DistinctKeys(sections[1..]);
      MeaningOfDistinctSections(next, sections[1..]);
      assert forall s :: s in sections <==> s == sections[0] || s in sections[1..];
      assert forall s :: s in sections[1..] ==> s.key != sections[0].key;
    }
  }

  // ----- the error that is never reported -----

  lemma {:induction false} RStripEndsInText(s: string)
    ensures RStrip(s) == [] || !IsSpace(RStrip(s)[|RStrip(s)| - 1])
  {
    if s != [] && IsSpace(s[|s| - 1]) {
      RStripEndsInText(s[..|s| - 1]);
    }
  }

  lemma ItemIsNeverEmpty(s: State, line: string)
    ensures Step(s, line) != Err(EmptyListItem)
  {
    var stripped := Strip(line);
    RStripEndsInText(LStrip(line));
    if "- " <= stripped {
      assert stripped[1] == ' ';
      assert |stripped| > 2;
      assert stripped[2..][|stripped| - 3] == stripped[|stripped| - 1];
      StripKeepsLast(stripped[2..]);
    }
  }

  lemma {:induction false} ItemsAreNeverEmpty(step: Stepper, s: State, lines: seq<string>)
    requires IsStep(step)
    ensures StepAll(step, s, lines) != Err(EmptyListItem)
    decreases lines
  {
    if lines != [] {
      ItemIsNeverEmpty(s, lines[0]);
      var next := step(s, lines[0]);
      if next.Ok? { ItemsAreNeverEmpty(step, next.value, lines[1..]); }
    }
  }

  /** No text at all is refused for an empty list item. */
  lemma EmptyListItemIsNeverReported(content: string)
    ensures Parsed(content) != Err(EmptyListItem)
  {
    ItemsAreNeverEmpty(Steps(), START, Significant(SplitLines(content)));
  }
}
