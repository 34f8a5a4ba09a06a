/** The grammar of the policy documents that src/repo_health_doctor/doctor.py accepts: which lines may follow which, what
    they mean, and that nothing in an accepted document is ignored. */
module PolicyGrammar {
  import opened Wrappers
  import opened Text
  import opened PolicyYaml

  // ----- kinds of lines -----

  predicate IsTop(line: string) {
    !(" " <= line)
  }

  /** An indented line that starts a list item. */
  predicate IsDash(line: string) {
    " " <= line && "- " <= Strip(line)
  }

  /** An indented line that does not. */
  predicate IsIndented(line: string) {
    " " <= line && !("- " <= Strip(line))
  }

  /** What is behind the dash. */
  function Body(line: string): string
    requires IsDash(line)
  {
    Strip(Strip(line)[2..])
  }

  /** A list item that is an entry, to which fields can be added. */
  predicate StartsEntry(line: string) {
    IsDash(line) && ':' in Body(line)
  }

  // ----- which lines may follow which -----

  predicate UnderKey(before: seq<string>) {
    exists k :: 0 <= k < |before| && IsTop(before[k])
  }

  /** The last of the lines that are no fields starts an entry. */
  predicate InEntry(before: seq<string>) {
    exists k :: 0 <= k < |before| && StartsEntry(before[k]) && OnlyFieldsFrom(before, k + 1)
  }

  predicate OnlyFieldsFrom(lines: seq<string>, n: nat) {
    forall m :: n <= m < |lines| ==> IsIndented(lines[m])
  }

  /** A top-level line has a colon; below one, there may be list items, and any other line has a colon and follows an
      entry. */
  predicate Fits(before: seq<string>, line: string) {
    if IsTop(line) then ':' in Strip(line)
    else
      && UnderKey(before)
      && (IsIndented(line) ==> ':' in Strip(line) && InEntry(before))
  }

  predicate AllFit(lines: seq<string>) {
    forall i :: 0 <= i < |lines| ==> Fits(lines[..i], lines[i])
  }

  lemma UnderKeyAfter(before: seq<string>, line: string)
    ensures UnderKey(before + [line]) <==> UnderKey(before) || IsTop(line)
  {
    var after := before + [line];
    if IsTop(line) { assert IsTop(after[|before|]); }
    if UnderKey(before) {
      var k :| 0 <= k < |before| && IsTop(before[k]);
      assert IsTop(after[k]);
    }
  }

  lemma InEntryAfter(before: seq<string>, line: string)
    ensures InEntry(before + [line]) <==> StartsEntry(line) || (IsIndented(line) && InEntry(before))
  {
    var after := before + [line];
    if StartsEntry(line) {
      assert StartsEntry(after[|before|]) && OnlyFieldsFrom(after, |before| + 1);
    } else if InEntry(after) {
      var k :| 0 <= k < |after| && StartsEntry(after[k]) && OnlyFieldsFrom(after, k + 1);
      assert after[|before|] == line;
      assert StartsEntry(before[k]);
      forall m | k + 1 <= m < |before| ensures IsIndented(before[m]) { assert IsIndented(after[m]); }
      assert OnlyFieldsFrom(before, k + 1);
    }
    if IsIndented(line) && InEntry(before) {
      var k :| 0 <= k < |before| && StartsEntry(before[k]) && OnlyFieldsFrom(before, k + 1);
      assert StartsEntry(after[k]) && OnlyFieldsFrom(after, k + 1);
    }
  }

  lemma BodyIsNotEmpty(line: string)
    requires IsDash(line)
    ensures Body(line) != []
  {
    ItemIsNeverEmpty(RawState(map["" := []], Some(""), false), line);
  }

  /** What the parser knows of the lines before. */
  predicate Knows(s: State, before: seq<string>) {
    (s.key.Some? <==> UnderKey(before)) && (s.inItem <==> InEntry(before))
  }

  lemma StepKnows(s: State, before: seq<string>, line: string)
    requires Knows(s, before)
    ensures Step(s, line).Ok? <==> Fits(before, line)
    ensures Step(s, line).Ok? ==> Knows(Step(s, line).value, before + [line])
  {
    UnderKeyAfter(before, line);
    InEntryAfter(before, line);
    if IsDash(line) { BodyIsNotEmpty(line); }
  }

  lemma StepAllLast(step: Stepper, lines: seq<string>)
    requires lines != []
    ensures StepAll(step, START, lines) ==
            var front := StepAll(step, START, lines[..|lines| - 1]);
            if front.Ok? then step(front.value, lines[|lines| - 1]) else front
  {
    var front, last := lines[..|lines| - 1], lines[|lines| - 1];
    assert lines == front + [last];
    StepAllConcat(step, START, front, [last]);
    if StepAll(step, START, front).Ok? {
      var mid := StepAll(step, START, front).value;
      StepAllFirst(step, mid, last, []);
      assert [last] + [] == [last];
    }
  }

  lemma {:induction false} LinesAreAcceptedExactlyWhen(step: Stepper, lines: seq<string>)
    requires IsStep(step)
    ensures StepAll(step, START, lines).Ok? <==> AllFit(lines)
    ensures StepAll(step, START, lines).Ok? ==> Knows(StepAll(step, START, lines).value, lines)
  {
    if lines != [] {
      var n := |lines| - 1;
      LinesAreAcceptedExactlyWhen(step, lines[..n]);
      StepAllLast(step, lines);
      forall i | 0 <= i < n ensures lines[..n][..i] == lines[..i] && lines[..n][i] == lines[i] {
      }
      var front := StepAll(step, START, lines[..n]);
      if front.Ok? {
        StepKnows(front.value, lines[..n], lines[n]);
        assert step(front.value, lines[n]) == Step(front.value, lines[n]);
        assert lines[..n] + [lines[n]] == lines;
      }
      AllFitFront(lines);
    }
  }

  lemma AllFitFront(lines: seq<string>)
    requires lines != []
    ensures AllFit(lines) <==> AllFit(lines[..|lines| - 1]) && Fits(lines[..|lines| - 1], lines[|lines| - 1])
  {
    var front := lines[..|lines| - 1];
    forall i | 0 <= i < |front| ensures front[..i] == lines[..i] && front[i] == lines[i] {
    }
    if AllFit(front) && Fits(front, lines[|front|]) {
      forall i | 0 <= i < |lines| ensures Fits(lines[..i], lines[i]) {
        if i < |front| { assert Fits(front[..i], front[i]); }
      }
    }
    if AllFit(lines) {
      forall i | 0 <= i < |front| ensures Fits(front[..i], front[i]) { assert Fits(lines[..i], lines[i]); }
    }
  }

  /** A text is accepted exactly if each of its significant lines fits the lines before it. */
  lemma AcceptedExactlyWhen(content: string)
    ensures Parsed(content).Ok? <==> AllFit(Significant(SplitLines(content)))
  {
    LinesAreAcceptedExactlyWhen(Steps(), Significant(SplitLines(content)));
  }

  // ----- which lines are significant -----

  /** Something other than space stands before any number sign. */
  predicate HasText(line: string) {
    exists k :: 0 <= k < |line| && !IsSpace(line[k]) && IsPlainUpTo(line, k)
  }

  predicate IsPlainUpTo(line: string, k: int)
    requires k < |line|
  {
    forall j :: 0 <= j <= k ==> line[j] != '#'
  }

  lemma {:induction false} RStripCuts(s: string) returns (space: string)
    ensures s == RStrip(s) + space && AllSpace(space)
    ensures RStrip(s) != [] ==> !IsSpace(RStrip(s)[|RStrip(s)| - 1])
  {
    RStripEndsInText(s);
    if s != [] && IsSpace(s[|s| - 1]) {
      space := RStripCuts(s[..|s| - 1]);
      space := space + [s[|s| - 1]];
    } else {
      space := [];
    }
  }

  /** What is cut from a line is space, and a remark. */
  lemma CleanCuts(line: string) returns (space: string, remark: string)
    ensures line == Clean(line) + space + remark && AllSpace(space) && (remark == [] || remark[0] == '#')
    ensures '#' !in Clean(line) && (Clean(line) != [] ==> !IsSpace(Clean(line)[|Clean(line)| - 1]))
  {
    var n := Find(line, '#');
    space := RStripCuts(line[..n]);
    remark := line[n..];
    assert forall c :: c in Clean(line) ==> c in line[..n];
  }

  lemma BlankExactlyWhen(line: string)
    ensures Strip(Clean(line)) == [] <==> !HasText(line)
  {
    var space, remark := CleanCuts(line);
    var clean := Clean(line);
    if clean != [] {
      var k := |clean| - 1;
      assert line[k] == clean[k];
      forall j | 0 <= j <= k ensures line[j] != '#' { assert line[j] == clean[j] && clean[j] in clean; }
      assert IsPlainUpTo(line, k);
      StripKeepsLast(clean);
    } else {
      assert remark != [] ==> line[|space|] == '#';
      forall k | 0 <= k < |space| ensures IsSpace(line[k]) {
        assert line[k] == space[k] && space[k] in space;
      }
    }
  }

  lemma {:induction false} SignificantOfBoth(a: seq<string>, b: seq<string>)
    ensures Significant(a + b) == Significant(a) + Significant(b)
  {
    if a == [] {
      assert a + b == b;
    } else {
      assert (a + b)[0] == a[0] && (a + b)[1..] == a[1..] + b;
      SignificantOfBoth(a[1..], b);
    }
  }

  /** The significant lines are, in order, those that have text, without their remarks and trailing space; no line with
      text is left out. */
  lemma LineIsSignificantExactlyWhen(before: seq<string>, line: string, after: seq<string>)
    ensures Significant(before + [line] + after) ==
            Significant(before) + (if HasText(line) then [Clean(line)] else []) + Significant(after)
  {
    SignificantOfBoth(before + [line], after);
    SignificantOfBoth(before, [line]);
    OneLineIsSignificant(line);
  }

  lemma OneLineIsSignificant(line: string)
    ensures Significant([line]) == if HasText(line) then [Clean(line)] else []
  {
    BlankExactlyWhen(line);
    assert [line][1..] == [];
  }

  // ----- the grammar -----

  /** A list item with the fields below it, and a top-level line with its list. */
  datatype ItemText = ItemText(dash: string, fields: seq<string>)

  datatype SectionText = SectionText(top: string, items: seq<ItemText>)

  predicate GoodItem(t: ItemText) {
    IsDash(t.dash) && (t.fields != [] ==> StartsEntry(t.dash)) && GoodFields(t.fields)
  }

  predicate GoodFields(fields: seq<string>) {
    fields == []
    || (GoodFields(fields[..|fields| - 1])
        && IsIndented(fields[|fields| - 1]) && ':' in Strip(fields[|fields| - 1]))
  }

  predicate GoodItems(items: seq<ItemText>) {
    items == [] || (GoodItems(items[..|items| - 1]) && GoodItem(items[|items| - 1]))
  }

  predicate GoodSection(t: SectionText) {
    IsTop(t.top) && ':' in Strip(t.top) && GoodItems(t.items)
  }

  predicate Grammatical(sections: seq<SectionText>) {
    sections == [] || (Grammatical(sections[..|sections| - 1]) && GoodSection(sections[|sections| - 1]))
  }

  function ItemLines(t: ItemText): seq<string> {
    [t.dash] + t.fields
  }

  function ItemsLines(items: seq<ItemText>): seq<string> {
    if items == [] then [] else ItemsLines(items[..|items| - 1]) + ItemLines(items[|items| - 1])
  }

  function LinesOf(sections: seq<SectionText>): seq<string> {
    if sections == [] then []
    else
      var last := sections[|sections| - 1];
      LinesOf(sections[..|sections| - 1]) + [last.top] + ItemsLines(last.items)
  }

  // ----- its meaning -----

  function KeyOf(top: string): string
    requires ':' in Strip(top)
  {
    Partition(Strip(top)).0
  }

  /** The value behind a top-level key, if there is one. */
  function InlineOf(top: string): seq<Item>
    requires ':' in Strip(top)
  {
    var value := Partition(Strip(top)).1;
    if Strip(value) == [] then [] else [Scalar(ParseScalar(value))]
  }

  function FieldsOf(dash: string, fields: seq<string>): map<string, string>
    requires StartsEntry(dash) && GoodFields(fields)
  {
    if fields == [] then map[Partition(Body(dash)).0 := ParseScalar(Partition(Body(dash)).1)]
    else
      var (field, value) := Partition(Strip(fields[|fields| - 1]));
      FieldsOf(dash, fields[..|fields| - 1])[field := ParseScalar(value)]
  }

  function ItemOf(t: ItemText): Item
    requires GoodItem(t)
  {
    if StartsEntry(t.dash) then Entry(FieldsOf(t.dash, t.fields)) else Scalar(ParseScalar(Body(t.dash)))
  }

  function ItemsOf(items: seq<ItemText>): (r: seq<Item>)
    requires GoodItems(items)
    ensures |r| == |items|
  {
    if items == [] then [] else ItemsOf(items[..|items| - 1]) + [ItemOf(items[|items| - 1])]
  }

  /** A key given twice means what it is given last. */
  function DocumentOf(sections: seq<SectionText>): PolicyDocument
    requires Grammatical(sections)
  {
    if sections == [] then map[]
    else
      var last := sections[|sections| - 1];
      DocumentOf(sections[..|sections| - 1])[KeyOf(last.top) := InlineOf(last.top) + ItemsOf(last.items)]
  }

  predicate EndsInEntry(sections: seq<SectionText>) {
    && sections != []
    && var items := sections[|sections| - 1].items;
       items != [] && StartsEntry(items[|items| - 1].dash)
  }

  function StateOf(sections: seq<SectionText>): State
    requires Grammatical(sections)
  {
    if sections == [] then START
    else
      var last := sections[|sections| - 1];
      RawState(DocumentOf(sections), Some(KeyOf(last.top)), EndsInEntry(sections))
  }

  // ----- growing by one line -----

  function WithTop(sections: seq<SectionText>, line: string): seq<SectionText> {
    sections + [SectionText(line, [])]
  }

  function WithDash(sections: seq<SectionText>, line: string): seq<SectionText>
    requires sections != []
  {
    var last := sections[|sections| - 1];
    sections[..|sections| - 1] + [SectionText(last.top, last.items + [ItemText(line, [])])]
  }

  function WithFieldLine(sections: seq<SectionText>, line: string): seq<SectionText>
    requires EndsInEntry(sections)
  {
    var last := sections[|sections| - 1];
    var items, item := last.items[..|last.items| - 1], last.items[|last.items| - 1];
    sections[..|sections| - 1] + [SectionText(last.top, items + [ItemText(item.dash, item.fields + [line])])]
  }

  lemma OneMoreSection(front: seq<SectionText>, t: SectionText)
    ensures LinesOf(front + [t]) == LinesOf(front) + [t.top] + ItemsLines(t.items)
    ensures Grammatical(front + [t]) <==> Grammatical(front) && GoodSection(t)
    ensures Grammatical(front) && GoodSection(t) ==>
              DocumentOf(front + [t]) == DocumentOf(front)[KeyOf(t.top) := InlineOf(t.top) + ItemsOf(t.items)]
  {
    assert (front + [t])[..|front|] == front;
  }

  lemma OneMoreItem(items: seq<ItemText>, t: ItemText)
    ensures ItemsLines(items + [t]) == ItemsLines(items) + ItemLines(t)
    ensures GoodItems(items + [t]) <==> GoodItems(items) && GoodItem(t)
    ensures GoodItems(items) && GoodItem(t) ==> ItemsOf(items + [t]) == ItemsOf(items) + [ItemOf(t)]
  {
    assert (items + [t])[..|items|] == items;
  }

  /** The last section with other items: its lines, and what it means. */
  lemma OtherItems(front: seq<SectionText>, top: string, items: seq<ItemText>, items': seq<ItemText>, line: string)
    requires ItemsLines(items') == ItemsLines(items) + [line]
    ensures LinesOf(front + [SectionText(top, items')]) == LinesOf(front + [SectionText(top, items)]) + [line]
  {
    OneMoreSection(front, SectionText(top, items));
    OneMoreSection(front, SectionText(top, items'));
  }

  lemma UpdatedTwice<K, V>(m: map<K, V>, k: K, a: V, b: V)
    ensures m[k := a][k := b] == m[k := b] && m[k := a][k] == a
  {
  }

  lemma LastReplaced(first: seq<Item>, before: seq<Item>, a: Item, b: Item)
    ensures var items := first + (before + [a]);
            && items != [] && items[|items| - 1] == a && items[|items| - 1 := b] == first + (before + [b])
  {
  }

  /** The state in the last section, given what the sections before it mean. */
  function StateAfter(document: PolicyDocument, top: string, items: seq<ItemText>): (s: State)
    requires GoodSection(SectionText(top, items))
    ensures s.key == Some(KeyOf(top)) && s.parsed[s.key.value] == InlineOf(top) + ItemsOf(items)
    ensures s.inItem <==> items != [] && StartsEntry(items[|items| - 1].dash)
  {
    RawState(document[KeyOf(top) := InlineOf(top) + ItemsOf(items)], Some(KeyOf(top)),
             items != [] && StartsEntry(items[|items| - 1].dash))
  }

  lemma StateIs(front: seq<SectionText>, top: string, items: seq<ItemText>)
    requires Grammatical(front) && GoodSection(SectionText(top, items))
    ensures var sections := front + [SectionText(top, items)];
            Grammatical(sections) && StateOf(sections) == StateAfter(DocumentOf(front), top, items)
  {
    OneMoreSection(front, SectionText(top, items));
  }

  lemma ParsedIs(sections: seq<SectionText>)
    requires Grammatical(sections)
    ensures StateOf(sections).parsed == DocumentOf(sections)
  {
  }

  lemma TopStep(s: State, line: string)
    requires IsTop(line) && ':' in Strip(line)
    ensures Step(s, line) == Ok(StateAfter(s.parsed, line, []))
  {
    assert InlineOf(line) + [] == InlineOf(line);
  }

  lemma TopGrows(sections: seq<SectionText>, line: string)
    requires Grammatical(sections) && IsTop(line) && ':' in Strip(line)
    ensures var next := WithTop(sections, line);
            && Grammatical(next) && LinesOf(next) == LinesOf(sections) + [line]
            && Step(StateOf(sections), line) == Ok(StateOf(next))
  {
    OneMoreSection(sections, SectionText(line, []));
    StateIs(sections, line, []);
    ParsedIs(sections);
    TopStep(StateOf(sections), line);
    assert LinesOf(sections) + [line] + [] == LinesOf(sections) + [line];
  }

  lemma DashStep(s: State, line: string)
    requires s.key.Some? && IsDash(line)
    ensures Step(s, line) == Ok(WithItem(s, ItemOf(ItemText(line, []))))
  {
    BodyIsNotEmpty(line);
  }

  lemma DashMeans(document: PolicyDocument, top: string, items: seq<ItemText>, t: ItemText)
    requires GoodSection(SectionText(top, items)) && GoodItem(t) && t.fields == []
    requires GoodSection(SectionText(top, items + [t]))
    ensures WithItem(StateAfter(document, top, items), ItemOf(t)) == StateAfter(document, top, items + [t])
  {
    OneMoreItem(items, t);
    UpdatedTwice(document, KeyOf(top), InlineOf(top) + ItemsOf(items), InlineOf(top) + ItemsOf(items + [t]));
    assert InlineOf(top) + (ItemsOf(items) + [ItemOf(t)]) == InlineOf(top) + ItemsOf(items) + [ItemOf(t)];
  }

  lemma DashGrowsAt(front: seq<SectionText>, top: string, items: seq<ItemText>, line: string)
    requires Grammatical(front) && GoodSection(SectionText(top, items)) && IsDash(line)
    ensures var sections := front + [SectionText(top, items)];
            var next := front + [SectionText(top, items + [ItemText(line, [])])];
            && Grammatical(sections) && Grammatical(next) && LinesOf(next) == LinesOf(sections) + [line]
            && Step(StateOf(sections), line) == Ok(StateOf(next))
  {
    var t := ItemText(line, []);
    OneMoreItem(items, t);
    OtherItems(front, top, items, items + [t], line);
    StateIs(front, top, items);
    StateIs(front, top, items + [t]);
    DashSteps(DocumentOf(front), top, items, line);
  }

  lemma DashSteps(document: PolicyDocument, top: string, items: seq<ItemText>, line: string)
    requires GoodSection(SectionText(top, items)) && IsDash(line)
    requires GoodSection(SectionText(top, items + [ItemText(line, [])]))
    ensures Step(StateAfter(document, top, items), line) ==
            Ok(StateAfter(document, top, items + [ItemText(line, [])]))
  {
    DashStep(StateAfter(document, top, items), line);
    DashMeans(document, top, items, ItemText(line, []));
  }

  lemma DashGrows(sections: seq<SectionText>, line: string)
    requires Grammatical(sections) && sections != [] && IsDash(line)
    ensures var next := WithDash(sections, line);
            && Grammatical(next) && LinesOf(next) == LinesOf(sections) + [line]
            && Step(StateOf(sections), line) == Ok(StateOf(next))
  {
    var front, last := sections[..|sections| - 1], sections[|sections| - 1];
    assert sections == front + [last] && GoodSection(last);
    DashGrowsAt(front, last.top, last.items, line);
  }

  lemma FieldStep(s: State, line: string)
    requires s.inItem && IsIndented(line) && ':' in Strip(line)
    ensures var (field, value) := Partition(Strip(line));
            Step(s, line) == Ok(WithField(s, field, ParseScalar(value)))
  {
  }

  lemma GrownItem(t: ItemText, line: string)
    requires GoodItem(t) && StartsEntry(t.dash) && IsIndented(line) && ':' in Strip(line)
    ensures var grown := ItemText(t.dash, t.fields + [line]);
            var (field, value) := Partition(Strip(line));
            && GoodItem(grown) && ItemLines(grown) == ItemLines(t) + [line]
            && ItemOf(t).Entry? && ItemOf(grown) == Entry(ItemOf(t).fields[field := ParseScalar(value)])
  {
    assert (t.fields + [line])[..|t.fields|] == t.fields;
  }

  /** What replacing the last item of the last section does to the state. */
  lemma LastItemReplaced(s: State, field: string, value: string, first: seq<Item>, before: seq<Item>, a: Item, b: Item)
    requires s.inItem && s.parsed[s.key.value] == first + (before + [a])
    requires a.Entry? && b == Entry(a.fields[field := value])
    ensures WithField(s, field, value) == RawState(s.parsed[s.key.value := first + (before + [b])], s.key, true)
  {
    LastReplaced(first, before, a, b);
  }

  lemma FieldMeans(document: PolicyDocument, top: string, before: seq<ItemText>, t: ItemText, grown: ItemText,
                   field: string, value: string)
    requires GoodItem(t) && GoodItem(grown) && StartsEntry(t.dash) && grown.dash == t.dash
    requires GoodSection(SectionText(top, before + [t])) && GoodSection(SectionText(top, before + [grown]))
    requires ItemOf(t).Entry? && ItemOf(grown) == Entry(ItemOf(t).fields[field := value])
    ensures WithField(StateAfter(document, top, before + [t]), field, value)
            == StateAfter(document, top, before + [grown])
  {
    OneMoreItem(before, t);
    OneMoreItem(before, grown);
    var s := StateAfter(document, top, before + [t]);
    LastItemReplaced(s, field, value, InlineOf(top), ItemsOf(before), ItemOf(t), ItemOf(grown));
    UpdatedTwice(document, KeyOf(top), InlineOf(top) + ItemsOf(before + [t]), InlineOf(top) + ItemsOf(before + [grown]));
  }

  lemma FieldGrowsAt(front: seq<SectionText>, top: string, before: seq<ItemText>, t: ItemText, line: string)
    requires Grammatical(front) && GoodSection(SectionText(top, before + [t])) && StartsEntry(t.dash)
    requires IsIndented(line) && ':' in Strip(line)
    ensures var sections := front + [SectionText(top, before + [t])];
            var next := front + [SectionText(top, before + [ItemText(t.dash, t.fields + [line])])];
            && Grammatical(sections) && Grammatical(next) && LinesOf(next) == LinesOf(sections) + [line]
            && Step(StateOf(sections), line) == Ok(StateOf(next))
  {
    var grown := ItemText(t.dash, t.fields + [line]);
    GrownItem(t, line);
    OneMoreItem(before, t);
    OneMoreItem(before, grown);
    OtherItems(front, top, before + [t], before + [grown], line);
    StateIs(front, top, before + [t]);
    StateIs(front, top, before + [grown]);
    FieldSteps(DocumentOf(front), top, before, t, grown, line);
  }

  lemma FieldSteps(document: PolicyDocument, top: string, before: seq<ItemText>, t: ItemText, grown: ItemText,
                   line: string)
    requires IsIndented(line) && ':' in Strip(line) && StartsEntry(t.dash)
    requires GoodItem(t) && GoodItem(grown) && grown.dash == t.dash && ItemOf(t).Entry?
    requires GoodSection(SectionText(top, before + [t])) && GoodSection(SectionText(top, before + [grown]))
    requires var (field, value) := Partition(Strip(line));
             ItemOf(grown) == Entry(ItemOf(t).fields[field := ParseScalar(value)])
    ensures Step(StateAfter(document, top, before + [t]), line) ==
            Ok(StateAfter(document, top, before + [grown]))
  {
    var (field, value) := Partition(Strip(line));
    FieldStep(StateAfter(document, top, before + [t]), line);
    FieldMeans(document, top, before, t, grown, field, ParseScalar(value));
  }

  lemma FieldGrows(sections: seq<SectionText>, line: string)
    requires Grammatical(sections) && EndsInEntry(sections) && IsIndented(line) && ':' in Strip(line)
    ensures var next := WithFieldLine(sections, line);
            && Grammatical(next) && LinesOf(next) == LinesOf(sections) + [line]
            && Step(StateOf(sections), line) == Ok(StateOf(next))
  {
    var front, last := sections[..|sections| - 1], sections[|sections| - 1];
    var before, t := last.items[..|last.items| - 1], last.items[|last.items| - 1];
    assert sections == front + [last] && last.items == before + [t] && GoodSection(last);
    FieldGrowsAt(front, last.top, before, t, line);
  }

  // ----- what is accepted is grammatical, and the other way round -----

  /** Sections without their last line. */
  function Shrunk(sections: seq<SectionText>): seq<SectionText>
    requires sections != []
  {
    ShrunkLast(sections[..|sections| - 1], sections[|sections| - 1]).0
  }

  function ShrunkLast(front: seq<SectionText>, last: SectionText): (seq<SectionText>, string) {
    if last.items == [] then (front, last.top)
    else ShrunkItem(front, last.top, last.items[..|last.items| - 1], last.items[|last.items| - 1])
  }

  function ShrunkItem(front: seq<SectionText>, top: string, before: seq<ItemText>, t: ItemText)
    : (seq<SectionText>, string)
  {
    if t.fields == [] then (front + [SectionText(top, before)], t.dash)
    else
      var n := |t.fields| - 1;
      (front + [SectionText(top, before + [ItemText(t.dash, t.fields[..n])])], t.fields[n])
  }

  /** The line that is dropped. */
  function LastLine(sections: seq<SectionText>): string
    requires sections != []
  {
    ShrunkLast(sections[..|sections| - 1], sections[|sections| - 1]).1
  }

  /** The only sections that these may become with one more line. */
  predicate GrowsTo(sections: seq<SectionText>, line: string, next: seq<SectionText>) {
    if IsTop(line) then ':' in Strip(line) && next == WithTop(sections, line)
    else if IsDash(line) then sections != [] && next == WithDash(sections, line)
    else ':' in Strip(line) && EndsInEntry(sections) && next == WithFieldLine(sections, line)
  }

  lemma GrowingReadsOn(sections: seq<SectionText>, line: string, next: seq<SectionText>)
    requires Grammatical(sections) && GrowsTo(sections, line, next)
    ensures Grammatical(next) && LinesOf(next) == LinesOf(sections) + [line]
    ensures Step(StateOf(sections), line) == Ok(StateOf(next))
  {
    if IsTop(line) { TopGrows(sections, line); }
    else if IsDash(line) { DashGrows(sections, line); }
    else { FieldGrows(sections, line); }
  }

  lemma ShrinkTop(front: seq<SectionText>, top: string)
    requires Grammatical(front + [SectionText(top, [])])
    ensures Grammatical(front) && GrowsTo(front, top, front + [SectionText(top, [])])
  {
    OneMoreSection(front, SectionText(top, []));
  }

  lemma ShrinkDash(front: seq<SectionText>, top: string, before: seq<ItemText>, dash: string)
    requires Grammatical(front + [SectionText(top, before + [ItemText(dash, [])])])
    ensures var shrunk := front + [SectionText(top, before)];
            && Grammatical(shrunk)
            && GrowsTo(shrunk, dash, front + [SectionText(top, before + [ItemText(dash, [])])])
  {
    var t := ItemText(dash, []);
    OneMoreItem(before, t);
    OneMoreSection(front, SectionText(top, before + [t]));
    OneMoreSection(front, SectionText(top, before));
  }

  lemma ShrinkField(front: seq<SectionText>, top: string, before: seq<ItemText>, dash: string, fields: seq<string>,
                    line: string)
    requires Grammatical(front + [SectionText(top, before + [ItemText(dash, fields + [line])])])
    ensures var shrunk := front + [SectionText(top, before + [ItemText(dash, fields)])];
            && Grammatical(shrunk)
            && GrowsTo(shrunk, line, front + [SectionText(top, before + [ItemText(dash, fields + [line])])])
  {
    var t, t' := ItemText(dash, fields), ItemText(dash, fields + [line]);
    OneMoreSection(front, SectionText(top, before + [t']));
    OneMoreItem(before, t');
    OneMoreItem(before, t);
    assert (fields + [line])[..|fields|] == fields;
    OneMoreSection(front, SectionText(top, before + [t]));
    FieldGrowsTo(front, top, before, t, line);
  }

  lemma FieldGrowsTo(front: seq<SectionText>, top: string, before: seq<ItemText>, t: ItemText, line: string)
    requires StartsEntry(t.dash)
    ensures var sections := front + [SectionText(top, before + [t])];
            EndsInEntry(sections)
            && WithFieldLine(sections, line)
               == front + [SectionText(top, before + [ItemText(t.dash, t.fields + [line])])]
  {
    var sections := front + [SectionText(top, before + [t])];
    assert (before + [t])[..|before|] == before;
    assert sections[..|front|] == front;
  }

  lemma ShrinkingIsUndone(sections: seq<SectionText>)
    requires sections != [] && Grammatical(sections)
    ensures Grammatical(Shrunk(sections)) && GrowsTo(Shrunk(sections), LastLine(sections), sections)
  {
    assert sections == sections[..|sections| - 1] + [sections[|sections| - 1]];
    ShrinkingLast(sections[..|sections| - 1], sections[|sections| - 1]);
  }

  /** What becomes of the last item, and of the last section. */
  lemma ShrinkingItem(front: seq<SectionText>, top: string, before: seq<ItemText>, t: ItemText)
    requires Grammatical(front + [SectionText(top, before + [t])])
    ensures var (shrunk, line) := ShrunkItem(front, top, before, t);
            Grammatical(shrunk) && GrowsTo(shrunk, line, front + [SectionText(top, before + [t])])
  {
    if t.fields == [] {
      assert t == ItemText(t.dash, []);
      ShrinkDash(front, top, before, t.dash);
    } else {
      var fields, line := t.fields[..|t.fields| - 1], t.fields[|t.fields| - 1];
      assert t == ItemText(t.dash, fields + [line]);
      ShrinkField(front, top, before, t.dash, fields, line);
    }
  }

  lemma ShrinkingLast(front: seq<SectionText>, last: SectionText)
    requires Grammatical(front + [last])
    ensures var (shrunk, line) := ShrunkLast(front, last);
            Grammatical(shrunk) && GrowsTo(shrunk, line, front + [last])
  {
    if last.items == [] {
      assert last == SectionText(last.top, []);
      ShrinkTop(front, last.top);
    } else {
      var before, t := last.items[..|last.items| - 1], last.items[|last.items| - 1];
      assert last == SectionText(last.top, before + [t]);
      ShrinkingItem(front, last.top, before, t);
    }
  }

  lemma AcceptedLineGrows(before: seq<SectionText>, line: string) returns (next: seq<SectionText>)
    requires Grammatical(before) && Step(StateOf(before), line).Ok?
    ensures Grammatical(next) && LinesOf(next) == LinesOf(before) + [line]
    ensures Step(StateOf(before), line) == Ok(StateOf(next))
  {
    AcceptedLineFits(before, line);
    next := if IsTop(line) then WithTop(before, line) else if IsDash(line) then WithDash(before, line)
            else WithFieldLine(before, line);
    GrowingReadsOn(before, line, next);
  }

  lemma AcceptedLineIsRead(step: Stepper, before: seq<SectionText>, line: string) returns (next: seq<SectionText>)
    requires IsStep(step) && Grammatical(before) && step(StateOf(before), line).Ok?
    ensures Grammatical(next) && LinesOf(next) == LinesOf(before) + [line]
    ensures step(StateOf(before), line) == Ok(StateOf(next))
  {
    assert step(StateOf(before), line) == Step(StateOf(before), line);
    next := AcceptedLineGrows(before, line);
  }

  lemma AcceptedLineFits(before: seq<SectionText>, line: string)
    requires Grammatical(before) && Step(StateOf(before), line).Ok?
    ensures IsTop(line) ==> ':' in Strip(line)
    ensures IsDash(line) ==> before != []
    ensures IsIndented(line) ==> ':' in Strip(line) && EndsInEntry(before)
  {
  }

  /** Whatever is accepted has been read line by line into sections, and means what they mean. */
  lemma {:induction false} AcceptedLinesAreGrammatical(step: Stepper, lines: seq<string>)
    returns (sections: seq<SectionText>)
    requires IsStep(step) && StepAll(step, START, lines).Ok?
    ensures Grammatical(sections) && LinesOf(sections) == lines
    ensures StepAll(step, START, lines) == Ok(StateOf(sections))
  {
    if lines == [] {
      sections := [];
    } else {
      var front, line := lines[..|lines| - 1], lines[|lines| - 1];
      assert front + [line] == lines;
      StepAllLast(step, lines);
      var before := AcceptedLinesAreGrammatical(step, front);
      sections := AcceptedLineIsRead(step, before, line);
    }
  }

  lemma {:induction false} GrammaticalLinesAreAccepted(step: Stepper, sections: seq<SectionText>)
    requires IsStep(step) && Grammatical(sections)
    ensures StepAll(step, START, LinesOf(sections)) == Ok(StateOf(sections))
    decreases |LinesOf(sections)|
  {
    if sections != [] {
      var before, line := Shrunk(sections), LastLine(sections);
      ShrinkingIsUndone(sections);
      GrowingReadsOn(before, line, sections);
      GrammaticalLinesAreAccepted(step, before);
      StepAllLast(step, LinesOf(sections));
      assert LinesOf(sections)[..|LinesOf(sections)| - 1] == LinesOf(before);
      assert step(StateOf(before), line) == Step(StateOf(before), line);
    }
  }

  /** Lines can be read in one way only. */
  lemma {:induction false} ReadingIsUnique(a: seq<SectionText>, b: seq<SectionText>)
    requires Grammatical(a) && Grammatical(b) && LinesOf(a) == LinesOf(b)
    ensures a == b
    decreases |LinesOf(a)|
  {
    if a != [] && b != [] {
      ShrinkingIsUndone(a);
      ShrinkingIsUndone(b);
      GrowingReadsOn(Shrunk(a), LastLine(a), a);
      GrowingReadsOn(Shrunk(b), LastLine(b), b);
      var lines := LinesOf(a);
      assert lines[..|lines| - 1] == LinesOf(Shrunk(a)) == LinesOf(Shrunk(b));
      assert lines[|lines| - 1] == LastLine(a) == LastLine(b);
      ReadingIsUnique(Shrunk(a), Shrunk(b));
    }
  }

  /** Nothing in an accepted document is ignored: its significant lines are, one by one and in one way only, the top-level
      lines, list items and fields of sections, and the document is what these mean. */
  lemma EveryLineIsRead(content: string) returns (sections: seq<SectionText>)
    requires Parsed(content).Ok?
    ensures Grammatical(sections) && LinesOf(sections) == Significant(SplitLines(content))
    ensures Parsed(content) == Ok(DocumentOf(sections))
    ensures forall other :: Grammatical(other) && LinesOf(other) == LinesOf(sections) ==> other == sections
  {
    sections := AcceptedLinesAreGrammatical(Steps(), Significant(SplitLines(content)));
    forall other | Grammatical(other) && LinesOf(other) == LinesOf(sections) ensures other == sections {
      ReadingIsUnique(other, sections);
    }
  }

  /** A text is accepted exactly if its significant lines are those of grammatical sections, and then it means what they
      mean. */
  lemma GrammaticalTextIsAccepted(content: string, sections: seq<SectionText>)
    requires Grammatical(sections) && LinesOf(sections) == Significant(SplitLines(content))
    ensures Parsed(content) == Ok(DocumentOf(sections))
  {
    GrammaticalLinesAreAccepted(Steps(), sections);
  }

  /** A list item whose dash was forgotten is refused, whatever stands before the list and after it. */
  lemma ForgottenDashIsRefused(content: string, before: seq<string>, top: string, line: string, after: seq<string>)
    requires Significant(SplitLines(content)) == before + [top, line] + after
    requires IsTop(top) && IsIndented(line)
    ensures Parsed(content).Err?
  {
    AcceptedExactlyWhen(content);
    var lines, n := before + [top, line] + after, |before| + 1;
    assert lines[n] == line && lines[..n] == before + [top];
    InEntryAfter(before, top);
    assert !Fits(lines[..n], lines[n]);
  }
}
