/**
 * The course-information card (components/course-info.tsx): `extractSections`
 * turns the tool's markdown-like text into sections with numbered items, and the
 * card picks an icon, a label and how many items to show when collapsed.
 */
module CourseInfoView {
  import opened Wrappers
  import opened Text

  datatype Item = Item(title: string, content: string)
  datatype Section = Section(title: string, content: string, items: seq<Item>)

  /** The loop's variables: the finished sections, the open section and the open item. */
  datatype Parse = Parse(sections: seq<Section>, current: Option<Section>, item: Option<Item>)

  const Init := Parse([], None, None)

  /** `line.startsWith('# ')` */
  predicate IsHeader(line: string) {
    StartsWith(line, "# ")
  }

  /** The number of ASCII digits (`\d`) at the start of `s`. */
  function LeadingDigits(s: string): (n: nat)
    ensures n <= |s|
    ensures forall i :: 0 <= i < n ==> IsDigit(s[i])
    ensures n < |s| ==> !IsDigit(s[n])
  {
    if s != [] && IsDigit(s[0]) then
      var n := LeadingDigits(s[1..]);
      assert forall i :: 1 <= i < 1 + n ==> s[i] == s[1..][i - 1];
      1 + n
    else 0
  }

  /** `/^\d+\.\s/.test(line)`: digits are greedy and '.' is not a digit, so no other split can match. */
  predicate IsItemLine(line: string) {
    var n := LeadingDigits(line);
    1 <= n && n + 1 < |line| && line[n] == '.' && IsSpace(line[n + 1])
  }

  /** `text += (text ? '\n' : '') + line` */
  function AppendLine(text: string, line: string): string {
    if text == "" then line else text + "\n" + line
  }

  /** A section with the open item, if any, pushed onto its items. */
  function WithItem(s: Section, item: Option<Item>): Section {
    if item.Some? then s.(items := s.items + [item.value]) else s
  }

  /**
   * A header line: when a section is open, its open item is pushed and the
   * section finished; the new section's title is the line without its '# ',
   * trimmed. With no section open, an open item is kept as it is.
   */
  function HeaderStep(st: Parse, line: string): Parse
    requires IsHeader(line)
  {
    OpenSection(st, Trim(line[2..]))
  }

  function OpenSection(st: Parse, title: string): Parse {
    var section := Section(title, "", []);
    match st.current
    case None => Parse(st.sections, Some(section), st.item)
    case Some(c) => Parse(st.sections + [WithItem(c, st.item)], Some(section), None)
  }

  /** A numbered line: the open item goes into the open section (or is dropped without one) and a new item opens. */
  function ItemStep(st: Parse, line: string): Parse {
    OpenItem(st, Trim(line))
  }

  function OpenItem(st: Parse, title: string): Parse {
    var current := if st.current.Some? then Some(WithItem(st.current.value, st.item)) else None;
    Parse(st.sections, current, Some(Item(title, "")))
  }

  /** Any other line: when not blank, its trimmed text joins the open item's content, else the open section's. */
  function TextStep(st: Parse, line: string): Parse {
    var t := Trim(line);
    if t == "" then st
    else if st.item.Some? then st.(item := Some(st.item.value.(content := AppendLine(st.item.value.content, t))))
    else if st.current.Some? then st.(current := Some(st.current.value.(content := AppendLine(st.current.value.content, t))))
    else st
  }

  /** One iteration of the `for (const line of lines)` loop. */
  function Step(st: Parse, line: string): Parse {
    if IsHeader(line) then HeaderStep(st, line)
    else if IsItemLine(line) then ItemStep(st, line)
    else TextStep(st, line)
  }

  /** The loop state after the given lines. */
  function Run(st: Parse, lines: seq<string>): Parse
    decreases |lines|
  {
    if lines == [] then st else Step(Run(st, lines[..|lines| - 1]), lines[|lines| - 1])
  }

  /** After the loop: the last item and the last section are pushed. */
  function Finish(st: Parse): seq<Section> {
    match st.current
    case None => st.sections
    case Some(c) => st.sections + [WithItem(c, st.item)]
  }

  /** What `extractSections(content)` returns. */
  function Sections(content: string): seq<Section> {
    Finish(Run(Init, Split(content, '\n')))
  }

  /** `extractSections`, as the loop over the lines that updates the open section and item. */
  method ExtractSections(content: string) returns (sections: seq<Section>)
    ensures sections == Sections(content)
  {
    var lines := Split(content, '\n');
    sections := [];
    var currentSection: Option<Section> := None;
    var currentItem: Option<Item> := None;
    for i := 0 to |lines|
      invariant Parse(sections, currentSection, currentItem) == Run(Init, lines[..i])
    {
      var line := lines[i];
      assert lines[..i + 1][..i] == lines[..i];
      if StartsWith(line, "# ") {
        if currentSection.Some? && currentItem.Some? {
          currentSection := Some(currentSection.value.(items := currentSection.value.items + [currentItem.value]));
          currentItem := None;
        }
        if currentSection.Some? {
          sections := sections + [currentSection.value];
        }
        currentSection := Some(Section(Trim(line[2..]), "", []));
      } else if IsItemLine(line) {
        if currentSection.Some? && currentItem.Some? {
          currentSection := Some(currentSection.value.(items := currentSection.value.items + [currentItem.value]));
        }
        currentItem := Some(Item(Trim(line), ""));
      } else if Trim(line) != "" {
        if currentItem.Some? {
          currentItem := Some(currentItem.value.(content := AppendLine(currentItem.value.content, Trim(line))));
        } else if currentSection.Some? {
          currentSection := Some(currentSection.value.(content := AppendLine(currentSection.value.content, Trim(line))));
        }
      }
    }
    assert lines[..|lines|] == lines;
    if currentSection.Some? && currentItem.Some? {
      currentSection := Some(currentSection.value.(items := currentSection.value.items + [currentItem.value]));
    }
    if currentSection.Some? {
      sections := sections + [currentSection.value];
    }
  }

  // ----- Properties of the parse -----

  lemma {:induction false} RunAppend(st: Parse, a: seq<string>, b: seq<string>)
    ensures Run(st, a + b) == Run(Run(st, a), b)
    decreases |b|
  {
    if b == [] {
      assert a + b == a;
    } else {
      assert (a + b)[..|a + b| - 1] == a + b[..|b| - 1];
      RunAppend(st, a, b[..|b| - 1]);
    }
  }

  /** The titles of the header lines, each without its '# ' and trimmed. */
  function HeaderTitles(lines: seq<string>): seq<string>
    decreases |lines|
  {
    if lines == [] then []
    else
      var rest := HeaderTitles(lines[..|lines| - 1]);
      var last := lines[|lines| - 1];
      if IsHeader(last) then rest + [Trim(last[2..])] else rest
  }

  function Titles(sections: seq<Section>): seq<string> {
    seq(|sections|, i requires 0 <= i < |sections| => sections[i].title)
  }

  /** The titles of the finished and the open section. */
  function OpenTitles(st: Parse): seq<string> {
    Titles(st.sections) + (if st.current.Some? then [st.current.value.title] else [])
  }

  lemma {:induction false} RunTitles(lines: seq<string>)
    ensures OpenTitles(Run(Init, lines)) == HeaderTitles(lines)
    ensures Run(Init, lines).current.Some? <==> HeaderTitles(lines) != []
    decreases |lines|
  {
    if lines != [] {
      var init := lines[..|lines| - 1];
      RunTitles(init);
      var st := Run(Init, init);
      var last := lines[|lines| - 1];
      if IsHeader(last) {
        if st.current.Some? {
          var done := WithItem(st.current.value, st.item);
          assert Titles(st.sections + [done]) == Titles(st.sections) + [done.title];
        }
      } else if IsItemLine(last) {
        if st.current.Some? {
          assert WithItem(st.current.value, st.item).title == st.current.value.title;
        }
      }
    }
  }

  /** One section per header line, in input order, titled by that line without '# ', trimmed; none without a header. */
  lemma SectionTitles(content: string)
    ensures Titles(Sections(content)) == HeaderTitles(Split(content, '\n'))
    ensures |Sections(content)| == |HeaderTitles(Split(content, '\n'))|
  {
    var st := Run(Init, Split(content, '\n'));
    RunTitles(Split(content, '\n'));
    if st.current.Some? {
      var done := WithItem(st.current.value, st.item);
      assert Titles(st.sections + [done]) == Titles(st.sections) + [done.title];
    }
  }

  lemma {:induction false} NoHeaderNoTitles(lines: seq<string>)
    requires forall i :: 0 <= i < |lines| ==> !IsHeader(lines[i])
    ensures HeaderTitles(lines) == []
    decreases |lines|
  {
    if lines != [] {
      NoHeaderNoTitles(lines[..|lines| - 1]);
    }
  }

  /** Without a line starting with '# ', `extractSections` returns an empty list. */
  lemma NoHeaderNoSections(content: string)
    requires forall i :: 0 <= i < |Split(content, '\n')| ==> !IsHeader(Split(content, '\n')[i])
    ensures Sections(content) == []
  {
    NoHeaderNoTitles(Split(content, '\n'));
    SectionTitles(content);
  }

  /** The lines whose trimmed text is not empty. */
  function NonBlank(lines: seq<string>): seq<string>
    decreases |lines|
  {
    if lines == [] then []
    else
      var rest := NonBlank(lines[..|lines| - 1]);
      var last := lines[|lines| - 1];
      if Trim(last) != "" then rest + [last] else rest
  }

  lemma BlankStep(st: Parse, line: string)
    requires Trim(line) == ""
    ensures Step(st, line) == st
  {
    TrimEmptyIffBlank(line);
    if |line| > 0 {
      assert IsSpace(line[0]);
      assert !IsDigit(line[0]);
    }
  }

  /** Blank and whitespace-only lines change nothing: parsing them away gives the same state. */
  lemma {:induction false} BlankLinesIgnored(st: Parse, lines: seq<string>)
    ensures Run(st, lines) == Run(st, NonBlank(lines))
    decreases |lines|
  {
    if lines != [] {
      var init := lines[..|lines| - 1];
      var last := lines[|lines| - 1];
      BlankLinesIgnored(st, init);
      if Trim(last) != "" {
        var r := NonBlank(init) + [last];
        assert r[..|r| - 1] == NonBlank(init);
      } else {
        BlankStep(Run(st, init), last);
      }
    }
  }

  /** The trimmed numbered lines, in order. */
  function ItemTitles(lines: seq<string>): seq<string>
    decreases |lines|
  {
    if lines == [] then []
    else
      var rest := ItemTitles(lines[..|lines| - 1]);
      var last := lines[|lines| - 1];
      if IsItemLine(last) then rest + [Trim(last)] else rest
  }

  function ItemsOf(items: seq<Item>): seq<string>
    decreases |items|
  {
    if items == [] then [] else ItemsOf(items[..|items| - 1]) + [items[|items| - 1].title]
  }

  /** The item titles of every section, section by section. */
  function AllItems(sections: seq<Section>): seq<string>
    decreases |sections|
  {
    if sections == [] then [] else AllItems(sections[..|sections| - 1]) + ItemsOf(sections[|sections| - 1].items)
  }

  /** The item titles already placed in a section or open while a section is. */
  function Placed(st: Parse): seq<string> {
    match st.current
    case None => AllItems(st.sections)
    case Some(c) => AllItems(st.sections) + ItemsOf(c.items) + (if st.item.Some? then [st.item.value.title] else [])
  }

  lemma ItemsOfPush(items: seq<Item>, it: Item)
    ensures ItemsOf(items + [it]) == ItemsOf(items) + [it.title]
  {
    assert (items + [it])[..|items + [it]| - 1] == items;
  }

  lemma AllItemsPush(sections: seq<Section>, s: Section)
    ensures AllItems(sections + [s]) == AllItems(sections) + ItemsOf(s.items)
  {
    assert (sections + [s])[..|sections + [s]| - 1] == sections;
  }

  lemma ItemLineNotHeader(line: string)
    ensures IsItemLine(line) ==> !IsHeader(line)
  {
    if IsItemLine(line) {
      assert IsDigit(line[0]);
    }
  }

  lemma HeaderPlaced(s: Parse, line: string)
    requires s.current.Some? && IsHeader(line)
    ensures Placed(HeaderStep(s, line)) == Placed(s)
  {
    SectionPlaced(s, Trim(line[2..]));
  }

  lemma SectionPlaced(s: Parse, title: string)
    requires s.current.Some?
    ensures Placed(OpenSection(s, title)) == Placed(s)
  {
    var c := s.current.value;
    var w := WithItem(c, s.item);
    var n := OpenSection(s, title);
    assert n == Parse(s.sections + [w], Some(Section(title, "", [])), None);
    assert Placed(n) == AllItems(s.sections + [w]) + ItemsOf([]);
    AllItemsPush(s.sections, w);
    assert ItemsOf(w.items) == ItemsOf(c.items) + (if s.item.Some? then [s.item.value.title] else []) by {
      if s.item.Some? {
        ItemsOfPush(c.items, s.item.value);
      }
    }
  }

  lemma ItemPlaced(s: Parse, line: string)
    requires s.current.Some?
    ensures Placed(ItemStep(s, line)) == Placed(s) + [Trim(line)]
  {
    OpenItemPlaced(s, Trim(line));
  }

  lemma OpenItemPlaced(s: Parse, title: string)
    requires s.current.Some?
    ensures Placed(OpenItem(s, title)) == Placed(s) + [title]
  {
    if s.item.Some? {
      ItemsOfPush(s.current.value.items, s.item.value);
    }
  }

  /** One line with a section open: a numbered line is placed, nothing else is. */
  lemma StepPlaced(s: Parse, line: string)
    requires s.current.Some?
    ensures Step(s, line).current.Some?
    ensures Placed(Step(s, line)) == Placed(s) + (if IsItemLine(line) then [Trim(line)] else [])
  {
    if IsHeader(line) {
      HeaderPlaced(s, line);
      ItemLineNotHeader(line);
    } else if IsItemLine(line) {
      ItemPlaced(s, line);
    }
  }

  /** Once a section is open, every numbered line is placed, in order, and a section stays open. */
  lemma {:induction false} ItemsAfterHeader(st: Parse, lines: seq<string>)
    requires st.current.Some?
    ensures Run(st, lines).current.Some?
    ensures Placed(Run(st, lines)) == Placed(st) + ItemTitles(lines)
    decreases |lines|
  {
    if lines != [] {
      var init := lines[..|lines| - 1];
      ItemsAfterHeader(st, init);
      StepPlaced(Run(st, init), lines[|lines| - 1]);
    }
  }

  /** Before the first header no section opens; the open item is the last numbered line, if any. */
  lemma {:induction false} ItemsBeforeHeader(lines: seq<string>)
    requires forall i :: 0 <= i < |lines| ==> !IsHeader(lines[i])
    ensures Run(Init, lines).sections == [] && Run(Init, lines).current == None
    ensures Run(Init, lines).item.Some? <==> ItemTitles(lines) != []
    ensures Run(Init, lines).item.Some? ==> Run(Init, lines).item.value.title == ItemTitles(lines)[|ItemTitles(lines)| - 1]
    decreases |lines|
  {
    if lines != [] {
      var init := lines[..|lines| - 1];
      ItemsBeforeHeader(init);
      OrphanStep(Run(Init, init), lines[|lines| - 1]);
    }
  }

  /** One line other than a header while no section is open. */
  lemma OrphanStep(st: Parse, line: string)
    requires st.sections == [] && st.current == None && !IsHeader(line)
    ensures Step(st, line).sections == [] && Step(st, line).current == None
    ensures Step(st, line).item.Some? <==> IsItemLine(line) || st.item.Some?
    ensures IsItemLine(line) ==> Step(st, line).item.value.title == Trim(line)
    ensures !IsItemLine(line) && st.item.Some? ==> Step(st, line).item.value.title == st.item.value.title
  {
  }

  /** The index of the first header line, or the number of lines. */
  function FirstHeader(lines: seq<string>): (f: nat)
    ensures f <= |lines|
    ensures forall i :: 0 <= i < f ==> !IsHeader(lines[i])
    ensures f < |lines| ==> IsHeader(lines[f])
  {
    if lines == [] || IsHeader(lines[0]) then 0
    else
      var f := FirstHeader(lines[1..]);
      assert forall i :: 1 <= i < 1 + f ==> lines[i] == lines[1..][i - 1];
      1 + f
  }

  /** The last element of a sequence as a sequence of at most one element. */
  function LastOf(xs: seq<string>): (r: seq<string>)
    ensures |r| <= 1
  {
    if xs == [] then [] else [xs[|xs| - 1]]
  }

  /**
   * The items of all sections, in order, are the numbered lines after the first
   * header, preceded by the last numbered line before it, if there is one: the
   * loop keeps an item opened before any section and hands it to the first one.
   */
  lemma SectionItems(content: string)
    requires FirstHeader(Split(content, '\n')) < |Split(content, '\n')|
    ensures
      var lines := Split(content, '\n');
      var f := FirstHeader(lines);
      AllItems(Sections(content)) == LastOf(ItemTitles(lines[..f])) + ItemTitles(lines[f + 1..])
  {
    var lines := Split(content, '\n');
    ItemsAroundFirstHeader(lines, FirstHeader(lines));
  }

  /** The same, for lines whose first header is at index f. */
  lemma ItemsAroundFirstHeader(lines: seq<string>, f: nat)
    requires f < |lines| && IsHeader(lines[f])
    requires forall i :: 0 <= i < f ==> !IsHeader(lines[i])
    ensures AllItems(Finish(Run(Init, lines))) == LastOf(ItemTitles(lines[..f])) + ItemTitles(lines[f + 1..])
  {
    var pre, h, post := lines[..f], lines[f], lines[f + 1..];
    RunSplitAt(lines, f);
    FirstSectionOpens(pre, h);
    var st := Run(Init, pre + [h]);
    ItemsAfterHeader(st, post);
    FinishPlaced(Run(st, post));
  }

  /** Running up to and including line f, then the rest. */
  lemma RunSplitAt(lines: seq<string>, f: nat)
    requires f < |lines|
    ensures Run(Init, lines) == Run(Run(Init, lines[..f] + [lines[f]]), lines[f + 1..])
  {
    SplitAround(lines, f);
    RunAppend(Init, lines[..f] + [lines[f]], lines[f + 1..]);
  }

  lemma SplitAround(lines: seq<string>, f: nat)
    requires f < |lines|
    ensures lines[..f] + [lines[f]] + lines[f + 1..] == lines
  {
  }

  /** Right after the first header, the only placed item is the last numbered line before it. */
  lemma FirstSectionOpens(pre: seq<string>, h: string)
    requires forall i :: 0 <= i < |pre| ==> !IsHeader(pre[i])
    requires IsHeader(h)
    ensures Run(Init, pre + [h]).current.Some?
    ensures Placed(Run(Init, pre + [h])) == LastOf(ItemTitles(pre))
  {
    var l := pre + [h];
    assert l[..|l| - 1] == pre;
    ItemsBeforeHeader(pre);
    OrphanHandedOver(Run(Init, pre), h);
  }

  lemma OrphanHandedOver(s0: Parse, h: string)
    requires s0.sections == [] && s0.current == None && IsHeader(h)
    ensures Step(s0, h).current.Some?
    ensures Placed(Step(s0, h)) == if s0.item.Some? then [s0.item.value.title] else []
  {
    assert AllItems([]) == [] && ItemsOf([]) == [];
  }

  lemma FinishPlaced(st: Parse)
    requires st.current.Some?
    ensures AllItems(Finish(st)) == Placed(st)
  {
    var c := st.current.value;
    AllItemsPush(st.sections, WithItem(c, st.item));
    if st.item.Some? {
      ItemsOfPush(c.items, st.item.value);
    }
  }

  // ----- Contents -----

  /** A line that is neither a header nor a numbered line: its text is content. */
  predicate IsTextLine(line: string) {
    !IsHeader(line) && !IsItemLine(line)
  }

  /**
   * One text line: titles, items and finished sections are kept; when not
   * blank, its trimmed text is appended on a new line to the open item's
   * content if an item is open, else to the open section's, else it is dropped.
   */
  lemma TextStepContent(st: Parse, line: string)
    requires IsTextLine(line)
    ensures var r := Step(st, line); var t := Trim(line);
      && r.sections == st.sections
      && OpenTitles(r) == OpenTitles(st)
      && (st.current.Some? ==> Placed(r) == Placed(st))
      && (t == "" ==> r == st)
      && (t != "" && st.item.Some? ==>
            r == st.(item := Some(st.item.value.(content := AppendLine(st.item.value.content, t)))))
      && (t != "" && st.item.None? && st.current.Some? ==>
            r == st.(current := Some(st.current.value.(content := AppendLine(st.current.value.content, t)))))
      && (t != "" && st.item.None? && st.current.None? ==> r == st)
  {
    if Trim(line) != "" && st.item.None? && st.current.Some? {
      var c := st.current.value;
      assert Titles(st.sections) + [c.title] == OpenTitles(st);
    }
  }

  /** The trimmed text of the non-blank text lines, in order. */
  function TextsOf(lines: seq<string>): (r: seq<string>)
    ensures forall i :: 0 <= i < |r| ==> r[i] != ""
    decreases |lines|
  {
    if lines == [] then []
    else
      var rest := TextsOf(lines[..|lines| - 1]);
      var t := Trim(lines[|lines| - 1]);
      if t != "" then rest + [t] else rest
  }

  /** Appending a non-empty line to a join of non-empty lines is joining one more. */
  lemma {:induction false} AppendLineJoin(xs: seq<string>, t: string)
    requires t != "" && forall i :: 0 <= i < |xs| ==> xs[i] != ""
    ensures AppendLine(Join(xs, "\n"), t) == Join(xs + [t], "\n")
    decreases |xs|
  {
    if |xs| == 1 {
      assert (xs + [t])[1..] == [t];
    } else if |xs| > 1 {
      AppendLineJoin(xs[1..], t);
      assert (xs + [t])[1..] == xs[1..] + [t];
      assert Join(xs[1..], "\n") != "" by {
        assert |Join(xs[1..], "\n")| >= |xs[1]|;
      }
    }
  }

  /**
   * The content of an item: after its numbered line, text lines up to the next
   * header or numbered line make its content, their trimmed texts joined by
   * '\n'; nothing else in the state changes.
   */
  lemma {:induction false} ItemContent(st: Parse, lines: seq<string>)
    requires st.item.Some? && st.item.value.content == ""
    requires forall i :: 0 <= i < |lines| ==> IsTextLine(lines[i])
    ensures Run(st, lines) == st.(item := Some(st.item.value.(content := Join(TextsOf(lines), "\n"))))
    decreases |lines|
  {
    if lines != [] {
      var init := lines[..|lines| - 1];
      ItemContent(st, init);
      var last := lines[|lines| - 1];
      TextStepContent(Run(st, init), last);
      if Trim(last) != "" {
        AppendLineJoin(TextsOf(init), Trim(last));
      }
    }
  }

  /**
   * The content of a section: after its header, text lines up to the next
   * header or numbered line make its content, their trimmed texts joined by
   * '\n'; nothing else in the state changes.
   */
  lemma {:induction false} SectionContent(st: Parse, lines: seq<string>)
    requires st.item.None? && st.current.Some? && st.current.value.content == ""
    requires forall i :: 0 <= i < |lines| ==> IsTextLine(lines[i])
    ensures Run(st, lines) == st.(current := Some(st.current.value.(content := Join(TextsOf(lines), "\n"))))
    decreases |lines|
  {
    if lines != [] {
      var init := lines[..|lines| - 1];
      SectionContent(st, init);
      var last := lines[|lines| - 1];
      TextStepContent(Run(st, init), last);
      if Trim(last) != "" {
        AppendLineJoin(TextsOf(init), Trim(last));
      }
    }
  }

  // ----- The card -----

  /** `getSearchTypeIcon` */
  function SearchTypeIcon(searchType: string): (r: string)
    ensures searchType == "faq" ==> r == "❓"
    ensures searchType == "wordpress" ==> r == "📰"
    ensures searchType != "faq" && searchType != "wordpress" ==> r == "🔍"
  {
    match searchType
    case "faq" => "❓"
    case "wordpress" => "📰"
    case _ => "🔍"
  }

  /** `getSearchTypeLabel` */
  function SearchTypeLabel(searchType: string): (r: string)
    ensures searchType == "faq" ==> r == "FAQ 搜索"
    ensures searchType == "wordpress" ==> r == "技术教程搜索"
    ensures searchType != "faq" && searchType != "wordpress" ==> r == "综合搜索"
  {
    match searchType
    case "faq" => "FAQ 搜索"
    case "wordpress" => "技术教程搜索"
    case _ => "综合搜索"
  }

  /** The toggle is shown when there is content and a section beyond the first. */
  function ShowsToggle(sections: seq<Section>): (r: bool)
    ensures r <==> |sections| >= 2
  {
    |sections| > 0 && |sections[1..]| > 0
  }

  /** `items.slice(0, isExpanded ? undefined : 2)` */
  function VisibleItems(items: seq<Item>, expanded: bool): (r: seq<Item>)
    ensures |r| <= |items| && r == items[..|r|]
    ensures expanded ==> r == items
    ensures !expanded ==> |r| == if |items| < 2 then |items| else 2
  {
    if expanded then items else items[..if |items| < 2 then |items| else 2]
  }

  /** The '+N 更多结果...' note: present only when collapsed with more than two items. */
  function MoreCount(items: seq<Item>, expanded: bool): (r: Option<nat>)
    ensures r.Some? <==> !expanded && |items| > 2
    ensures r.Some? ==> r.value > 0 && |VisibleItems(items, expanded)| + r.value == |items|
  {
    if !expanded && |items| > 2 then Some(|items| - 2) else None
  }
}
