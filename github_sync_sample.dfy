/** An issue body laid out as in the repository's tests of
    `github_sync.py` (a blank line, then `## Goal`, `## Acceptance
    checklist` with check boxes, `## Scope notes` with bullets and
    `## Validation`), worked through `parse_issue_body`: every charter
    written that way is read back unchanged. */
module GithubSyncSample {
  import opened Text
  import opened JsonValue
  import opened GithubSync

  // ------------------------------------------------------------ lines

  /** Text made of the given lines, each ended by a newline. */
  function Lines(ls: seq<string>): string
    decreases |ls|
  {
    if ls == [] then "" else ls[0] + "\n" + Lines(ls[1..])
  }

  /** `splitlines` gives back the lines `Lines` was made of. */
  lemma {:induction false} SplitLinesOfLines(ls: seq<string>)
    requires forall l :: l in ls ==> NoLineBreak(l)
    ensures SplitLines(Lines(ls)) == ls
    decreases |ls|
  {
    if ls != [] {
      var l := ls[0];
      assert NoLineBreak(l);
      var s := Lines(ls);
      assert s == l + "\n" + Lines(ls[1..]);
      assert s[|l|] == '\n';
      assert forall j :: 0 <= j < |l| ==> s[j] == l[j];
      assert FirstBreak(s, 0) == |l|;
      assert s[..|l|] == l;
      assert s[|l| + 1..] == Lines(ls[1..]);
      SplitLinesOfLines(ls[1..]);
    }
  }

  lemma NoBreakCat(a: string, b: string)
    requires NoLineBreak(a) && NoLineBreak(b)
    ensures NoLineBreak(a + b)
  {
  }

  // ------------------------------------------------------------ the layout

  const GoalTitle: string := "Goal"
  const AcceptanceTitle: string := "Acceptance checklist"
  const ScopeTitle: string := "Scope notes"
  const ValidationTitle: string := "Validation"

  /** One line of text the layout can carry as it is: no line break, no
      white space at either end, and not a heading. */
  predicate PlainText(l: string)
  {
    l != [] && NoLineBreak(l) && !IsSpace(l[0]) && !IsSpace(l[|l| - 1]) && l[0] != '#'
  }

  /** A charter the layout can carry, with one box mark per acceptance
      item: a one-line goal and validation, plain items, and scope notes
      that do not open with `[` (which would read as a check box). */
  predicate Writable(c: Charter, marks: seq<char>)
  {
    PlainText(c.goal) && PlainText(c.validation) && |marks| == |c.acceptance| &&
    (forall i :: 0 <= i < |marks| ==> IsBoxMark(marks[i]) && PlainText(c.acceptance[i])) &&
    (forall i :: 0 <= i < |c.scopeNotes| ==> PlainText(c.scopeNotes[i]) && c.scopeNotes[i][0] != '[')
  }

  /** `- [m] item`. */
  function BoxLine(mark: char, item: string): string
  {
    ['-'] + " [" + [mark] + "] " + item
  }

  function BoxLines(items: seq<string>, marks: seq<char>): (r: seq<string>)
    requires |marks| == |items|
    ensures |r| == |items|
    ensures forall i :: 0 <= i < |items| ==> r[i] == BoxLine(marks[i], items[i])
  {
    if items == [] then [] else [BoxLine(marks[0], items[0])] + BoxLines(items[1..], marks[1..])
  }

  /** `- item`. */
  function BulletLine(item: string): string
  {
    ['-'] + " " + item
  }

  function BulletLines(items: seq<string>): (r: seq<string>)
    ensures |r| == |items|
    ensures forall i :: 0 <= i < |items| ==> r[i] == BulletLine(items[i])
  {
    if items == [] then [] else [BulletLine(items[0])] + BulletLines(items[1..])
  }

  /** A `## title` heading followed by its lines. */
  function Group(title: string, body: seq<string>): seq<string>
  {
    ["## " + title] + body
  }

  /** The lines of a charter's body, a blank line closing each section. */
  function Layout(c: Charter, marks: seq<char>): seq<string>
    requires |marks| == |c.acceptance|
  {
    [""] + (Group(GoalTitle, [c.goal, ""]) +
           (Group(AcceptanceTitle, BoxLines(c.acceptance, marks) + [""]) +
           (Group(ScopeTitle, BulletLines(c.scopeNotes) + [""]) +
            Group(ValidationTitle, [c.validation]))))
  }

  /** The body text of a charter, as the sample body is written. */
  function Body(c: Charter, marks: seq<char>): string
    requires |marks| == |c.acceptance|
  {
    Lines(Layout(c, marks))
  }

  // ------------------------------------------------------------ splitting

  lemma BoxLineFacts(mark: char, item: string)
    requires IsBoxMark(mark) && PlainText(item)
    ensures NoLineBreak(BoxLine(mark, item)) && PlainLine(BoxLine(mark, item))
  {
    var l := BoxLine(mark, item);
    assert forall j :: 6 <= j < |l| ==> l[j] == item[j - 6];
    assert l[0] == '-' && l[|l| - 1] == item[|item| - 1];
  }

  lemma BulletLineFacts(item: string)
    requires PlainText(item)
    ensures NoLineBreak(BulletLine(item)) && PlainLine(BulletLine(item))
  {
    var l := BulletLine(item);
    assert forall j :: 2 <= j < |l| ==> l[j] == item[j - 2];
    assert l[0] == '-' && l[|l| - 1] == item[|item| - 1];
  }

  lemma TitleNoBreak(t: string)
    requires t == GoalTitle || t == AcceptanceTitle || t == ScopeTitle || t == ValidationTitle
    ensures NoLineBreak("## " + t)
  {
    assert NoLineBreak("## ");
    assert NoLineBreak(t);
    NoBreakCat("## ", t);
  }

  lemma PlainTextNoBreak(l: string)
    requires PlainText(l)
    ensures NoLineBreak(l) && PlainLine(l)
  {
  }

  /** No line of the layout holds a line break. */
  lemma LayoutNoBreak(c: Charter, marks: seq<char>)
    requires Writable(c, marks)
    ensures forall l :: l in Layout(c, marks) ==> NoLineBreak(l)
  {
    TitleNoBreak(GoalTitle);
    TitleNoBreak(AcceptanceTitle);
    TitleNoBreak(ScopeTitle);
    TitleNoBreak(ValidationTitle);
    PlainTextNoBreak(c.goal);
    PlainTextNoBreak(c.validation);
    var boxes := BoxLines(c.acceptance, marks);
    forall i | 0 <= i < |boxes| ensures NoLineBreak(boxes[i]) {
      BoxLineFacts(marks[i], c.acceptance[i]);
    }
    var bullets := BulletLines(c.scopeNotes);
    forall i | 0 <= i < |bullets| ensures NoLineBreak(bullets[i]) {
      BulletLineFacts(c.scopeNotes[i]);
    }
    assert NoLineBreak("");
  }

  /** `splitlines` of the body gives the layout's lines. */
  lemma BodySplit(c: Charter, marks: seq<char>)
    requires Writable(c, marks)
    ensures SplitLines(Body(c, marks)) == Layout(c, marks)
  {
    LayoutNoBreak(c, marks);
    SplitLinesOfLines(Layout(c, marks));
  }

  // ------------------------------------------------------------ the walk

  /** A line that is no heading and has no trailing white space. */
  predicate PlainLine(l: string)
  {
    l == [] || (l[0] != '#' && !IsSpace(l[|l| - 1]))
  }

  lemma PlainLineFacts(l: string)
    requires PlainLine(l)
    ensures HeadingText(l) == None && RStrip(l) == l
  {
    if l != [] {
      assert HashRunEnd(l, 0) == 0;
      RStripNonSpaceEnd(l);
    }
  }

  /** A plain line is appended, as it is, to the current section. */
  lemma PlainStep(d: Doc, l: string)
    requires d.current in d.sections && PlainLine(l)
    ensures Step(d, l) == Doc(d.names, d.sections[d.current := d.sections[d.current] + [l]], d.current)
  {
    PlainLineFacts(l);
  }

  /** Plain lines are appended, as they are, to the current section. */
  lemma {:induction false} BodyWalk(d: Doc, body: seq<string>)
    requires d.current in d.sections
    requires forall l :: l in body ==> PlainLine(l)
    ensures Walk(d, body) == Doc(d.names, d.sections[d.current := d.sections[d.current] + body], d.current)
    decreases |body|
  {
    var c := d.current;
    if body == [] {
      assert d.sections[c] + body == d.sections[c];
      assert d.sections[c := d.sections[c]] == d.sections;
    } else {
      PlainStep(d, body[0]);
      var d1 := Doc(d.names, d.sections[c := d.sections[c] + [body[0]]], c);
      assert Walk(d, body) == Walk(d1, body[1..]);
      BodyWalk(d1, body[1..]);
      assert d1.sections[c] + body[1..] == d.sections[c] + body;
      assert d1.sections[c := d1.sections[c] + body[1..]] == d.sections[c := d.sections[c] + body];
    }
  }

  /** Walking two runs of lines is walking the first, then the second. */
  lemma {:induction false} WalkAppend(d: Doc, a: seq<string>, b: seq<string>)
    ensures Walk(d, a + b) == Walk(Walk(d, a), b)
    decreases |a|
  {
    if a == [] {
      assert a + b == b;
    } else {
      assert (a + b)[0] == a[0] && (a + b)[1..] == a[1..] + b;
      assert Walk(d, a + b) == Walk(Step(d, a[0]), a[1..] + b);
      assert Walk(d, a) == Walk(Step(d, a[0]), a[1..]);
      WalkAppend(Step(d, a[0]), a[1..], b);
    }
  }

  /** The state after a new section `name` opens with `body` in it. */
  function Opened(d: Doc, name: string, body: seq<string>): Doc
  {
    Doc(d.names + [name], d.sections[name := body], name)
  }

  /** A heading followed by plain lines opens a new section holding those
      lines. */
  lemma GroupWalk(d: Doc, title: string, name: string, body: seq<string>)
    requires HeadingText("## " + title) == Some(title)
    requires NormaliseHeading(title) == name && name !in d.sections
    requires forall l :: l in body ==> PlainLine(l)
    ensures Walk(d, Group(title, body)) == Opened(d, name, body)
  {
    var g := Group(title, body);
    var d1 := Opened(d, name, []);
    HeadingOpens(d, "## " + title, name);
    assert g[0] == "## " + title && g[1..] == body;
    assert Walk(d, g) == Walk(d1, body);
    BodyWalk(d1, body);
    assert d1.sections[name] + body == body;
    assert d1.sections[name := body] == d.sections[name := body];
  }

  // ------------------------------------------------------------ headings

  predicate LowerAlnumWord(s: string)
  {
    forall i :: 0 <= i < |s| ==> IsLowerAlnum(s[i])
  }

  /** `## title` is a heading whose text is the title. */
  lemma HeadingOf(title: string)
    requires title != [] && !IsSpace(title[0]) && !IsSpace(title[|title| - 1]) && '\n' !in title
    ensures HeadingText("## " + title) == Some(title)
  {
    var l := "## " + title;
    assert HashRunEnd(l, 0) == 2 by { assert l[0] == '#' && l[1] == '#' && l[2] == ' '; }
    assert SpaceRunEnd(l, 2) == 3 by { assert IsSpace(l[2]) && l[3] == title[0]; }
    assert l[3..] == title;
    RStripNonSpaceEnd(title);
  }

  /** One blank between two words becomes one `-`. */
  lemma {:induction false} SubOneSpace(a: string, b: string)
    requires LowerAlnumWord(a) && b != [] && LowerAlnumWord(b)
    ensures SubNonAlnum(a + " " + b, '-') == a + "-" + b
    decreases |a|
  {
    var s := a + " " + b;
    if a == [] {
      assert s[0] == ' ' && s[1] == b[0];
      assert NonAlnumRunEnd(s, 0) == 1;
      assert s[1..] == b;
      SubNonAlnumSingleSep(b, '-');
    } else {
      assert s[0] == a[0] && s[1..] == a[1..] + " " + b;
      SubOneSpace(a[1..], b);
    }
  }

  /** A title whose lower case is a word of `[a-z0-9]` normalises to
      that word. */
  lemma NormaliseWord(title: string, w: string)
    requires LowerAlnumWord(w) && Lower(title) == w
    ensures NormaliseHeading(title) == w
  {
    SubNonAlnumSingleSep(w, '-');
  }

  /** Two words `Ab Cd` normalise to `ab-cd`. */
  lemma NormaliseTwoWords(title: string, a: string, b: string)
    requires a != [] && b != [] && LowerAlnumWord(a) && LowerAlnumWord(b)
    requires Lower(title) == a + " " + b
    ensures NormaliseHeading(title) == a + "-" + b
  {
    SubOneSpace(a, b);
    var r := a + "-" + b;
    assert r[0] == a[0] && r[|r| - 1] == b[|b| - 1];
  }

  lemma TitleShape(t: string)
    requires t == GoalTitle || t == AcceptanceTitle || t == ScopeTitle || t == ValidationTitle
    ensures t != [] && !IsSpace(t[0]) && !IsSpace(t[|t| - 1]) && '\n' !in t
  {
  }

  lemma OneWordTitle(t: string, w: string)
    requires (t == GoalTitle && w == "goal") || (t == ValidationTitle && w == "validation")
    ensures LowerAlnumWord(w) && Lower(t) == w
  {
  }

  lemma TwoWords(a: string, b: string)
    requires (a == "acceptance" && b == "checklist") || (a == "scope" && b == "notes")
    ensures a != [] && b != [] && LowerAlnumWord(a) && LowerAlnumWord(b)
  {
  }

  lemma AcceptanceLower(t: string, a: string, b: string)
    requires t == AcceptanceTitle && a == "acceptance" && b == "checklist"
    ensures Lower(t) == a + " " + b
  {
  }

  lemma ScopeLower(t: string, a: string, b: string)
    requires t == ScopeTitle && a == "scope" && b == "notes"
    ensures Lower(t) == a + " " + b
  {
  }

  lemma JoinedName(a: string, b: string, n: string)
    requires (a == "acceptance" && b == "checklist" && n == "acceptance-checklist") ||
             (a == "scope" && b == "notes" && n == "scope-notes")
    ensures a + "-" + b == n
  {
  }

  /** `## Goal` and `## Validation` open the sections `goal` and
      `validation`. */
  lemma OneWordHeading(t: string, w: string)
    requires (t == GoalTitle && w == "goal") || (t == ValidationTitle && w == "validation")
    ensures HeadingText("## " + t) == Some(t) && NormaliseHeading(t) == w
  {
    TitleShape(t);
    HeadingOf(t);
    OneWordTitle(t, w);
    NormaliseWord(t, w);
  }

  /** `## Acceptance checklist` and `## Scope notes` open the sections
      `acceptance-checklist` and `scope-notes`. */
  lemma TwoWordHeading(t: string, a: string, b: string, n: string)
    requires (t == AcceptanceTitle && a == "acceptance" && b == "checklist" && n == "acceptance-checklist") ||
             (t == ScopeTitle && a == "scope" && b == "notes" && n == "scope-notes")
    ensures HeadingText("## " + t) == Some(t) && NormaliseHeading(t) == n
  {
    TitleShape(t);
    HeadingOf(t);
    TwoWords(a, b);
    if t == AcceptanceTitle {
      AcceptanceLower(t, a, b);
    } else {
      ScopeLower(t, a, b);
    }
    NormaliseTwoWords(t, a, b);
    JoinedName(a, b, n);
  }

  // ------------------------------------------------------------ the sections

  /** The state after the opening blank line. */
  const Doc0: Doc := Doc([Preamble], map[Preamble := [""]], Preamble)

  /** The sections the layout gives: the preamble holds the opening blank
      line, and each section its lines, in the order of the layout. */
  function LayoutDoc(c: Charter, marks: seq<char>): Doc
    requires |marks| == |c.acceptance|
  {
    Opened(Opened(Opened(Opened(Doc0, "goal", [c.goal, ""]),
                         "acceptance-checklist", BoxLines(c.acceptance, marks) + [""]),
                  "scope-notes", BulletLines(c.scopeNotes) + [""]),
           "validation", [c.validation])
  }

  lemma PreambleWalk()
    ensures Walk(StartDoc, [""]) == Doc0
  {
    assert PlainLine("");
    BodyWalk(StartDoc, [""]);
    assert StartDoc.sections[Preamble] + [""] == [""];
    assert StartDoc.sections[Preamble := [""]] == map[Preamble := [""]];
  }

  lemma BoxesPlain(items: seq<string>, marks: seq<char>)
    requires |marks| == |items|
    requires forall i :: 0 <= i < |marks| ==> IsBoxMark(marks[i]) && PlainText(items[i])
    ensures forall l :: l in BoxLines(items, marks) + [""] ==> PlainLine(l)
  {
    var boxes := BoxLines(items, marks);
    forall i | 0 <= i < |boxes| ensures PlainLine(boxes[i]) {
      BoxLineFacts(marks[i], items[i]);
    }
  }

  lemma BulletsPlain(items: seq<string>)
    requires forall i :: 0 <= i < |items| ==> PlainText(items[i])
    ensures forall l :: l in BulletLines(items) + [""] ==> PlainLine(l)
  {
    var bullets := BulletLines(items);
    forall i | 0 <= i < |bullets| ensures PlainLine(bullets[i]) {
      BulletLineFacts(items[i]);
    }
  }

  lemma GoalStep(d: Doc, body: seq<string>)
    requires "goal" !in d.sections
    requires forall l :: l in body ==> PlainLine(l)
    ensures Walk(d, Group(GoalTitle, body)) == Opened(d, "goal", body)
  {
    OneWordHeading(GoalTitle, "goal");
    GroupWalk(d, GoalTitle, "goal", body);
  }

  lemma AcceptanceStep(d: Doc, boxes: seq<string>)
    requires "acceptance-checklist" !in d.sections
    requires forall l :: l in boxes ==> PlainLine(l)
    ensures Walk(d, Group(AcceptanceTitle, boxes)) == Opened(d, "acceptance-checklist", boxes)
  {
    TwoWordHeading(AcceptanceTitle, "acceptance", "checklist", "acceptance-checklist");
    GroupWalk(d, AcceptanceTitle, "acceptance-checklist", boxes);
  }

  lemma ScopeStep(d: Doc, bullets: seq<string>)
    requires "scope-notes" !in d.sections
    requires forall l :: l in bullets ==> PlainLine(l)
    ensures Walk(d, Group(ScopeTitle, bullets)) == Opened(d, "scope-notes", bullets)
  {
    TwoWordHeading(ScopeTitle, "scope", "notes", "scope-notes");
    GroupWalk(d, ScopeTitle, "scope-notes", bullets);
  }

  lemma ValidationStep(d: Doc, body: seq<string>)
    requires "validation" !in d.sections
    requires forall l :: l in body ==> PlainLine(l)
    ensures Walk(d, Group(ValidationTitle, body)) == Opened(d, "validation", body)
  {
    OneWordHeading(ValidationTitle, "validation");
    GroupWalk(d, ValidationTitle, "validation", body);
  }

  lemma NamesDiffer(a: string, s: string, v: string)
    requires a == "acceptance-checklist" && s == "scope-notes" && v == "validation"
    ensures a != s && a != v && s != v && a != "goal" && s != "goal" && v != "goal"
    ensures a != Preamble && s != Preamble && v != Preamble && "goal" != Preamble
  {
    assert |a| == 20 && |s| == 11 && |v| == 10 && |Preamble| == 12;
  }

  /** The acceptance, scope and validation groups open their sections in
      turn. */
  lemma LastGroupsWalk(d: Doc, ab: seq<string>, sb: seq<string>, vb: seq<string>)
    requires "acceptance-checklist" !in d.sections && "scope-notes" !in d.sections && "validation" !in d.sections
    requires forall l :: l in ab ==> PlainLine(l)
    requires forall l :: l in sb ==> PlainLine(l)
    requires forall l :: l in vb ==> PlainLine(l)
    ensures Walk(d, Group(AcceptanceTitle, ab) + (Group(ScopeTitle, sb) + Group(ValidationTitle, vb))) ==
            Opened(Opened(Opened(d, "acceptance-checklist", ab), "scope-notes", sb), "validation", vb)
  {
    NamesDiffer("acceptance-checklist", "scope-notes", "validation");
    var a, s, v := Group(AcceptanceTitle, ab), Group(ScopeTitle, sb), Group(ValidationTitle, vb);
    var d2 := Opened(d, "acceptance-checklist", ab);
    var d3 := Opened(d2, "scope-notes", sb);
    WalkAppend(d, a, s + v);
    AcceptanceStep(d, ab);
    WalkAppend(d2, s, v);
    ScopeStep(d2, sb);
    ValidationStep(d3, vb);
  }

  /** Four groups of plain lines after a blank line give the preamble
      and the four sections, in order. */
  lemma GroupsWalk(gb: seq<string>, ab: seq<string>, sb: seq<string>, vb: seq<string>)
    requires forall l :: l in gb ==> PlainLine(l)
    requires forall l :: l in ab ==> PlainLine(l)
    requires forall l :: l in sb ==> PlainLine(l)
    requires forall l :: l in vb ==> PlainLine(l)
    ensures Walk(StartDoc, [""] + (Group(GoalTitle, gb) + (Group(AcceptanceTitle, ab) +
                                  (Group(ScopeTitle, sb) + Group(ValidationTitle, vb))))) ==
            Opened(Opened(Opened(Opened(Doc0, "goal", gb), "acceptance-checklist", ab), "scope-notes", sb), "validation", vb)
  {
    NamesDiffer("acceptance-checklist", "scope-notes", "validation");
    var g := Group(GoalTitle, gb);
    var rest := Group(AcceptanceTitle, ab) + (Group(ScopeTitle, sb) + Group(ValidationTitle, vb));
    var d1 := Opened(Doc0, "goal", gb);
    WalkAppend(StartDoc, [""], g + rest);
    PreambleWalk();
    WalkAppend(Doc0, g, rest);
    GoalStep(Doc0, gb);
    assert "acceptance-checklist" !in d1.sections && "scope-notes" !in d1.sections && "validation" !in d1.sections;
    LastGroupsWalk(d1, ab, sb, vb);
  }

  /** Walking the layout gives the layout's sections. */
  lemma LayoutWalk(c: Charter, marks: seq<char>)
    requires Writable(c, marks)
    ensures Walk(StartDoc, Layout(c, marks)) == LayoutDoc(c, marks)
  {
    BoxesPlain(c.acceptance, marks);
    BulletsPlain(c.scopeNotes);
    GroupsWalk([c.goal, ""], BoxLines(c.acceptance, marks) + [""], BulletLines(c.scopeNotes) + [""], [c.validation]);
  }

  // ------------------------------------------------------------ the lookups

  lemma NoNewline(l: string)
    requires NoLineBreak(l)
    ensures '\n' !in l
  {
    forall j | 0 <= j < |l| ensures l[j] != '\n' {
      assert !IsLineBreak(l[j]);
    }
  }

  lemma {:induction false} ChecklistAppend(a: seq<string>, b: seq<string>)
    ensures Checklist(a + b) == Checklist(a) + Checklist(b)
    decreases |a|
  {
    if a == [] {
      assert a + b == b;
    } else {
      assert (a + b)[0] == a[0] && (a + b)[1..] == a[1..] + b;
      var it := ChecklistItem(a[0]);
      var h := if it.Some? then [it.value] else [];
      assert Checklist(a + b) == h + Checklist(a[1..] + b);
      assert Checklist(a) == h + Checklist(a[1..]);
      ChecklistAppend(a[1..], b);
      assert h + (Checklist(a[1..]) + Checklist(b)) == (h + Checklist(a[1..])) + Checklist(b);
    }
  }

  /** Each `- [m] item` line contributes its item. */
  lemma {:induction false} ChecklistBoxes(items: seq<string>, marks: seq<char>)
    requires |marks| == |items|
    requires forall i :: 0 <= i < |marks| ==> IsBoxMark(marks[i]) && PlainText(items[i])
    ensures Checklist(BoxLines(items, marks)) == items
    decreases |items|
  {
    if items != [] {
      var r := BoxLines(items, marks);
      assert r[0] == BoxLine(marks[0], items[0]) && r[1..] == BoxLines(items[1..], marks[1..]);
      assert IsBoxMark(marks[0]) && PlainText(items[0]);
      NoNewline(items[0]);
      CheckboxItem('-', marks[0], items[0]);
      assert forall i :: 0 <= i < |marks[1..]| ==> marks[1..][i] == marks[i + 1] && items[1..][i] == items[i + 1];
      ChecklistBoxes(items[1..], marks[1..]);
    }
  }

  /** Each `- item` line contributes its item. */
  lemma {:induction false} ChecklistBullets(items: seq<string>)
    requires forall i :: 0 <= i < |items| ==> PlainText(items[i]) && items[i][0] != '['
    ensures Checklist(BulletLines(items)) == items
    decreases |items|
  {
    if items != [] {
      var r := BulletLines(items);
      assert r[0] == BulletLine(items[0]) && r[1..] == BulletLines(items[1..]);
      assert PlainText(items[0]) && items[0][0] != '[';
      NoNewline(items[0]);
      BulletItem('-', items[0]);
      assert forall i :: 0 <= i < |items[1..]| ==> items[1..][i] == items[i + 1];
      ChecklistBullets(items[1..]);
    }
  }

  lemma BlankAtEnd(lines: seq<string>)
    ensures Checklist(lines + [""]) == Checklist(lines)
  {
    ChecklistAppend(lines, [""]);
    BlankLineSkipped("");
  }

  /** The section lookups find the four sections the layout wrote. */
  lemma LookupsFind(d: Doc, gb: seq<string>, ab: seq<string>, sb: seq<string>, vb: seq<string>)
    requires d == Opened(Opened(Opened(Opened(Doc0, "goal", gb), "acceptance-checklist", ab), "scope-notes", sb), "validation", vb)
    ensures Section(d, GoalKeys) == gb && Section(d, AcceptanceKeys) == ab
    ensures Section(d, ScopeKeys) == sb && Section(d, ValidationKeys) == vb
  {
    NamesDiffer("acceptance-checklist", "scope-notes", "validation");
    assert "scope" !in d.sections by {
      assert |"scope"| == 5 && |Preamble| == 12;
    }
    assert ScopeKeys[0] == "scope" && ScopeKeys[1..] == ["scope-notes"];
    assert ExactSection(d, ScopeKeys) == ExactSection(d, ["scope-notes"]);
    assert ExactSection(d, ScopeKeys) == Some(sb);
    assert ExactSection(d, ValidationKeys) == Some(vb);
  }

  lemma OneCleanLine(l: string)
    requires PlainText(l)
    ensures CleanLines([l, ""]) == [l] && CleanLines([l]) == [l]
  {
    StripUnchanged(l);
    assert [l, ""][1..] == [""];
    assert [l][1..] == [];
  }

  /** The sections of the layout give back the charter. */
  lemma LayoutSections(c: Charter, marks: seq<char>)
    requires Writable(c, marks)
    ensures CharterOfDoc(LayoutDoc(c, marks)) == c
  {
    var boxes, bullets := BoxLines(c.acceptance, marks), BulletLines(c.scopeNotes);
    LookupsFind(LayoutDoc(c, marks), [c.goal, ""], boxes + [""], bullets + [""], [c.validation]);
    OneCleanLine(c.goal);
    OneCleanLine(c.validation);
    BlankAtEnd(boxes);
    ChecklistBoxes(c.acceptance, marks);
    BlankAtEnd(bullets);
    ChecklistBullets(c.scopeNotes);
    if c.scopeNotes == [] {
      assert bullets + [""] == [""];
      assert CleanLines([""]) == [];
    }
  }

  /** `parse_issue_body` reads a charter written in the layout back
      unchanged.  The sample body of the repository's tests is
      `Body(Charter(goal, [three items], ["src/foo/", "docs/"],
      validation), [' ', 'x', ' '])`. */
  lemma LayoutParsed(c: Charter, marks: seq<char>)
    requires Writable(c, marks)
    ensures CharterOf(Some(Body(c, marks))) == c
  {
    BodySplit(c, marks);
    LayoutWalk(c, marks);
    LayoutSections(c, marks);
  }
}
