/** Issue bodies as orchestration charters: Markdown headings split the
    body into sections, checklists become items, and the charter is turned
    back into the prompt an agent receives.  The regular expressions are
    written out as the matches Python's `re` finds for them. */
module GithubSync {
  import opened Text
  import opened JsonValue
  import opened Sorting

  datatype Issue = Issue(number: int, title: string, labels: seq<string>)

  datatype Charter = Charter(goal: string, acceptance: seq<string>, scopeNotes: seq<string>, validation: string)

  // ------------------------------------------------------------ headings

  /** `_normalise_heading`: lower-case, runs outside `[a-z0-9]` become one
      `-`, and `-` is trimmed from both ends. */
  function NormaliseHeading(text: string): (r: string)
    ensures forall i :: 0 <= i < |r| ==> IsLowerAlnum(r[i]) || r[i] == '-'
    ensures r == [] || (r[0] != '-' && r[|r| - 1] != '-')
    ensures NoDoubled(r, '-')
  {
    var sub := SubNonAlnum(Lower(text), '-');
    StripCharNoDouble(sub, '-');
    StripChar(sub, '-')
  }

  /** Normalising a normalised heading changes nothing. */
  lemma NormaliseHeadingIdempotent(text: string)
    ensures NormaliseHeading(NormaliseHeading(text)) == NormaliseHeading(text)
  {
    var r := NormaliseHeading(text);
    LowerOfLower(r);
    SubNonAlnumSingleSep(r, '-');
    assert StripChar(r, '-') == r;
  }

  lemma LowerOfLower(r: string)
    requires forall i :: 0 <= i < |r| ==> IsLowerAlnum(r[i]) || r[i] == '-'
    ensures Lower(r) == r
  {
    assert forall i :: 0 <= i < |r| ==> LowerChar(r[i]) == r[i];
  }

  /** No heading can name the `__preamble__` section. */
  lemma PreambleIsNoHeading(text: string)
    ensures NormaliseHeading(text) != Preamble
  {
    assert Preamble[0] == '_';
  }

  function HashRunEnd(s: string, i: nat): (k: nat)
    requires i <= |s|
    ensures i <= k <= |s|
    ensures forall j :: i <= j < k ==> s[j] == '#'
    ensures k < |s| ==> s[k] != '#'
    decreases |s| - i
  {
    if i < |s| && s[i] == '#' then HashRunEnd(s, i + 1) else i
  }

  /** The last position in `[lo, hi)` that is not a newline. */
  function LastNonNewline(s: string, lo: nat, hi: nat): (r: Option<nat>)
    requires lo <= hi <= |s|
    ensures r.Some? ==> lo <= r.value < hi && s[r.value] != '\n'
    decreases hi
  {
    if hi == lo then None
    else if s[hi - 1] != '\n' then Some(hi - 1)
    else LastNonNewline(s, lo, hi - 1)
  }

  /** Group 1 of `_SECTION_RE` (`^#{1,6}\s+(.+?)\s*$`), if the line is a
      heading.  The hashes must be followed by white space, so seven or
      more hashes never match; the lazy title ends where only white space
      is left, and `.` does not cross a newline. */
  function HeadingText(line: string): (r: Option<string>)
    ensures r.Some? ==> r.value != []
  {
    var n := HashRunEnd(line, 0);
    if n == 0 || n > 6 || n == |line| || !IsSpace(line[n]) then None
    else
      var e := SpaceRunEnd(line, n);
      if e < |line| then
        var title := RStrip(line[e..]);
        RStripPrefix(line[e..]);
        if '\n' in title then None else Some(title)
      else
        // Only white space follows the hashes: the title is one of its
        // characters, the last one that is not a newline, while `\s+`
        // keeps at least one.
        var p := LastNonNewline(line, n + 1, e);
        if p.Some? then Some([line[p.value]]) else None
  }

  // ------------------------------------------------------------ checklists

  /** What `(.*)$` captures from `g`: all of it, or all but a single final
      newline; None when a newline occurs earlier. */
  function DotStarToEnd(g: string): Option<string>
  {
    if '\n' !in g then Some(g)
    else if g[|g| - 1] == '\n' && '\n' !in g[..|g| - 1] then Some(g[..|g| - 1])
    else None
  }

  predicate IsBullet(c: char) { c == '-' || c == '*' || c == '+' }

  predicate IsBoxMark(c: char) { c == ' ' || c == 'x' || c == 'X' || c == '*' }

  /** Group 1 of `_CHECKBOX_RE` (`^[\-\*\+]\s*(?:\[[ xX*]\]\s*)?(.*)$`). */
  function CheckboxGroup(text: string): Option<string>
  {
    if text == [] || !IsBullet(text[0]) then None
    else
      var i := SpaceRunEnd(text, 1);
      var k := if i + 3 <= |text| && text[i] == '[' && IsBoxMark(text[i + 1]) && text[i + 2] == ']'
               then SpaceRunEnd(text, i + 3) else i;
      DotStarToEnd(text[k..])
  }

  /** The item one raw line contributes to `_parse_checklist`, if any. */
  function ChecklistItem(raw: string): (r: Option<string>)
    ensures r.Some? ==> r.value != []
  {
    var text := Strip(raw);
    if text == [] then None
    else
      var g := CheckboxGroup(text);
      var candidate := if g.Some? then Strip(g.value) else text;
      if candidate == [] then None else Some(candidate)
  }

  function Checklist(lines: seq<string>): (items: seq<string>)
    ensures |items| <= |lines|
  {
    if lines == [] then []
    else
      var it := ChecklistItem(lines[0]);
      (if it.Some? then [it.value] else []) + Checklist(lines[1..])
  }

  /** `_parse_checklist`. */
  method ParseChecklist(lines: seq<string>) returns (items: seq<string>)
    ensures items == Checklist(lines)
  {
    items := [];
    var i := 0;
    while i < |lines|
      invariant 0 <= i <= |lines|
      invariant items + Checklist(lines[i..]) == Checklist(lines)
    {
      assert lines[i..][0] == lines[i] && lines[i..][1..] == lines[i + 1..];
      var item := ChecklistItem(lines[i]);
      ghost var rest := Checklist(lines[i + 1..]);
      if item.Some? {
        AppendAssoc(items, [item.value], rest);
        items := items + [item.value];
      } else {
        assert [] + rest == rest;
      }
      i := i + 1;
    }
    assert lines[i..] == [];
  }

  /** Every checklist item is non-empty and carries no surrounding white
      space. */
  lemma {:induction false} ChecklistClean(lines: seq<string>)
    ensures forall x :: x in Checklist(lines) ==> x != [] && Strip(x) == x
    decreases |lines|
  {
    if lines != [] {
      ChecklistClean(lines[1..]);
      var text := Strip(lines[0]);
      StripIdempotent(lines[0]);
      var g := CheckboxGroup(text);
      if g.Some? {
        StripIdempotent(g.value);
      }
    }
  }

  /** A white-space line contributes nothing. */
  lemma BlankLineSkipped(raw: string)
    requires forall i :: 0 <= i < |raw| ==> IsSpace(raw[i])
    ensures ChecklistItem(raw) == None
  {
    StripEmptyIff(raw);
  }

  /** A bullet with a check box, `- [ ] item`, `* [x] item` and so on,
      contributes exactly its item. */
  lemma CheckboxItem(bullet: char, mark: char, item: string)
    requires IsBullet(bullet) && IsBoxMark(mark)
    requires item != [] && !IsSpace(item[0]) && !IsSpace(item[|item| - 1]) && '\n' !in item
    ensures ChecklistItem([bullet] + " [" + [mark] + "] " + item) == Some(item)
  {
    var line := [bullet] + " [" + [mark] + "] " + item;
    assert line[0] == bullet && !IsSpace(line[0]);
    assert line[|line| - 1] == item[|item| - 1];
    StripUnchanged(line);
    CheckboxGroupOf(bullet, mark, item);
    StripUnchanged(item);
  }

  lemma CheckboxGroupOf(bullet: char, mark: char, item: string)
    requires IsBullet(bullet) && IsBoxMark(mark) && item != [] && !IsSpace(item[0]) && '\n' !in item
    ensures CheckboxGroup([bullet] + " [" + [mark] + "] " + item) == Some(item)
  {
    var line := [bullet] + " [" + [mark] + "] " + item;
    assert SpaceRunEnd(line, 1) == 2 by { assert IsSpace(line[1]) && !IsSpace(line[2]); }
    assert line[2] == '[' && line[3] == mark && line[4] == ']';
    assert SpaceRunEnd(line, 5) == 6 by { assert IsSpace(line[5]) && line[6] == item[0]; }
    assert line[6..] == item;
  }

  /** A bullet without a box contributes the rest of its line. */
  lemma BulletItem(bullet: char, item: string)
    requires IsBullet(bullet)
    requires item != [] && !IsSpace(item[0]) && item[0] != '[' && !IsSpace(item[|item| - 1]) && '\n' !in item
    ensures ChecklistItem([bullet] + " " + item) == Some(item)
  {
    var line := [bullet] + " " + item;
    assert !IsSpace(line[0]) && line[|line| - 1] == item[|item| - 1];
    StripUnchanged(line);
    assert SpaceRunEnd(line, 1) == 2 by { assert IsSpace(line[1]) && line[2] == item[0]; }
    assert line[2..] == item;
    StripUnchanged(item);
  }

  // ------------------------------------------------------------ sections

  const Preamble: string := "__preamble__"

  /** The parsing state: section names in insertion order, their lines,
      and the name lines are being added to. */
  datatype Doc = Doc(names: seq<string>, sections: map<string, seq<string>>, current: string)

  const StartDoc: Doc := Doc([Preamble], map[Preamble := []], Preamble)

  /** Names are distinct, they are the keys of `sections`, and `current`
      is one of them. */
  ghost predicate DocValid(d: Doc)
  {
    (forall i, j :: 0 <= i < j < |d.names| ==> d.names[i] != d.names[j]) &&
    (forall n :: n in d.sections <==> n in d.names) &&
    d.current in d.sections
  }

  /** `sections.setdefault(name, [])`. */
  function SetDefault(d: Doc, name: string): (r: Doc)
    ensures name in r.sections && r.current == d.current
  {
    if name in d.sections then d else Doc(d.names + [name], d.sections[name := []], d.current)
  }

  /** One line of the walk in `parse_issue_body`. */
  function Step(d: Doc, line: string): Doc
  {
    var h := HeadingText(line);
    if h.Some? then
      var name := NormaliseHeading(h.value);
      var d1 := SetDefault(d, name);
      Doc(d1.names, d1.sections, name)
    else
      var d1 := SetDefault(d, d.current);
      Doc(d1.names, d1.sections[d.current := d1.sections[d.current] + [RStrip(line)]], d.current)
  }

  function Walk(d: Doc, lines: seq<string>): Doc
    decreases |lines|
  {
    if lines == [] then d else Walk(Step(d, lines[0]), lines[1..])
  }

  lemma SetDefaultValid(d: Doc, name: string)
    requires DocValid(d)
    ensures DocValid(SetDefault(d, name))
    ensures name in d.sections ==> SetDefault(d, name) == d
    ensures name !in d.sections ==> SetDefault(d, name).names == d.names + [name]
  {
  }

  lemma StepValid(d: Doc, line: string)
    requires DocValid(d)
    ensures DocValid(Step(d, line))
    ensures d.names <= Step(d, line).names
  {
    var h := HeadingText(line);
    if h.Some? {
      SetDefaultValid(d, NormaliseHeading(h.value));
    } else {
      SetDefaultValid(d, d.current);
    }
  }

  /** The walk keeps the state consistent and only ever adds sections. */
  lemma {:induction false} WalkValid(d: Doc, lines: seq<string>)
    requires DocValid(d)
    ensures DocValid(Walk(d, lines))
    ensures d.names <= Walk(d, lines).names
    decreases |lines|
  {
    if lines != [] {
      StepValid(d, lines[0]);
      WalkValid(Step(d, lines[0]), lines[1..]);
    }
  }

  /** The first of `keys` that names a section. */
  function ExactSection(d: Doc, keys: seq<string>): (r: Option<seq<string>>)
    ensures r.Some? ==> exists k :: k in keys && k in d.sections && r.value == d.sections[k]
  {
    if keys == [] then None
    else if keys[0] in d.sections then Some(d.sections[keys[0]])
    else ExactSection(d, keys[1..])
  }

  predicate HasKeyPrefix(name: string, keys: seq<string>)
  {
    exists k :: k in keys && StartsWith(name, k)
  }

  /** The first name, in insertion order, that starts with one of `keys`. */
  function PrefixSection(names: seq<string>, keys: seq<string>): (r: Option<string>)
    ensures r.Some? ==> r.value in names && HasKeyPrefix(r.value, keys)
    ensures r.None? ==> forall n :: n in names ==> !HasKeyPrefix(n, keys)
  {
    if names == [] then None
    else if HasKeyPrefix(names[0], keys) then Some(names[0])
    else PrefixSection(names[1..], keys)
  }

  /** `_section(keys)`: an exact name first, then a prefix match (as in
      "goal-and-background"), otherwise no lines. */
  function Section(d: Doc, keys: seq<string>): seq<string>
  {
    var exact := ExactSection(d, keys);
    if exact.Some? then exact.value
    else
      var p := PrefixSection(d.names, keys);
      if p.Some? && p.value in d.sections then d.sections[p.value] else []
  }

  /** `_clean_lines`: the stripped non-blank lines. */
  function CleanLines(lines: seq<string>): (r: seq<string>)
    ensures |r| <= |lines|
    ensures forall x :: x in r ==> x != []
  {
    if lines == [] then []
    else (if Strip(lines[0]) != [] then [Strip(lines[0])] else []) + CleanLines(lines[1..])
  }

  const GoalKeys: seq<string> := ["goal"]
  const AcceptanceKeys: seq<string> := ["acceptance-checklist", "acceptance", "acceptance-criteria"]
  const ScopeKeys: seq<string> := ["scope", "scope-notes"]
  const ScopeFallbackKeys: seq<string> := ["scope-notes", "scope-and-limits"]
  const ValidationKeys: seq<string> := ["validation", "test-plan", "tests"]

  /** The charter computed from the finished walk. */
  function CharterOfDoc(d: Doc): Charter
  {
    var scopeFirst := Section(d, ScopeKeys);
    var scopeLines := if scopeFirst != [] then scopeFirst else Section(d, ScopeFallbackKeys);
    var scopeItems := Checklist(scopeLines);
    Charter(Join(CleanLines(Section(d, GoalKeys)), " "),
            Checklist(Section(d, AcceptanceKeys)),
            if scopeItems != [] then scopeItems else CleanLines(scopeLines),
            Join(CleanLines(Section(d, ValidationKeys)), "\n"))
  }

  /** What `parse_issue_body` returns. */
  function CharterOf(body: Option<string>): Charter
  {
    CharterOfDoc(Walk(StartDoc, SplitLines(if body.Some? then body.value else "")))
  }

  /** `parse_issue_body`: the walk over the lines, switching `current` at
      each heading, then the section lookups. */
  method ParseIssueBody(body: Option<string>) returns (charter: Charter)
    ensures charter == CharterOf(body)
  {
    var text := if body.Some? then body.value else "";
    var lines := SplitLines(text);
    var names := [Preamble];
    var sections := map[Preamble := []];
    var current := Preamble;
    var i := 0;
    while i < |lines|
      invariant 0 <= i <= |lines|
      invariant Walk(Doc(names, sections, current), lines[i..]) == Walk(StartDoc, lines)
    {
      assert lines[i..][0] == lines[i] && lines[i..][1..] == lines[i + 1..];
      var heading := HeadingText(lines[i]);
      if heading.Some? {
        current := NormaliseHeading(heading.value);
        if current !in sections {
          names := names + [current];
          sections := sections[current := []];
        }
      } else {
        if current !in sections {
          names := names + [current];
          sections := sections[current := []];
        }
        sections := sections[current := sections[current] + [RStrip(lines[i])]];
      }
      i := i + 1;
    }
    assert lines[i..] == [];
    var d := Doc(names, sections, current);
    var acceptance := ParseChecklist(Section(d, AcceptanceKeys));
    var scopeLines := Section(d, ScopeKeys);
    if scopeLines == [] {
      scopeLines := Section(d, ScopeFallbackKeys);
    }
    var scopeItems := ParseChecklist(scopeLines);
    if scopeItems == [] {
      scopeItems := CleanLines(scopeLines);
    }
    charter := Charter(Join(CleanLines(Section(d, GoalKeys)), " "), acceptance, scopeItems,
                       Join(CleanLines(Section(d, ValidationKeys)), "\n"));
  }

  /** Every parsed charter has non-empty, stripped acceptance items. */
  lemma AcceptanceClean(body: Option<string>)
    ensures forall x :: x in CharterOf(body).acceptance ==> x != [] && Strip(x) == x
  {
    var d := Walk(StartDoc, SplitLines(if body.Some? then body.value else ""));
    ChecklistClean(Section(d, AcceptanceKeys));
  }

  /** An exact section name is preferred to any prefix match. */
  lemma ExactBeforePrefix(d: Doc, key: string)
    requires key in d.sections
    ensures Section(d, [key]) == d.sections[key]
  {
  }

  /** Without a matching section the lookup yields no lines. */
  lemma MissingSection(d: Doc, keys: seq<string>)
    requires DocValid(d)
    requires forall n :: n in d.names ==> !HasKeyPrefix(n, keys)
    ensures Section(d, keys) == []
  {
  }

  // ------------------------------------------------------------ the goal-only body

  const GoalOnlyBody: string := "## Goal\nShip v1.0\n"

  lemma GoalOnlyLines()
    ensures SplitLines(GoalOnlyBody) == ["## Goal", "Ship v1.0"]
  {
    var t := GoalOnlyBody;
    assert FirstBreak(t, 0) == 7 by {
      assert t[7] == '\n';
      assert forall j :: 0 <= j < 7 ==> !IsLineBreak(t[j]);
    }
    assert t[..7] == "## Goal";
    var t1 := t[8..];
    assert t1 == "Ship v1.0\n";
    ShipLine(t1);
    assert SplitLines(t) == [t[..7]] + SplitLines(t1);
  }

  lemma ShipLine(t1: string)
    requires t1 == "Ship v1.0\n"
    ensures SplitLines(t1) == ["Ship v1.0"]
  {
    assert FirstBreak(t1, 0) == 9 by {
      assert forall j :: 0 <= j < 9 ==> !IsLineBreak(t1[j]);
      assert t1[9] == '\n';
    }
    assert t1[..9] == "Ship v1.0";
    assert t1[10..] == [];
    assert SplitLines(t1) == [t1[..9]] + SplitLines([]);
  }

  lemma HeadingGoal()
    ensures HeadingText("## Goal") == Some("Goal")
  {
    var l := "## Goal";
    assert HashRunEnd(l, 0) == 2 by { assert l[0] == '#' && l[1] == '#' && l[2] == ' '; }
    assert SpaceRunEnd(l, 2) == 3 by { assert l[3] == 'G'; }
    assert l[3..] == "Goal";
    RStripNonSpaceEnd("Goal");
  }

  lemma HeadingShip()
    ensures HeadingText("Ship v1.0") == None
  {
    assert HashRunEnd("Ship v1.0", 0) == 0 by { assert "Ship v1.0"[0] == 'S'; }
  }

  lemma NormaliseGoal()
    ensures NormaliseHeading("Goal") == "goal"
  {
    assert Lower("Goal") == "goal";
    SubNonAlnumSingleSep("goal", '-');
    assert StripChar("goal", '-') == "goal";
  }

  lemma RStripNonSpaceEnd(s: string)
    requires s != [] && !IsSpace(s[|s| - 1])
    ensures RStrip(s) == s
  {
    RStripPrefix(s);
  }

  const GoalDoc: Doc := Doc([Preamble, "goal"], map[Preamble := [], "goal" := []], "goal")
  const GoalShipDoc: Doc := Doc([Preamble, "goal"], map[Preamble := [], "goal" := ["Ship v1.0"]], "goal")

  lemma StepGoal()
    ensures Step(StartDoc, "## Goal") == GoalDoc
  {
    HeadingGoal();
    NormaliseGoal();
    assert "goal" !in StartDoc.sections by { assert Preamble != "goal"; }
    HeadingOpens(StartDoc, "## Goal", "goal");
    assert StartDoc.sections["goal" := []] == GoalDoc.sections;
  }

  /** A heading line whose text normalises to a new name opens that
      section, empty, and makes it current. */
  lemma HeadingOpens(d: Doc, line: string, name: string)
    requires HeadingText(line).Some? && NormaliseHeading(HeadingText(line).value) == name
    requires name !in d.sections
    ensures Step(d, line) == Doc(d.names + [name], d.sections[name := []], name)
  {
  }

  lemma StepShip()
    ensures Step(GoalDoc, "Ship v1.0") == GoalShipDoc
  {
    HeadingShip();
    RStripNonSpaceEnd("Ship v1.0");
    assert "goal" in GoalDoc.sections;
    assert GoalDoc.sections["goal"] + [RStrip("Ship v1.0")] == ["Ship v1.0"];
    assert GoalDoc.sections["goal" := ["Ship v1.0"]] == GoalShipDoc.sections;
  }

  lemma GoalOnlyDoc()
    ensures Walk(StartDoc, ["## Goal", "Ship v1.0"]) == GoalShipDoc
  {
    StepGoal();
    StepShip();
    assert ["## Goal", "Ship v1.0"][1..] == ["Ship v1.0"];
    assert ["Ship v1.0"][1..] == [];
  }

  /** A body with only a Goal section gives that goal and empty acceptance,
      scope and validation. */
  lemma GoalOnlyCharter()
    ensures CharterOf(Some(GoalOnlyBody)) == Charter("Ship v1.0", [], [], "")
  {
    GoalOnlyLines();
    GoalOnlyDoc();
    GoalOnlySections();
  }

  lemma GoalOnlySections()
    ensures CharterOfDoc(GoalShipDoc) == Charter("Ship v1.0", [], [], "")
  {
    var d := GoalShipDoc;
    GoalSection();
    StripUnchanged("Ship v1.0");
    assert CleanLines(["Ship v1.0"]) == ["Ship v1.0"];
    OtherSectionsMissing();
  }

  lemma GoalSection()
    ensures Section(GoalShipDoc, GoalKeys) == ["Ship v1.0"]
  {
    assert "goal" in GoalShipDoc.sections;
  }

  lemma OtherSectionsMissing()
    ensures Section(GoalShipDoc, AcceptanceKeys) == []
    ensures Section(GoalShipDoc, ScopeKeys) == []
    ensures Section(GoalShipDoc, ScopeFallbackKeys) == []
    ensures Section(GoalShipDoc, ValidationKeys) == []
  {
    var d := GoalShipDoc;
    assert DocValid(d) by { assert Preamble != "goal"; }
    NoPrefixIn(d, AcceptanceKeys);
    NoPrefixIn(d, ScopeKeys);
    NoPrefixIn(d, ScopeFallbackKeys);
    NoPrefixIn(d, ValidationKeys);
    MissingSection(d, AcceptanceKeys);
    MissingSection(d, ScopeKeys);
    MissingSection(d, ScopeFallbackKeys);
    MissingSection(d, ValidationKeys);
  }

  /** Neither `__preamble__` nor `goal` starts with a key that begins with
      `a`, `s` or `t`. */
  lemma NoPrefixIn(d: Doc, keys: seq<string>)
    requires d.names == [Preamble, "goal"]
    requires forall k :: k in keys ==> k != [] && (k[0] == 'a' || k[0] == 's' || k[0] == 't' || k[0] == 'v')
    ensures forall n :: n in d.names ==> !HasKeyPrefix(n, keys)
  {
    forall n | n in d.names ensures !HasKeyPrefix(n, keys) {
      assert n[0] == '_' || n[0] == 'g';
    }
  }

  // ------------------------------------------------------------ the prompt

  /** One numbered acceptance line: `f"{idx}. {cleaned}"`. */
  function NumberedItem(idx: nat, item: string): string
  {
    NatToString(idx) + ". " + CollapseSpaces(Strip(item))
  }

  function Numbered(items: seq<string>, start: nat): (r: seq<string>)
    ensures |r| == |items|
    decreases |items|
  {
    if items == [] then [] else [NumberedItem(start, items[0])] + Numbered(items[1..], start + 1)
  }

  lemma {:induction false} NumberedAt(items: seq<string>, start: nat)
    ensures forall k :: 0 <= k < |items| ==> Numbered(items, start)[k] == NumberedItem(start + k, items[k])
    decreases |items|
  {
    if items != [] {
      NumberedAt(items[1..], start + 1);
    }
  }

  function Header(issue: Issue): string
  {
    "Work on Issue #" + IntToString(issue.number) + ": " + issue.title
  }

  function GoalPart(c: Charter): seq<string>
  {
    if c.goal != [] then ["Goal: " + CollapseSpaces(Strip(c.goal))] else []
  }

  function AcceptancePart(c: Charter): seq<string>
  {
    if c.acceptance != [] then ["Acceptance:"] + Numbered(c.acceptance, 1) else []
  }

  function ScopePart(c: Charter): seq<string>
  {
    if c.scopeNotes != [] then ["Scope: " + Join(c.scopeNotes, "; ")] else []
  }

  function ValidationPart(c: Charter): seq<string>
  {
    if c.validation != [] && Strip(c.validation) != [] then ["Validation: " + Strip(c.validation)] else []
  }

  function LabelsPart(issue: Issue): seq<string>
  {
    if issue.labels != [] then ["Labels: " + Join(SortStrings(issue.labels), ", ")] else []
  }

  /** The lines `format_issue_prompt` joins with newlines. */
  function PromptLines(issue: Issue, charter: Charter): (lines: seq<string>)
    ensures lines != [] && lines[0] == Header(issue)
  {
    [Header(issue)] + GoalPart(charter) + AcceptancePart(charter) + ScopePart(charter)
    + ValidationPart(charter) + LabelsPart(issue)
  }

  /** `format_issue_prompt`: builds the list of lines and joins it. */
  method FormatIssuePrompt(issue: Issue, charter: Charter) returns (prompt: string)
    ensures prompt == Join(PromptLines(issue, charter), "\n")
  {
    var lines := [Header(issue)];
    lines := AddGoal(lines, charter);
    lines := AddAcceptance(lines, charter);
    lines := AddScope(lines, charter);
    lines := AddValidation(lines, charter);
    lines := AddLabels(lines, issue);
    prompt := Join(lines, "\n");
  }

  /** The goal line of `format_issue_prompt`. */
  method AddGoal(lines: seq<string>, charter: Charter) returns (r: seq<string>)
    ensures r == lines + GoalPart(charter)
  {
    r := lines;
    if charter.goal != [] {
      r := r + ["Goal: " + CollapseSpaces(Strip(charter.goal))];
    }
  }

  /** The acceptance lines of `format_issue_prompt`. */
  method AddAcceptance(lines: seq<string>, charter: Charter) returns (r: seq<string>)
    ensures r == lines + AcceptancePart(charter)
  {
    r := lines;
    if charter.acceptance != [] {
      r := r + ["Acceptance:"];
      r := AppendNumbered(r, charter.acceptance);
    }
  }

  /** The scope line of `format_issue_prompt`. */
  method AddScope(lines: seq<string>, charter: Charter) returns (r: seq<string>)
    ensures r == lines + ScopePart(charter)
  {
    r := lines;
    if charter.scopeNotes != [] {
      r := r + ["Scope: " + Join(charter.scopeNotes, "; ")];
    }
  }

  /** The validation line of `format_issue_prompt`. */
  method AddValidation(lines: seq<string>, charter: Charter) returns (r: seq<string>)
    ensures r == lines + ValidationPart(charter)
  {
    r := lines;
    if charter.validation != [] {
      var validation := Strip(charter.validation);
      if validation != [] {
        r := r + ["Validation: " + validation];
      }
    }
  }

  /** The labels line of `format_issue_prompt`. */
  method AddLabels(lines: seq<string>, issue: Issue) returns (r: seq<string>)
    ensures r == lines + LabelsPart(issue)
  {
    r := lines;
    if issue.labels != [] {
      r := r + ["Labels: " + Join(SortStrings(issue.labels), ", ")];
    }
  }


  /** The `enumerate(..., start=1)` loop over the acceptance items. */
  method AppendNumbered(lines0: seq<string>, items: seq<string>) returns (lines: seq<string>)
    ensures lines == lines0 + Numbered(items, 1)
  {
    lines := lines0;
    var idx := 0;
    while idx < |items|
      invariant 0 <= idx <= |items|
      invariant lines == lines0 + Numbered(items[..idx], 1)
    {
      assert items[..idx + 1] == items[..idx] + [items[idx]];
      NumberedAppend(items[..idx], items[idx], 1);
      AppendAssoc(lines0, Numbered(items[..idx], 1), [NumberedItem(idx + 1, items[idx])]);
      lines := lines + [NumberedItem(idx + 1, items[idx])];
      idx := idx + 1;
    }
    assert items[..idx] == items;
  }

  lemma {:induction false} NumberedAppend(items: seq<string>, x: string, start: nat)
    ensures Numbered(items + [x], start) == Numbered(items, start) + [NumberedItem(start + |items|, x)]
    decreases |items|
  {
    if items == [] {
      assert [x][1..] == [];
    } else {
      assert (items + [x])[0] == items[0] && (items + [x])[1..] == items[1..] + [x];
      NumberedAppend(items[1..], x, start + 1);
    }
  }

  /** The prompt opens with "Work on Issue #N: title". */
  lemma PromptStartsWithHeader(issue: Issue, charter: Charter)
    ensures StartsWith(Join(PromptLines(issue, charter), "\n"), Header(issue))
  {
    JoinStartsWith(PromptLines(issue, charter), "\n");
  }

  /** The acceptance items follow the "Acceptance:" line, numbered from 1 in
      their order. */
  lemma AcceptanceNumbered(issue: Issue, charter: Charter)
    requires charter.acceptance != []
    ensures var lines := PromptLines(issue, charter);
            var a := if charter.goal != [] then 2 else 1;
            a + 1 + |charter.acceptance| <= |lines| &&
            lines[a..a + 1 + |charter.acceptance|] == ["Acceptance:"] + Numbered(charter.acceptance, 1)
  {
    var pre := [Header(issue)] + GoalPart(charter);
    assert |pre| == if charter.goal != [] then 2 else 1;
    MiddleAt(PromptLines(issue, charter), pre, AcceptancePart(charter),
             ScopePart(charter), ValidationPart(charter), LabelsPart(issue));
  }

  /** The lines of a middle part keep their places after a prefix. */
  lemma MiddleAt(lines: seq<string>, pre: seq<string>, mid: seq<string>, x: seq<string>, y: seq<string>, z: seq<string>)
    requires lines == pre + mid + x + y + z
    ensures |pre| + |mid| <= |lines|
    ensures lines[|pre|..|pre| + |mid|] == mid
  {
    assert lines == pre + mid + (x + y + z);
  }


  /** The last line lists the labels sorted, once each as given. */
  lemma LabelsLineSorted(issue: Issue, charter: Charter)
    requires issue.labels != []
    ensures var lines := PromptLines(issue, charter);
            lines[|lines| - 1] == "Labels: " + Join(SortStrings(issue.labels), ", ")
    ensures SortedStrings(SortStrings(issue.labels))
    ensures multiset(SortStrings(issue.labels)) == multiset(issue.labels)
  {
    SortStringsCorrect(issue.labels);
  }

  /** Upper-case letters sort before lower-case ones: the labels
      `orchestrate` and `P1` are listed as "P1, orchestrate". */
  lemma LabelsExample()
    ensures Join(SortStrings(["orchestrate", "P1"]), ", ") == "P1, orchestrate"
  {
    assert !StrLe("orchestrate", "P1") by { assert "orchestrate"[0] == 'o' && "P1"[0] == 'P'; }
    assert SortStrings(["P1"]) == ["P1"];
    assert ["orchestrate", "P1"][1..] == ["P1"];
    assert SortStrings(["orchestrate", "P1"]) == ["P1", "orchestrate"];
  }
}
