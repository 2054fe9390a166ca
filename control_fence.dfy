/** The control-fence regular expression and the two things the hub does with
    it: `finditer` (to find fenced command payloads) and `sub("", ...)`
    followed by newline collapsing and trimming (to clean text for display).

    The dashboard compiles  ```(?:json\s+)?control\s*\n(.*?)\n```  with
    DOTALL and IGNORECASE.  The core hub writes the same raw string with
    `\\s`, which in a regular expression is a literal backslash followed by
    the letter `s`; the `Escaped` variant models that pattern as written.

    The matcher follows Python's backtracking order for this pattern: the
    optional `json` group is tried first, `\s*` is greedy (so the newline
    that ends the opening line is the last one that still lets a closing
    fence be found), and `(.*?)` is lazy (the first closing fence wins). */
module ControlFence {
  import opened Text
  import opened JsonValue

  datatype Pattern =
    | Escaped   // codex_hub_core.py: `\\s` (backslash then letter s)
    | Spaced    // hub_dashboard/codex_hub_web.py: `\s` (white space)

  /** One match: text[start..end] is the whole fence and
      text[bodyStart..bodyEnd] is capture group 1. */
  datatype Match = Match(start: nat, bodyStart: nat, bodyEnd: nat, end: nat)

  predicate TicksAt(t: string, p: nat)
  {
    p + 3 <= |t| && t[p] == '`' && t[p + 1] == '`' && t[p + 2] == '`'
  }

  /** The closing delimiter "\n```" starts at `e`. */
  predicate CloseAt(t: string, e: nat)
  {
    e + 4 <= |t| && t[e] == '\n' && TicksAt(t, e + 1)
  }

  /** `(.*?)\n```` from `b`: the first closing delimiter at or after `b`. */
  function LazyClose(t: string, b: nat): (r: Option<nat>)
    requires b <= |t|
    ensures r.Some? ==> b <= r.value && CloseAt(t, r.value)
    ensures r.Some? ==> forall e :: b <= e < r.value ==> !CloseAt(t, e)
    ensures r.None? ==> forall e :: b <= e <= |t| ==> !CloseAt(t, e)
    decreases |t| - b
  {
    if CloseAt(t, b) then Some(b)
    else if b + 4 >= |t| then None
    else LazyClose(t, b + 1)
  }

  /** Characters matched by the pattern's `s` atom: white space for `\s`,
      the letter s (either case, or long s) for the escaped form. */
  predicate SChar(pat: Pattern, c: char)
  {
    match pat
    case Spaced => IsSpace(c)
    case Escaped => CiEq(c, 's')
  }

  /** End of the longest run of `SChar` characters starting at `i`. */
  function SRunEnd(pat: Pattern, t: string, i: nat): (k: nat)
    requires i <= |t|
    ensures i <= k <= |t|
    ensures forall j :: i <= j < k ==> SChar(pat, t[j])
    ensures k < |t| ==> !SChar(pat, t[k])
    decreases |t| - i
  {
    if i < |t| && SChar(pat, t[i]) then SRunEnd(pat, t, i + 1) else i
  }

  /** The atom written before `s`: nothing for `\s`, a backslash for `\\s`. */
  function Lead(pat: Pattern): string
  {
    match pat
    case Spaced => ""
    case Escaped => "\\"
  }

  predicate LeadAt(pat: Pattern, t: string, i: nat)
  {
    i + |Lead(pat)| <= |t| && t[i..i + |Lead(pat)|] == Lead(pat)
  }

  /** Position just after the word `control`, having consumed the optional
      `json<sep>+` group.  `control` begins with a letter that no `SChar`
      matches, so only the longest separator run can precede it, and the
      group is only tried when `json` is actually there: when the group
      fails, the alternative without it fails as well. */
  function AfterControl(pat: Pattern, t: string, p: nat): (r: Option<nat>)
    requires p + 3 <= |t|
    ensures r.Some? ==> p + 10 <= r.value <= |t| && CiWordAt(t, r.value - 7, "control")
  {
    var j := p + 3;
    if CiWordAt(t, j, "json") && LeadAt(pat, t, j + 4) then
      var s := j + 4 + |Lead(pat)|;
      var k := SRunEnd(pat, t, s);
      if k > s && CiWordAt(t, k, "control") then Some(k + 7) else None
    else if CiWordAt(t, j, "control") then Some(j + 7)
    else None
  }

  /** Properties every match has, whichever pattern produced it. */
  predicate WellFormed(t: string, m: Match)
  {
    m.start + 11 <= m.bodyStart <= m.bodyEnd && m.end == m.bodyEnd + 4 && m.end <= |t| &&
    TicksAt(t, m.start) && t[m.bodyStart - 1] == '\n' && CloseAt(t, m.bodyEnd) &&
    (forall e :: m.bodyStart <= e < m.bodyEnd ==> !CloseAt(t, e))
  }

  /** `\s*\n(.*?)\n``` ` after `control` at `q`, trying the newline positions
      in `[q, j)` from the greedy end downwards. */
  function SpacedTail(t: string, p: nat, q: nat, j: nat): (r: Option<Match>)
    requires p + 10 <= q <= j <= |t|
    requires TicksAt(t, p)
    ensures r.Some? ==> r.value.start == p && WellFormed(t, r.value)
    ensures r.Some? ==> q <= r.value.bodyStart - 1 < j
    decreases j - q
  {
    if j == q then None
    else
      var i := j - 1;
      if t[i] == '\n' && LazyClose(t, i + 1).Some? then
        var e := LazyClose(t, i + 1).value;
        Some(Match(p, i + 1, e, e + 4))
      else SpacedTail(t, p, q, i)
  }

  /** The leftmost-first match of the pattern starting exactly at `p`. */
  function MatchAt(pat: Pattern, t: string, p: nat): (r: Option<Match>)
    requires p <= |t|
    ensures r.Some? ==> r.value.start == p && WellFormed(t, r.value)
    ensures r.Some? && pat == Escaped ==> exists i :: p <= i < r.value.bodyStart && t[i] == '\\'
  {
    if !TicksAt(t, p) then None
    else
      var ac := AfterControl(pat, t, p);
      if ac.None? then None
      else
        var q := ac.value;
        match pat
        case Spaced =>
          SpacedTail(t, p, q, SRunEnd(Spaced, t, q))
        case Escaped =>
          if q < |t| && t[q] == '\\' then
            var k := SRunEnd(Escaped, t, q + 1);
            if k < |t| && t[k] == '\n' && LazyClose(t, k + 1).Some? then
              var e := LazyClose(t, k + 1).value;
              Some(Match(p, k + 1, e, e + 4))
            else None
          else None
  }

  /** `pattern.finditer(t)` from position `p`: leftmost matches, each search
      resuming where the previous match ended. */
  function Matches(pat: Pattern, t: string, p: nat): (ms: seq<Match>)
    requires p <= |t|
    decreases |t| - p
  {
    if p == |t| then []
    else
      var m := MatchAt(pat, t, p);
      if m.Some? then [m.value] + Matches(pat, t, m.value.end)
      else Matches(pat, t, p + 1)
  }

  /** Every element of `ms` is the match found at its start, at or after
      `p`. */
  predicate FoundMatches(pat: Pattern, t: string, p: nat, ms: seq<Match>)
  {
    forall i :: 0 <= i < |ms| ==> p <= ms[i].start <= |t| && MatchAt(pat, t, ms[i].start) == Some(ms[i])
  }

  /** The matches are in text order and do not overlap. */
  predicate Ordered(ms: seq<Match>)
  {
    forall i, j :: 0 <= i < j < |ms| ==> ms[i].start < ms[i].end <= ms[j].start
  }

  lemma {:induction false} MatchesFound(pat: Pattern, t: string, p: nat)
    requires p <= |t|
    ensures FoundMatches(pat, t, p, Matches(pat, t, p))
    decreases |t| - p
  {
    if p < |t| {
      var m := MatchAt(pat, t, p);
      var ms := Matches(pat, t, p);
      if m.Some? {
        MatchesFound(pat, t, m.value.end);
        var rest := Matches(pat, t, m.value.end);
        assert ms == [m.value] + rest;
        forall i | 0 <= i < |ms|
          ensures p <= ms[i].start <= |t| && MatchAt(pat, t, ms[i].start) == Some(ms[i])
        {
          if i > 0 {
            assert ms[i] == rest[i - 1];
          }
        }
      } else {
        MatchesFound(pat, t, p + 1);
        assert ms == Matches(pat, t, p + 1);
      }
    }
  }

  lemma {:induction false} MatchesOrdered(pat: Pattern, t: string, p: nat)
    requires p <= |t|
    ensures Ordered(Matches(pat, t, p))
    ensures forall i :: 0 <= i < |Matches(pat, t, p)| ==> p <= Matches(pat, t, p)[i].start
    decreases |t| - p
  {
    if p < |t| {
      var m := MatchAt(pat, t, p);
      var ms := Matches(pat, t, p);
      if m.Some? {
        var e := m.value.end;
        assert p < e <= |t|;
        MatchesOrdered(pat, t, e);
        var rest := Matches(pat, t, e);
        assert ms == [m.value] + rest;
        OrderedCons(m.value, rest);
      } else {
        MatchesOrdered(pat, t, p + 1);
        assert ms == Matches(pat, t, p + 1);
      }
    }
  }

  /** A match that ends before every later match starts extends an ordered
      sequence of them. */
  lemma OrderedCons(m: Match, rest: seq<Match>)
    requires m.start < m.end
    requires Ordered(rest)
    requires forall i :: 0 <= i < |rest| ==> m.end <= rest[i].start
    ensures Ordered([m] + rest)
    ensures forall i :: 0 <= i < |[m] + rest| ==> m.start <= ([m] + rest)[i].start
  {
    var ms := [m] + rest;
    if !Ordered(ms) {
      var i, j :| 0 <= i < j < |ms| && !(ms[i].start < ms[i].end <= ms[j].start);
      OrderedPair(m, rest, i, j);
      assert false;
    }
    forall i | 0 < i < |ms| ensures m.start <= ms[i].start {
      assert ms[i] == rest[i - 1];
    }
  }

  /** One pair of positions of `OrderedCons`. */
  lemma OrderedPair(m: Match, rest: seq<Match>, i: int, j: int)
    requires m.start < m.end
    requires Ordered(rest)
    requires forall i :: 0 <= i < |rest| ==> m.end <= rest[i].start
    requires 0 <= i < j < |rest| + 1
    ensures ([m] + rest)[i].start < ([m] + rest)[i].end <= ([m] + rest)[j].start
  {
    var ms := [m] + rest;
    assert ms[j] == rest[j - 1];
    if i > 0 {
      assert ms[i] == rest[i - 1];
    }
  }

  /** `pattern.sub("", t[p..])`: the text with every match removed. */
  function Sub(pat: Pattern, t: string, p: nat): (r: string)
    requires p <= |t|
    ensures |r| <= |t| - p
    decreases |t| - p
  {
    if p == |t| then []
    else
      var m := MatchAt(pat, t, p);
      if m.Some? then Sub(pat, t, m.value.end)
      else [t[p]] + Sub(pat, t, p + 1)
  }

  /** Capture group 1 of a match. */
  function Body(t: string, m: Match): string
  {
    if m.bodyStart <= m.bodyEnd <= |t| then t[m.bodyStart..m.bodyEnd] else ""
  }

  /** Capture group 1 of every match, in text order. */
  function Bodies(t: string, ms: seq<Match>): (bs: seq<string>)
    ensures |bs| == |ms|
  {
    seq(|ms|, i requires 0 <= i < |ms| => Body(t, ms[i]))
  }

  /** `re.sub(r"\n{2,}", "\n", s)`: every run of newlines becomes one. */
  function CollapseNewlines(s: string): (r: string)
    ensures forall i :: 0 <= i < |r| - 1 ==> !(r[i] == '\n' && r[i + 1] == '\n')
    ensures s != [] ==> r != [] && (r[0] == '\n' <==> s[0] == '\n')
    ensures (forall i :: 0 <= i < |s| - 1 ==> !(s[i] == '\n' && s[i + 1] == '\n')) ==> r == s
    decreases |s|
  {
    if s == [] then []
    else if s[0] == '\n' then "\n" + CollapseNewlines(s[NewlineRunEnd(s, 0)..])
    else [s[0]] + CollapseNewlines(s[1..])
  }

  function NewlineRunEnd(s: string, i: nat): (k: nat)
    requires i < |s| && s[i] == '\n'
    ensures i < k <= |s|
    ensures k < |s| ==> s[k] != '\n'
    ensures forall j :: i <= j < k ==> s[j] == '\n'
    decreases |s| - i
  {
    if i + 1 < |s| && s[i + 1] == '\n' then NewlineRunEnd(s, i + 1) else i + 1
  }

  /** `strip_control_blocks`: remove fences, collapse blank lines, trim. */
  function StripControlBlocks(pat: Pattern, text: string): (r: string)
    ensures text == [] ==> r == []
    ensures r == [] || (!IsSpace(r[0]) && !IsSpace(r[|r| - 1]))
    ensures forall i :: 0 <= i < |r| - 1 ==> !(r[i] == '\n' && r[i + 1] == '\n')
  {
    if text == [] then []
    else
      var c := CollapseNewlines(Sub(pat, text, 0));
      StripEnds(c);
      StripBlankLines(c);
      Strip(c)
  }

  /** A slice of text without two adjacent newlines has none either. */
  lemma StripBlankLines(c: string)
    requires forall i :: 0 <= i < |c| - 1 ==> !(c[i] == '\n' && c[i + 1] == '\n')
    ensures forall i :: 0 <= i < |Strip(c)| - 1 ==> !(Strip(c)[i] == '\n' && Strip(c)[i + 1] == '\n')
  {
    StripInfix(c);
    var a := |c| - |LStrip(c)|;
    var r := Strip(c);
    forall i | 0 <= i < |r| - 1 ensures !(r[i] == '\n' && r[i + 1] == '\n') {
      assert r[i] == c[a + i] && r[i + 1] == c[a + i + 1];
    }
  }

  // ------------------------------------------------------------ properties

  /** In the core hub's pattern every match needs a backslash, so text
      without one has no fenced payloads at all. */
  lemma EscapedNeedsBackslash(t: string, p: nat)
    requires p <= |t|
    requires forall i :: 0 <= i < |t| ==> t[i] != '\\'
    ensures Matches(Escaped, t, p) == []
    ensures Sub(Escaped, t, p) == t[p..]
    decreases |t| - p
  {
    if p < |t| {
      match MatchAt(Escaped, t, p)
      case None =>
        EscapedNeedsBackslash(t, p + 1);
        assert t[p..] == [t[p]] + t[p + 1..];
      case Some(m) =>
        assert false;
    }
  }

  /** The fence text an agent is told to write. */
  function Fence(body: string): string
  {
    "```control\n" + body + "\n```"
  }

  /** The body of a plain fence is non-empty, does not open with white
      space (which `\s*` would take) and contains no newline. */
  predicate PlainBody(body: string)
  {
    body != [] && !IsSpace(body[0]) && NoLineBreak(body)
  }

  /** The dashboard's pattern matches a plain fence and captures its body. */
  lemma {:induction false} SpacedMatchesFence(body: string)
    requires PlainBody(body)
    ensures MatchAt(Spaced, Fence(body), 0) == Some(Match(0, 11, 11 + |body|, |Fence(body)|))
  {
    var t := Fence(body);
    assert t[..11] == "```control\n";
    assert t[3] == 'c';
    assert CiWordAt(t, 3, "control");
    assert !CiWordAt(t, 3, "json") by { assert "json"[0] == 'j'; assert !CiEq(t[3], 'j'); }
    assert AfterControl(Spaced, t, 0) == Some(10);
    assert SRunEnd(Spaced, t, 11) == 11 by {
      assert t[11] == body[0];
    }
    assert SRunEnd(Spaced, t, 10) == 11;
    var e := 11 + |body|;
    assert CloseAt(t, e);
    assert forall x :: 11 <= x < e ==> !CloseAt(t, x) by {
      forall x | 11 <= x < e ensures !CloseAt(t, x) {
        assert t[x] == body[x - 11];
      }
    }
    LazyCloseFirst(t, 11, e);
  }

  /** `LazyClose` finds the only closing delimiter in the searched range. */
  lemma LazyCloseFirst(t: string, b: nat, e: nat)
    requires b <= e && CloseAt(t, e)
    requires forall x :: b <= x < e ==> !CloseAt(t, x)
    ensures LazyClose(t, b) == Some(e)
  {
  }

  /** A whole plain fence is removed for display by the dashboard. */
  lemma SpacedStripsFence(body: string)
    requires PlainBody(body)
    ensures Matches(Spaced, Fence(body), 0) == [Match(0, 11, 11 + |body|, |Fence(body)|)]
    ensures Sub(Spaced, Fence(body), 0) == []
    ensures StripControlBlocks(Spaced, Fence(body)) == []
  {
    SpacedMatchesFence(body);
    var t := Fence(body);
    assert Matches(Spaced, t, 0) == [Match(0, 11, 11 + |body|, |t|)] + Matches(Spaced, t, |t|);
  }

  /** The core hub's pattern does not match a plain fence: the fence is left
      in the text shown to the operator. */
  lemma EscapedMissesFence(body: string)
    requires PlainBody(body)
    requires forall i :: 0 <= i < |body| ==> body[i] != '\\'
    ensures Matches(Escaped, Fence(body), 0) == []
    ensures Sub(Escaped, Fence(body), 0) == Fence(body)
  {
    var t := Fence(body);
    forall i | 0 <= i < |t| ensures t[i] != '\\' {
      if 11 <= i < 11 + |body| {
        assert t[i] == body[i - 11];
      }
    }
    EscapedNeedsBackslash(t, 0);
  }

  /** The core hub's pattern does match the fence whose opening line
      literally reads "control\s" plus a newline. */
  lemma EscapedMatchesLiteral(body: string)
    requires PlainBody(body)
    ensures MatchAt(Escaped, "```control\\s\n" + body + "\n```", 0).Some?
  {
    var t := "```control\\s\n" + body + "\n```";
    assert t[..13] == "```control\\s\n";
    assert t[3] == 'c';
    assert !CiWordAt(t, 3, "json") by { assert "json"[0] == 'j'; assert !CiEq(t[3], 'j'); }
    assert CiWordAt(t, 3, "control");
    assert SRunEnd(Escaped, t, 12) == 12;
    assert SRunEnd(Escaped, t, 11) == 12;
    var e := 13 + |body|;
    assert CloseAt(t, e);
    assert forall x :: 13 <= x < e ==> !CloseAt(t, x) by {
      forall x | 13 <= x < e ensures !CloseAt(t, x) {
        assert t[x] == body[x - 13];
      }
    }
    LazyCloseFirst(t, 13, e);
  }
}
