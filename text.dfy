/** Python `str` behaviour that the orchestration code relies on: whitespace
    (`str.isspace`, regex `\s`), `strip`, `lower`, `splitlines`, `join`,
    `startswith`, substring tests, and `str(int)` / `int(digits)`. */
module Text {

  /** `str.isspace()` and `re`'s `\s` on `str` patterns. */
  predicate IsSpace(c: char)
  {
    c == ' ' || ('\t' <= c <= '\r') || (0x1c <= c as int <= 0x1f) || c as int == 0x85 ||
    c as int == 0xa0 || c as int == 0x1680 || (0x2000 <= c as int <= 0x200a) ||
    c as int == 0x2028 || c as int == 0x2029 || c as int == 0x202f || c as int == 0x205f ||
    c as int == 0x3000
  }

  /** The line boundaries of `str.splitlines()`. */
  predicate IsLineBreak(c: char)
  {
    c == '\n' || c == '\r' || c as int == 0x0b || c as int == 0x0c || (0x1c <= c as int <= 0x1e) ||
    c as int == 0x85 || c as int == 0x2028 || c as int == 0x2029
  }

  predicate IsDigit(c: char) { '0' <= c <= '9' }

  predicate IsLowerAlnum(c: char) { ('a' <= c <= 'z') || IsDigit(c) }

  predicate AllDigits(s: string) { forall i :: 0 <= i < |s| ==> IsDigit(s[i]) }

  /** `str.lower()` of one character, exact for every character whose
      lower case is an ASCII letter except U+0130, whose lower case is two
      characters long: the ASCII capitals and U+212A (Kelvin sign). */
  function LowerChar(c: char): char
  {
    if 'A' <= c <= 'Z' then (c as int + 32) as char
    else if c as int == 0x212a then 'k'
    else c
  }

  /** `str.lower()`, character by character as `LowerChar` gives it. */
  function Lower(s: string): (r: string)
    ensures |r| == |s|
    ensures forall i :: 0 <= i < |s| ==> r[i] == LowerChar(s[i])
  {
    seq(|s|, i requires 0 <= i < |s| => LowerChar(s[i]))
  }

  lemma LowerIdempotent(s: string)
    ensures Lower(Lower(s)) == Lower(s)
  {
  }

  lemma LowerConcat(a: string, b: string)
    ensures Lower(a + b) == Lower(a) + Lower(b)
  {
  }

  /** `re.IGNORECASE` equality of an input character with a lower-case
      pattern letter.  Besides the ASCII upper case, Python's `re` folds
      U+017F (long s) onto `s`, U+212A (Kelvin sign) onto `k`, and U+0130
      and U+0131 (dotted capital and dotless i) onto `i`. */
  predicate CiEq(c: char, l: char)
  {
    c == l || (('a' <= l <= 'z') && c as int == l as int - 32) || (l == 's' && c as int == 0x17f) ||
    (l == 'k' && c as int == 0x212a) || (l == 'i' && (c as int == 0x130 || c as int == 0x131))
  }

  /** The lower-case pattern word `w` matches `t` at `p`, ignoring case. */
  predicate CiWordAt(t: string, p: nat, w: string)
  {
    p + |w| <= |t| && forall i :: 0 <= i < |w| ==> CiEq(t[p + i], w[i])
  }

  predicate StartsWith(s: string, p: string)
  {
    |p| <= |s| && s[..|p|] == p
  }

  predicate EndsWith(s: string, p: string)
  {
    |p| <= |s| && s[|s| - |p|..] == p
  }

  /** Python's `sub in s`. */
  predicate Contains(s: string, sub: string)
    decreases |s|
  {
    StartsWith(s, sub) || (s != [] && Contains(s[1..], sub))
  }

  lemma ContainsAt(s: string, sub: string, i: nat)
    requires i + |sub| <= |s| && s[i..i + |sub|] == sub
    ensures Contains(s, sub)
    decreases i
  {
    if i > 0 {
      assert s[1..][i - 1..i - 1 + |sub|] == s[i..i + |sub|];
      ContainsAt(s[1..], sub, i - 1);
    }
  }

  // ---------------------------------------------------------------- strip

  function LStrip(s: string): (r: string)
    ensures |r| <= |s|
    ensures r == [] || !IsSpace(r[0])
  {
    if s != [] && IsSpace(s[0]) then LStrip(s[1..]) else s
  }

  function RStrip(s: string): (r: string)
    ensures |r| <= |s|
    ensures r == [] || !IsSpace(r[|r| - 1])
  {
    if s != [] && IsSpace(s[|s| - 1]) then RStrip(s[..|s| - 1]) else s
  }

  /** `LStrip(s)` is a suffix of `s`, after white space only. */
  lemma LStripSuffix(s: string)
    ensures LStrip(s) == s[|s| - |LStrip(s)|..]
    ensures forall i :: 0 <= i < |s| - |LStrip(s)| ==> IsSpace(s[i])
  {
  }

  /** `RStrip(s)` is a prefix of `s`, followed by white space only. */
  lemma RStripPrefix(s: string)
    ensures RStrip(s) == s[..|RStrip(s)|]
    ensures forall i :: |RStrip(s)| <= i < |s| ==> IsSpace(s[i])
  {
  }

  /** `str.strip()`: the longest infix with no white space at either end. */
  function Strip(s: string): (r: string)
    ensures |r| <= |s|
  {
    RStrip(LStrip(s))
  }

  /** Neither end of `Strip(s)` is white space. */
  lemma StripEnds(s: string)
    ensures Strip(s) == [] || (!IsSpace(Strip(s)[0]) && !IsSpace(Strip(s)[|Strip(s)| - 1]))
  {
    RStripPrefix(LStrip(s));
  }

  lemma StripUnchanged(s: string)
    requires s == [] || (!IsSpace(s[0]) && !IsSpace(s[|s| - 1]))
    ensures Strip(s) == s
  {
  }

  lemma StripIdempotent(s: string)
    ensures Strip(Strip(s)) == Strip(s)
  {
    StripEnds(s);
    StripUnchanged(Strip(s));
  }

  /** `Strip(s)` is empty exactly when `s` is all white space. */
  lemma StripEmptyIff(s: string)
    ensures Strip(s) == [] <==> forall i :: 0 <= i < |s| ==> IsSpace(s[i])
  {
    var l := LStrip(s);
    LStripSuffix(s);
    RStripPrefix(l);
    assert l == s[|s| - |l|..];
  }

  /** `Strip(s)` is the slice of `s` that starts after its leading white space. */
  lemma StripInfix(s: string)
    ensures |s| - |LStrip(s)| + |Strip(s)| <= |s|
    ensures Strip(s) == s[|s| - |LStrip(s)|..|s| - |LStrip(s)| + |Strip(s)|]
  {
    var l := LStrip(s);
    var a := |s| - |l|;
    LStripSuffix(s);
    RStripPrefix(l);
    assert l == s[a..];
    assert Strip(s) == l[..|Strip(s)|];
  }

  /** `str.strip(c)` for a single character `c`. */
  function StripChar(s: string, c: char): (r: string)
    ensures |r| <= |s|
    ensures r == [] || (r[0] != c && r[|r| - 1] != c)
    ensures forall i :: 0 <= i < |r| ==> r[i] in s
    ensures (s == [] || (s[0] != c && s[|s| - 1] != c)) ==> r == s
    decreases |s|
  {
    if s != [] && s[0] == c then StripChar(s[1..], c)
    else if s != [] && s[|s| - 1] == c then StripChar(s[..|s| - 1], c)
    else s
  }

  /** No two adjacent characters of `s` are both `c`. */
  predicate NoDoubled(s: string, c: char)
  {
    forall i :: 0 <= i < |s| - 1 ==> !(s[i] == c && s[i + 1] == c)
  }

  /** Stripping a character keeps a text free of doubled `c`. */
  lemma {:induction false} StripCharNoDouble(s: string, c: char)
    requires NoDoubled(s, c)
    ensures NoDoubled(StripChar(s, c), c)
    decreases |s|
  {
    if s != [] && s[0] == c {
      StripCharNoDouble(s[1..], c);
    } else if s != [] && s[|s| - 1] == c {
      StripCharNoDouble(s[..|s| - 1], c);
    }
  }

  // ---------------------------------------------------------------- lines

  /** Index of the first line boundary at or after `i`, or `|s|`. */
  function FirstBreak(s: string, i: nat): (k: nat)
    requires i <= |s|
    ensures i <= k <= |s|
    ensures k < |s| ==> IsLineBreak(s[k])
    ensures forall j :: i <= j < k ==> !IsLineBreak(s[j])
    decreases |s| - i
  {
    if i == |s| || IsLineBreak(s[i]) then i else FirstBreak(s, i + 1)
  }

  /** Length of the boundary at `k`: "\r\n" counts as one boundary. */
  function BreakLen(s: string, k: nat): nat
    requires k < |s|
  {
    if s[k] == '\r' && k + 1 < |s| && s[k + 1] == '\n' then 2 else 1
  }

  predicate NoLineBreak(line: string)
  {
    forall j :: 0 <= j < |line| ==> !IsLineBreak(line[j])
  }

  /** `str.splitlines()`: boundaries are dropped, and no empty line follows a
      final boundary. */
  function SplitLines(s: string): (lines: seq<string>)
    decreases |s|
  {
    if s == [] then []
    else
      var k := FirstBreak(s, 0);
      if k == |s| then [s]
      else [s[..k]] + SplitLines(s[k + BreakLen(s, k)..])
  }

  /** No line keeps a boundary character, and only empty text has no lines. */
  lemma {:induction false} SplitLinesNoBreak(s: string)
    ensures s == [] <==> SplitLines(s) == []
    ensures forall l :: l in SplitLines(s) ==> NoLineBreak(l)
    decreases |s|
  {
    if s != [] {
      var k := FirstBreak(s, 0);
      if k < |s| {
        SplitLinesNoBreak(s[k + BreakLen(s, k)..]);
      }
    }
  }

  /** Text without any line boundary is a single line. */
  lemma SplitLinesSingle(s: string)
    requires s != [] && NoLineBreak(s)
    ensures SplitLines(s) == [s]
  {
    assert FirstBreak(s, 0) == |s|;
  }

  /** A line without a boundary, then a newline, is the first line. */
  lemma SplitLinesCons(l: string, rest: string)
    requires NoLineBreak(l)
    ensures SplitLines(l + "\n" + rest) == [l] + SplitLines(rest)
  {
    var s := l + "\n" + rest;
    assert s[|l|] == '\n';
    assert forall j :: 0 <= j < |l| ==> s[j] == l[j];
    assert FirstBreak(s, 0) == |l|;
    assert s[..|l|] == l;
    assert s[|l| + 1..] == rest;
  }

  function Join(parts: seq<string>, sep: string): string
  {
    if |parts| == 0 then ""
    else if |parts| == 1 then parts[0]
    else parts[0] + sep + Join(parts[1..], sep)
  }

  lemma JoinAppend(parts: seq<string>, last: string, sep: string)
    requires parts != []
    ensures Join(parts + [last], sep) == Join(parts, sep) + sep + last
  {
    if |parts| == 1 {
      assert parts + [last] == [parts[0], last];
    } else {
      assert (parts + [last])[1..] == parts[1..] + [last];
      JoinAppend(parts[1..], last, sep);
    }
  }

  /** The first element of a join is a prefix of the joined text. */
  lemma JoinStartsWith(parts: seq<string>, sep: string)
    requires parts != []
    ensures StartsWith(Join(parts, sep), parts[0])
  {
  }

  /** Index of the first `c` at or after `i`, or `|s|`. */
  function IndexOf(s: string, c: char, i: nat): (k: nat)
    requires i <= |s|
    ensures i <= k <= |s|
    ensures k < |s| ==> s[k] == c
    ensures forall j :: i <= j < k ==> s[j] != c
    decreases |s| - i
  {
    if i == |s| || s[i] == c then i else IndexOf(s, c, i + 1)
  }

  /** `s.split(c)` for a one-character separator. */
  function Split(s: string, c: char): (parts: seq<string>)
    ensures |parts| >= 1
    ensures forall p :: p in parts ==> c !in p
    decreases |s|
  {
    var k := IndexOf(s, c, 0);
    if k == |s| then [s] else [s[..k]] + Split(s[k + 1..], c)
  }

  /** Splitting and joining again with the separator restores the text. */
  lemma {:induction false} SplitJoin(s: string, c: char)
    ensures Join(Split(s, c), [c]) == s
    decreases |s|
  {
    var k := IndexOf(s, c, 0);
    if k < |s| {
      SplitJoin(s[k + 1..], c);
      var rest := Split(s[k + 1..], c);
      assert Split(s, c) == [s[..k]] + rest;
      assert s == s[..k] + [c] + s[k + 1..];
    }
  }

  /** `os.path.basename`: the text after the last `/`. */
  function Basename(path: string): (b: string)
    ensures '/' !in b
  {
    var parts := Split(path, '/');
    parts[|parts| - 1]
  }

  /** A path without `/` is its own base name. */
  lemma BasenamePlain(path: string)
    requires '/' !in path
    ensures Basename(path) == path
  {
    assert IndexOf(path, '/', 0) == |path|;
  }

  // ---------------------------------------------------------------- numbers

  function DigitChar(d: nat): char
    requires d < 10
  {
    (48 + d) as char
  }

  function DigitValue(c: char): nat
    requires IsDigit(c)
  {
    c as int - 48
  }

  /** `int(s)` on a string of ASCII decimal digits. */
  function DigitsValue(s: string): nat
    requires AllDigits(s)
    decreases |s|
  {
    if s == [] then 0 else DigitsValue(s[..|s| - 1]) * 10 + DigitValue(s[|s| - 1])
  }

  /** `str(n)` for a natural number. */
  function NatToString(n: nat): (r: string)
    ensures r != [] && AllDigits(r)
    ensures |r| > 1 ==> r[0] != '0'
    decreases n
  {
    if n < 10 then [DigitChar(n)] else NatToString(n / 10) + [DigitChar(n % 10)]
  }

  /** Decimal rendering is undone by `int(...)`. */
  lemma {:induction false} NatToStringRoundTrip(n: nat)
    ensures DigitsValue(NatToString(n)) == n
  {
    if n >= 10 {
      var s := NatToString(n);
      assert s[..|s| - 1] == NatToString(n / 10);
      NatToStringRoundTrip(n / 10);
    }
  }

  /** Different numbers render differently. */
  lemma NatToStringInjective(m: nat, n: nat)
    requires NatToString(m) == NatToString(n)
    ensures m == n
  {
    NatToStringRoundTrip(m);
    NatToStringRoundTrip(n);
  }

  /** `str(i)` for any integer. */
  function IntToString(i: int): (r: string)
    ensures r != []
    ensures i >= 0 ==> AllDigits(r)
    ensures i < 0 ==> r[0] == '-' && AllDigits(r[1..])
  {
    if i < 0 then "-" + NatToString(-i) else NatToString(i)
  }

  /** Python's `bool` rendering. */
  function BoolToString(b: bool): string
  {
    if b then "True" else "False"
  }

  /** Length of the longest prefix of `s[i..]` whose characters satisfy `IsDigit`. */
  function DigitRunEnd(s: string, i: nat): (k: nat)
    requires i <= |s|
    ensures i <= k <= |s|
    ensures forall j :: i <= j < k ==> IsDigit(s[j])
    ensures k < |s| ==> !IsDigit(s[k])
    decreases |s| - i
  {
    if i < |s| && IsDigit(s[i]) then DigitRunEnd(s, i + 1) else i
  }

  /** End of the run of white space starting at `i`. */
  function SpaceRunEnd(s: string, i: nat): (k: nat)
    requires i <= |s|
    ensures i <= k <= |s|
    ensures forall j :: i <= j < k ==> IsSpace(s[j])
    ensures k < |s| ==> !IsSpace(s[k])
    decreases |s| - i
  {
    if i < |s| && IsSpace(s[i]) then SpaceRunEnd(s, i + 1) else i
  }

  /** `re.sub(r"\s+", " ", s)`: every run of white space becomes one blank. */
  function CollapseSpaces(s: string): (r: string)
    ensures forall i :: 0 <= i < |r| ==> (IsSpace(r[i]) ==> r[i] == ' ')
    ensures forall i :: 0 <= i < |r| - 1 ==> !(IsSpace(r[i]) && IsSpace(r[i + 1]))
    ensures (forall i :: 0 <= i < |s| ==> !IsSpace(s[i])) ==> r == s
    ensures s != [] ==> r != [] && (IsSpace(r[0]) <==> IsSpace(s[0]))
    decreases |s|
  {
    if s == [] then []
    else if IsSpace(s[0]) then " " + CollapseSpaces(s[SpaceRunEnd(s, 0)..])
    else [s[0]] + CollapseSpaces(s[1..])
  }

  /** `re.sub(r"[^a-z0-9]+", sep, s)`: every run of characters outside
      `[a-z0-9]` becomes one `sep`. */
  function SubNonAlnum(s: string, sep: char): (r: string)
    requires !IsLowerAlnum(sep)
    ensures forall i :: 0 <= i < |r| ==> IsLowerAlnum(r[i]) || r[i] == sep
    ensures NoDoubled(r, sep)
    ensures s != [] ==> r != [] && (r[0] == sep <==> !IsLowerAlnum(s[0]))
    decreases |s|
  {
    if s == [] then []
    else if IsLowerAlnum(s[0]) then [s[0]] + SubNonAlnum(s[1..], sep)
    else [sep] + SubNonAlnum(s[NonAlnumRunEnd(s, 0)..], sep)
  }

  function NonAlnumRunEnd(s: string, i: nat): (k: nat)
    requires i <= |s|
    ensures i <= k <= |s|
    ensures k < |s| ==> IsLowerAlnum(s[k])
    decreases |s| - i
  {
    if i < |s| && !IsLowerAlnum(s[i]) then NonAlnumRunEnd(s, i + 1) else i
  }

  /** Text made of `[a-z0-9]` and single separators is left alone. */
  lemma {:induction false} SubNonAlnumSingleSep(s: string, sep: char)
    requires !IsLowerAlnum(sep)
    requires forall i :: 0 <= i < |s| ==> IsLowerAlnum(s[i]) || s[i] == sep
    requires NoDoubled(s, sep)
    ensures SubNonAlnum(s, sep) == s
    decreases |s|
  {
    if s != [] {
      SubNonAlnumSingleSep(s[1..], sep);
      if !IsLowerAlnum(s[0]) {
        assert NonAlnumRunEnd(s, 0) == 1 by {
          assert |s| > 1 ==> IsLowerAlnum(s[1]);
        }
      }
      assert s == [s[0]] + s[1..];
    }
  }

  /** Concatenation regroups freely. */
  lemma AppendAssoc<T>(a: seq<T>, b: seq<T>, c: seq<T>)
    ensures a + (b + c) == (a + b) + c
  {
  }
}
