/** The hub's two pure helpers: `normalise_agent_name`, which turns whatever
    name an orchestrator gives into a registry key, and `Hub._parse_duration`,
    which reads the check-in and budget options given as `"10m"`, `"45m"`. */
module HubNames {
  import opened Text
  import opened JsonValue

  // ------------------------------------------------------------ agent names

  const FallbackName: string := "agent"

  /** What a registry key looks like: non-empty, made of `[a-z0-9_]`,
      with no `_` at either end and never two in a row. */
  predicate IsAgentKey(r: string)
  {
    r != [] && (forall i :: 0 <= i < |r| ==> IsLowerAlnum(r[i]) || r[i] == '_') &&
    r[0] != '_' && r[|r| - 1] != '_' && NoDoubled(r, '_')
  }

  /** `re.sub(r"[^a-z0-9]+", "_", (name or "").lower()).strip("_") or "agent"`. */
  function NormaliseAgentName(name: Option<string>): (r: string)
    ensures IsAgentKey(r)
  {
    var text := if name.Some? then name.value else "";
    var sub := SubNonAlnum(Lower(text), '_');
    StripCharNoDouble(sub, '_');
    var token := StripChar(sub, '_');
    if token == [] then
      assert FallbackName[0] == 'a' && FallbackName[4] == 't';
      FallbackName
    else token
  }

  /** Text already made of `[a-z0-9_]` is its own lower case. */
  lemma LowerOfKey(r: string)
    requires forall i :: 0 <= i < |r| ==> IsLowerAlnum(r[i]) || r[i] == '_'
    ensures Lower(r) == r
  {
    assert forall i :: 0 <= i < |r| ==> LowerChar(r[i]) == r[i];
  }

  /** A key that `NormaliseAgentName` produced normalises to itself, so the
      hub finds an agent again under the key it was stored with. */
  lemma NormaliseIdempotent(name: Option<string>)
    ensures NormaliseAgentName(Some(NormaliseAgentName(name))) == NormaliseAgentName(name)
  {
    var r := NormaliseAgentName(name);
    LowerOfKey(r);
    SubNonAlnumSingleSep(r, '_');
    assert StripChar(r, '_') == r;
  }

  /** Every key a name can turn into is itself a fixed point. */
  lemma KeyIsFixedPoint(r: string)
    requires IsAgentKey(r)
    ensures NormaliseAgentName(Some(r)) == r
  {
    LowerOfKey(r);
    SubNonAlnumSingleSep(r, '_');
    assert StripChar(r, '_') == r;
  }

  /** A missing name and a name without letters or digits both become "agent". */
  lemma MissingNameIsAgent()
    ensures NormaliseAgentName(None) == "agent"
    ensures NormaliseAgentName(Some("--")) == "agent"
  {
    var dashes := "--";
    assert Lower(dashes) == dashes;
    assert NonAlnumRunEnd(dashes, 0) == 2 by {
      assert !IsLowerAlnum(dashes[0]) && !IsLowerAlnum(dashes[1]);
    }
    assert SubNonAlnum(dashes, '_') == "_" + SubNonAlnum(dashes[2..], '_');
    assert dashes[2..] == [];
    assert StripChar("_", '_') == StripChar([], '_');
  }

  /** The key of the issue agent `iss<N>` is that name itself. */
  lemma IssueAgentKey(n: nat)
    ensures NormaliseAgentName(Some("iss" + NatToString(n))) == "iss" + NatToString(n)
  {
    var r := "iss" + NatToString(n);
    assert r[0] == 'i';
    forall i | 0 <= i < |r|
      ensures IsLowerAlnum(r[i])
    {
      if i >= 3 {
        assert r[i] == NatToString(n)[i - 3];
      }
    }
    KeyIsFixedPoint(r);
  }

  /** A run of `[a-z0-9]` passes through `SubNonAlnum` unchanged. */
  lemma {:induction false} SubAlnumPrefix(a: string, b: string)
    requires forall i :: 0 <= i < |a| ==> IsLowerAlnum(a[i])
    ensures SubNonAlnum(a + b, '_') == a + SubNonAlnum(b, '_')
    decreases |a|
  {
    if a == [] {
      assert a + b == b;
    } else {
      assert (a + b)[0] == a[0] && (a + b)[1..] == a[1..] + b;
      assert IsLowerAlnum((a + b)[0]);
      SubAlnumPrefix(a[1..], b);
      assert a == [a[0]] + a[1..];
    }
  }

  /** One separator before a letter or digit becomes one `_`. */
  lemma SubOneSeparator(c: char, b: string)
    requires !IsLowerAlnum(c) && b != [] && IsLowerAlnum(b[0])
    ensures SubNonAlnum([c] + b, '_') == "_" + SubNonAlnum(b, '_')
  {
    var s := [c] + b;
    assert s[1] == b[0];
    assert NonAlnumRunEnd(s, 1) == 1;
    assert NonAlnumRunEnd(s, 0) == 1;
    assert s[1..] == b;
  }

  /** `normalise_agent_name("test-worker") == "test_worker"`. */
  lemma DashBecomesUnderscore()
    ensures NormaliseAgentName(Some("test-worker")) == "test_worker"
  {
    var r := "test_worker";
    var head, tail := "test", "worker";
    assert forall i :: 0 <= i < |head| ==> IsLowerAlnum(head[i]);
    assert forall i :: 0 <= i < |tail| ==> IsLowerAlnum(tail[i]);
    SubDashed(head, tail);
    assert head + ['-'] + tail == "test-worker";
    assert head + "_" + tail == r;
    assert r[0] == 't' && r[10] == 'r';
    assert StripChar(r, '_') == r;
  }

  /** Two runs of `[a-z0-9]` joined by `-` become the runs joined by `_`. */
  lemma SubDashed(head: string, tail: string)
    requires forall i :: 0 <= i < |head| ==> IsLowerAlnum(head[i])
    requires tail != [] && forall i :: 0 <= i < |tail| ==> IsLowerAlnum(tail[i])
    ensures SubNonAlnum(Lower(head + ['-'] + tail), '_') == head + "_" + tail
  {
    var dashTail := ['-'] + tail;
    assert head + ['-'] + tail == head + dashTail;
    LowerOfKey(head);
    LowerOfKey(tail);
    LowerConcat(head, dashTail);
    LowerConcat(['-'], tail);
    assert Lower(['-']) == ['-'];
    SubAlnumPrefix(head, dashTail);
    SubOneSeparator('-', tail);
    SubNonAlnumSingleSep(tail, '_');
  }

  // ------------------------------------------------------------ durations

  /** `int(float(num) * factor)` for a number written as ASCII digits; any
      other text makes `float` raise, and the caller falls back to `default`. */
  function Scaled(num: string, factor: nat, default: int): (r: int)
    ensures num != [] && AllDigits(num) ==> r == DigitsValue(num) * factor
    ensures !(num != [] && AllDigits(num)) ==> r == default
  {
    if num != [] && AllDigits(num) then DigitsValue(num) * factor else default
  }

  /** `max(1, int(float(num) / 1000.0))` for the number before `ms`. */
  function Millis(num: string, default: int): (r: int)
    ensures num != [] && AllDigits(num) ==> r == if DigitsValue(num) / 1000 < 1 then 1 else DigitsValue(num) / 1000
    ensures !(num != [] && AllDigits(num)) ==> r == default
  {
    if num != [] && AllDigits(num) then (if DigitsValue(num) / 1000 < 1 then 1 else DigitsValue(num) / 1000)
    else default
  }

  /** The seconds each unit letter stands for. */
  function UnitSeconds(u: char): nat
  {
    match u
    case 's' => 1
    case 'm' => 60
    case 'h' => 3600
    case 'd' => 86400
    case _ => 0
  }

  predicate IsUnit(u: char) { u in {'s', 'm', 'h', 'd'} }

  /** `Hub._parse_duration(value, default_seconds)`: a number followed by
      `ms`, `s`, `m`, `h` or `d` (or by nothing, meaning seconds), read after
      `str(value).strip().lower()`; a value that is missing, empty or not a
      number gives the default. Milliseconds round down but never below 1.
      The source tests the suffixes `s`, `m`, `h`, `d` one after another;
      since each is one letter, testing the last letter is the same. */
  function ParseDuration(value: Option<string>, default: int): (r: int)
  {
    if value.None? || value.value == "" then default
    else
      var t := Lower(Strip(value.value));
      if EndsWith(t, "ms") then Millis(t[..|t| - 2], default)
      else if t != [] && IsUnit(t[|t| - 1]) then Scaled(t[..|t| - 1], UnitSeconds(t[|t| - 1]), default)
      else Scaled(t, 1, default)
  }

  /** A missing or empty value gives the default. */
  lemma DurationDefault(default: int)
    ensures ParseDuration(None, default) == default
    ensures ParseDuration(Some(""), default) == default
  {
  }

  /** Text of digits and lower-case letters is already stripped and in lower case. */
  lemma DigitsPlain(s: string)
    requires s != [] && forall i :: 0 <= i < |s| ==> IsDigit(s[i]) || ('a' <= s[i] <= 'z')
    ensures Lower(Strip(s)) == s
  {
    assert !IsSpace(s[0]) && !IsSpace(s[|s| - 1]);
    StripUnchanged(s);
    assert forall i :: 0 <= i < |s| ==> LowerChar(s[i]) == s[i];
  }

  /** What `ParseDuration` does with text that is already plain. */
  lemma ParsePlain(t: string, default: int)
    requires t != [] && forall i :: 0 <= i < |t| ==> IsDigit(t[i]) || ('a' <= t[i] <= 'z')
    ensures ParseDuration(Some(t), default) ==
      if EndsWith(t, "ms") then Millis(t[..|t| - 2], default)
      else if IsUnit(t[|t| - 1]) then Scaled(t[..|t| - 1], UnitSeconds(t[|t| - 1]), default)
      else Scaled(t, 1, default)
  {
    DigitsPlain(t);
  }

  /** Text whose last two characters are not `m`, `s` has no `ms` suffix. */
  lemma NotMillis(t: string)
    requires |t| < 2 || t[|t| - 2] != 'm' || t[|t| - 1] != 's'
    ensures !EndsWith(t, "ms")
  {
    if |t| >= 2 {
      assert t[|t| - 2..][0] == t[|t| - 2] && t[|t| - 2..][1] == t[|t| - 1];
    }
  }

  /** `N<u>` for a unit `u` among s, m, h, d is N times the unit's seconds. */
  lemma DurationWithUnit(n: nat, u: char, default: int)
    requires IsUnit(u)
    ensures ParseDuration(Some(NatToString(n) + [u]), default) == n * UnitSeconds(u)
  {
    var digits := NatToString(n);
    var t := digits + [u];
    assert t[..|t| - 1] == digits;
    assert t[|t| - 1] == u;
    assert IsDigit(t[|t| - 2]);
    NotMillis(t);
    ParsePlain(t, default);
    NatToStringRoundTrip(n);
  }

  /** A bare number counts seconds. */
  lemma DurationBare(n: nat, default: int)
    ensures ParseDuration(Some(NatToString(n)), default) == n
  {
    var t := NatToString(n);
    assert IsDigit(t[|t| - 1]);
    NotMillis(t);
    assert !IsUnit(t[|t| - 1]) by {
      assert IsDigit(t[|t| - 1]);
    }
    ParsePlain(t, default);
    NatToStringRoundTrip(n);
  }

  /** `Nms` is N thousandths of a second, rounded down but at least 1. */
  lemma DurationMillis(n: nat, default: int)
    ensures ParseDuration(Some(NatToString(n) + "ms"), default) == if n / 1000 < 1 then 1 else n / 1000
  {
    var digits := NatToString(n);
    var t := digits + "ms";
    assert t[..|t| - 2] == digits;
    assert EndsWith(t, "ms") by {
      assert t[|t| - 2..] == "ms";
    }
    ParsePlain(t, default);
    NatToStringRoundTrip(n);
  }

  /** A unit with no number before it is unparsable and gives the default. */
  lemma DurationUnitAlone(default: int)
    ensures ParseDuration(Some("m"), default) == default
  {
    var t := "m";
    NotMillis(t);
    assert IsUnit(t[0]);
    ParsePlain(t, default);
    assert t[..0] == [];
  }

  /** A word that is not a number gives the default. */
  lemma DurationWord(default: int)
    ensures ParseDuration(Some("soon"), default) == default
  {
    var t := "soon";
    assert t[3] == 'n' && !IsUnit(t[3]);
    NotMillis(t);
    ParsePlain(t, default);
    assert !IsDigit(t[0]);
  }

  /** The hub's defaults `"10m"` and `"45m"` are 600 and 2700 seconds. */
  lemma HubDefaults(default: int)
    ensures ParseDuration(Some("10m"), default) == 600
    ensures ParseDuration(Some("45m"), default) == 2700
  {
    assert NatToString(10) == "10" by {
      assert NatToString(1) == "1" && NatToString(0) == "0";
    }
    assert NatToString(45) == "45" by {
      assert NatToString(4) == "4" && NatToString(5) == "5";
    }
    DurationWithUnit(10, 'm', default);
    DurationWithUnit(45, 'm', default);
    assert NatToString(10) + ['m'] == "10m";
    assert NatToString(45) + ['m'] == "45m";
  }
}
