/** Scheduling signals read from an issue: the issues that block it (from
    `blocked-by:` labels and "blocked by:" body lines) and the check-in and
    budget limits given by `checkin:N<u>` and `budget:N<u>` labels. */
module GithubLabels {
  import opened Text
  import opened JsonValue
  import opened Sorting
  import GithubSync

  // ------------------------------------------------------------ blockers

  /** `_ISSUE_REF_RE.findall(s[i..])` for `#(\d+)`, converted with `int`:
      each match runs to the end of its digits and the scan resumes
      there. */
  function RefsFrom(s: string, i: nat): seq<int>
    requires i <= |s|
    decreases |s| - i
  {
    if i == |s| then []
    else if s[i] == '#' && i + 1 < |s| && IsDigit(s[i + 1]) then
      var e := DigitRunEnd(s, i + 1);
      [DigitsValue(s[i + 1..e]) as int] + RefsFrom(s, e)
    else RefsFrom(s, i + 1)
  }

  function Refs(s: string): seq<int>
  {
    RefsFrom(s, 0)
  }

  /** Every number found is written after a `#`, so text without `#`
      references nothing. */
  lemma {:induction false} RefsNeedHash(s: string, i: nat)
    requires i <= |s|
    requires forall j :: i <= j < |s| ==> s[j] != '#'
    ensures RefsFrom(s, i) == []
    decreases |s| - i
  {
    if i < |s| {
      RefsNeedHash(s, i + 1);
    }
  }

  /** `#` followed by the decimal form of `n` references exactly `n`. */
  lemma RefRoundTrip(n: nat)
    ensures Refs("#" + NatToString(n)) == [n]
  {
    var d := NatToString(n);
    var s := "#" + d;
    assert s[1] == d[0] && IsDigit(d[0]);
    assert forall j :: 1 <= j < |s| ==> s[j] == d[j - 1];
    assert DigitRunEnd(s, 1) == |s|;
    assert s[1..|s|] == d;
    NatToStringRoundTrip(n);
    assert RefsFrom(s, |s|) == [];
  }

  const BlockedByLabel: string := "blocked-by:"

  /** Group 1 of `_BLOCKERS_LABEL_RE` (`^blocked-by:(.+)$`, ignoring case)
      on the stripped label. */
  function LabelGroup(t: string): Option<string>
  {
    if |t| > |BlockedByLabel| && CiWordAt(t, 0, BlockedByLabel) then
      var g := GithubSync.DotStarToEnd(t[|BlockedByLabel|..]);
      if g.Some? && g.value != [] then g else None
    else None
  }

  function LabelRefs(lab: string): seq<int>
  {
    var g := LabelGroup(Strip(lab));
    if g.Some? then Refs(g.value) else []
  }

  /** The references of a body line that starts, ignoring case, with
      "blocked by:" or "blocked-by:". */
  function LineRefs(raw: string): seq<int>
  {
    var text := Strip(raw);
    var low := Lower(text);
    if StartsWith(low, "blocked by:") || StartsWith(low, "blocked-by:") then Refs(text) else []
  }

  function AllLabelRefs(labels: seq<string>): seq<int>
  {
    if labels == [] then [] else LabelRefs(labels[0]) + AllLabelRefs(labels[1..])
  }

  function AllLineRefs(lines: seq<string>): seq<int>
  {
    if lines == [] then [] else LineRefs(lines[0]) + AllLineRefs(lines[1..])
  }

  /** `[n for n in xs if n > 0]`. */
  function Positives(xs: seq<int>): (r: seq<int>)
    ensures forall n :: n in r <==> n in xs && n > 0
  {
    if xs == [] then []
    else
      assert forall n :: n in xs <==> n == xs[0] || n in xs[1..] by { assert xs == [xs[0]] + xs[1..]; }
      (if xs[0] > 0 then [xs[0]] else []) + Positives(xs[1..])
  }

  /** Every reference `parse_blockers` collects, in collection order. */
  function Candidates(body: Option<string>, labels: seq<string>): seq<int>
  {
    AllLabelRefs(labels) + AllLineRefs(SplitLines(if body.Some? then body.value else ""))
  }

  /** What `parse_blockers` returns. */
  function Blockers(body: Option<string>, labels: seq<string>): seq<int>
  {
    SortedDistinct(Positives(Candidates(body, labels)))
  }

  /** The label loop of `parse_blockers`. */
  method CollectLabelRefs(labels: seq<string>) returns (blockers: seq<int>)
    ensures blockers == AllLabelRefs(labels)
  {
    blockers := [];
    var i := 0;
    while i < |labels|
      invariant 0 <= i <= |labels|
      invariant blockers + AllLabelRefs(labels[i..]) == AllLabelRefs(labels)
    {
      assert labels[i..][0] == labels[i] && labels[i..][1..] == labels[i + 1..];
      AppendAssoc(blockers, LabelRefs(labels[i]), AllLabelRefs(labels[i + 1..]));
      var m := LabelGroup(Strip(labels[i]));
      if m.Some? {
        blockers := blockers + Refs(m.value);
      } else {
        assert blockers + [] == blockers;
      }
      i := i + 1;
    }
    assert labels[i..] == [];
  }

  /** The body-line loop of `parse_blockers`. */
  method CollectLineRefs(lines: seq<string>) returns (blockers: seq<int>)
    ensures blockers == AllLineRefs(lines)
  {
    blockers := [];
    var j := 0;
    while j < |lines|
      invariant 0 <= j <= |lines|
      invariant blockers + AllLineRefs(lines[j..]) == AllLineRefs(lines)
    {
      assert lines[j..][0] == lines[j] && lines[j..][1..] == lines[j + 1..];
      AppendAssoc(blockers, LineRefs(lines[j]), AllLineRefs(lines[j + 1..]));
      blockers := blockers + LineRefs(lines[j]);
      j := j + 1;
    }
    assert lines[j..] == [];
  }

  /** `parse_blockers`: the references of the labels, then those of the
      body lines, then `sorted({n for n in blockers if n > 0})`. */
  method ParseBlockers(body: Option<string>, labels: seq<string>) returns (r: seq<int>)
    ensures r == Blockers(body, labels)
  {
    var fromLabels := CollectLabelRefs(labels);
    var fromBody := CollectLineRefs(SplitLines(if body.Some? then body.value else ""));
    r := SortedDistinct(Positives(fromLabels + fromBody));
  }

  /** The blockers are strictly ascending (so free of duplicates), and are
      exactly the positive numbers referenced. */
  lemma BlockersSpec(body: Option<string>, labels: seq<string>)
    ensures StrictlyAscending(Blockers(body, labels))
    ensures forall n :: n in Blockers(body, labels) <==> n > 0 && n in Candidates(body, labels)
  {
  }

  /** A single label `blocked-by:#n`, in any letter case, blocks on `n`
      alone when the body is empty. */
  lemma LabelBlocks(prefix: string, n: nat)
    requires |prefix| == |BlockedByLabel| && CiWordAt(prefix, 0, BlockedByLabel)
    requires n > 0
    ensures Blockers(None, [prefix + "#" + NatToString(n)]) == [n]
  {
    var lab := prefix + "#" + NatToString(n);
    assert lab[0] == prefix[0] && BlockedByLabel[0] == 'b';
    assert CiEq(prefix[0], BlockedByLabel[0]);
    assert IsDigit(lab[|lab| - 1]);
    StripUnchanged(lab);
    assert lab[|BlockedByLabel|..] == "#" + NatToString(n);
    assert CiWordAt(lab, 0, BlockedByLabel) by {
      assert forall k :: 0 <= k < |BlockedByLabel| ==> lab[k] == prefix[k];
    }
    assert '\n' !in "#" + NatToString(n);
    RefRoundTrip(n);
    assert LabelRefs(lab) == [n];
    assert [lab][1..] == [];
    assert AllLabelRefs([lab]) == [n];
    assert SplitLines("") == [];
    assert Candidates(None, [lab]) == [n];
    assert [n][1..] == [];
    assert Positives([n]) == [n];
    assert SortedDistinct([n]) == [n];
  }

  // ------------------------------------------------------------ SLAs

  predicate IsUnit(c: char)
  {
    CiEq(c, 's') || CiEq(c, 'm') || CiEq(c, 'h') || CiEq(c, 'd')
  }

  /** `_parse_duration_to_seconds`. */
  function DurationToSeconds(num: int, unit: char): int
  {
    var u := LowerChar(unit);
    if u == 's' then num
    else if u == 'm' then num * 60
    else if u == 'h' then num * 3600
    else if u == 'd' then num * 86400
    else num
  }

  /** Groups 1 and 2 of `^<key>(\d+)([smhd])$` ignoring case: after the key
      come only digits and then one unit letter, and `$` also accepts one
      final newline. */
  function SlaMatch(t: string, key: string): Option<(nat, char)>
  {
    var u := if t != [] && t[|t| - 1] == '\n' then t[..|t| - 1] else t;
    if |u| >= |key| + 2 && CiWordAt(u, 0, key) && AllDigits(u[|key|..|u| - 1]) && IsUnit(u[|u| - 1]) then
      Some((DigitsValue(u[|key|..|u| - 1]), u[|u| - 1]))
    else None
  }

  const CheckinKey: string := "checkin_seconds"
  const BudgetKey: string := "budget_seconds"

  /** One label of `sla_from_labels`: each pattern that matches overwrites
      its entry. */
  function SlaStep(values: map<string, int>, lab: string): map<string, int>
  {
    var t := Strip(lab);
    var c := SlaMatch(t, "checkin:");
    var v1 := if c.Some? then values[CheckinKey := DurationToSeconds(c.value.0, c.value.1)] else values;
    var b := SlaMatch(t, "budget:");
    if b.Some? then v1[BudgetKey := DurationToSeconds(b.value.0, b.value.1)] else v1
  }

  function SlaFold(values: map<string, int>, labels: seq<string>): map<string, int>
    decreases |labels|
  {
    if labels == [] then values else SlaFold(SlaStep(values, labels[0]), labels[1..])
  }

  /** `sla_from_labels`. */
  method SlaFromLabels(labels: seq<string>) returns (values: map<string, int>)
    ensures values == SlaFold(map[], labels)
  {
    values := map[];
    var i := 0;
    while i < |labels|
      invariant 0 <= i <= |labels|
      invariant SlaFold(values, labels[i..]) == SlaFold(map[], labels)
    {
      assert labels[i..][0] == labels[i] && labels[i..][1..] == labels[i + 1..];
      var text := Strip(labels[i]);
      var checkin := SlaMatch(text, "checkin:");
      if checkin.Some? {
        values := values[CheckinKey := DurationToSeconds(checkin.value.0, checkin.value.1)];
      }
      var budget := SlaMatch(text, "budget:");
      if budget.Some? {
        values := values[BudgetKey := DurationToSeconds(budget.value.0, budget.value.1)];
      }
      i := i + 1;
    }
    assert labels[i..] == [];
  }

  lemma {:induction false} SlaFoldAppend(values: map<string, int>, labels: seq<string>, lab: string)
    ensures SlaFold(values, labels + [lab]) == SlaStep(SlaFold(values, labels), lab)
    decreases |labels|
  {
    if labels == [] {
      assert [lab][1..] == [];
    } else {
      assert (labels + [lab])[0] == labels[0] && (labels + [lab])[1..] == labels[1..] + [lab];
      SlaFoldAppend(SlaStep(values, labels[0]), labels[1..], lab);
    }
  }

  /** Only the two SLA entries are ever set. */
  lemma {:induction false} SlaKeys(values: map<string, int>, labels: seq<string>)
    requires forall k :: k in values ==> k == CheckinKey || k == BudgetKey
    ensures forall k :: k in SlaFold(values, labels) ==> k == CheckinKey || k == BudgetKey
    decreases |labels|
  {
    if labels != [] {
      SlaKeys(SlaStep(values, labels[0]), labels[1..]);
    }
  }

  /** A later `checkin:` label overrides earlier ones, and leaves the
      budget as it was. */
  lemma CheckinLaterWins(labels: seq<string>, lab: string, n: nat, u: char)
    requires SlaMatch(Strip(lab), "checkin:") == Some((n, u))
    ensures CheckinKey in SlaFold(map[], labels + [lab])
    ensures SlaFold(map[], labels + [lab])[CheckinKey] == DurationToSeconds(n, u)
    ensures (BudgetKey in SlaFold(map[], labels + [lab])) == (BudgetKey in SlaFold(map[], labels))
    ensures BudgetKey in SlaFold(map[], labels) ==>
              SlaFold(map[], labels + [lab])[BudgetKey] == SlaFold(map[], labels)[BudgetKey]
  {
    SlaFoldAppend(map[], labels, lab);
    KeysExclusive(Strip(lab));
  }

  /** A later `budget:` label overrides earlier ones. */
  lemma BudgetLaterWins(labels: seq<string>, lab: string, n: nat, u: char)
    requires SlaMatch(Strip(lab), "budget:") == Some((n, u))
    ensures BudgetKey in SlaFold(map[], labels + [lab])
    ensures SlaFold(map[], labels + [lab])[BudgetKey] == DurationToSeconds(n, u)
  {
    SlaFoldAppend(map[], labels, lab);
  }

  /** A label matching neither pattern is ignored. */
  lemma OtherLabelIgnored(labels: seq<string>, lab: string)
    requires SlaMatch(Strip(lab), "checkin:").None? && SlaMatch(Strip(lab), "budget:").None?
    ensures SlaFold(map[], labels + [lab]) == SlaFold(map[], labels)
  {
    SlaFoldAppend(map[], labels, lab);
  }

  /** No label is both a check-in and a budget label. */
  lemma KeysExclusive(t: string)
    ensures !(SlaMatch(t, "checkin:").Some? && SlaMatch(t, "budget:").Some?)
  {
    assert "checkin:"[0] == 'c' && "budget:"[0] == 'b';
  }

  function Multiplier(u: char): nat
  {
    if u == 's' then 1 else if u == 'm' then 60 else if u == 'h' then 3600 else 86400
  }

  /** `checkin:N<u>` for a unit `s`, `m`, `h` or `d` gives N times 1, 60,
      3600 or 86400 seconds. */
  lemma CheckinLabelValue(n: nat, u: char)
    requires u == 's' || u == 'm' || u == 'h' || u == 'd'
    ensures CheckinKey in SlaFold(map[], ["checkin:" + NatToString(n) + [u]])
    ensures SlaFold(map[], ["checkin:" + NatToString(n) + [u]])[CheckinKey] == n * Multiplier(u)
  {
    var lab := "checkin:" + NatToString(n) + [u];
    assert !IsSpace(lab[0]) && !IsSpace(lab[|lab| - 1]);
    StripUnchanged(lab);
    assert lab[8..|lab| - 1] == NatToString(n);
    NatToStringRoundTrip(n);
    assert CiWordAt(lab, 0, "checkin:");
    assert SlaMatch(lab, "checkin:") == Some((n, u));
    CheckinLaterWins([], lab, n, u);
    assert [] + [lab] == [lab];
  }
}
