/** The issue roll-up: references to other issues found in a text, a
    keyword classification of each sub-issue, and the partition of the
    sub-issues by that classification. */
module IssueRollup {
  import opened Text
  import opened JsonValue
  import GithubLabels

  // ------------------------------------------------------------ references

  /** A reference: the `owner/repo` slug and the issue number. */
  type Ref = (string, int)

  /** `[A-Za-z0-9_.\-]`, the characters of an owner or repository name. */
  predicate IsSlugChar(c: char)
  {
    'A' <= c <= 'Z' || 'a' <= c <= 'z' || '0' <= c <= '9' || c == '_' || c == '.' || c == '-'
  }

  function SlugRunEnd(s: string, i: nat): (k: nat)
    requires i <= |s|
    ensures i <= k <= |s|
    ensures forall j :: i <= j < k ==> IsSlugChar(s[j])
    ensures k < |s| ==> !IsSlugChar(s[k])
    decreases |s| - i
  {
    if i < |s| && IsSlugChar(s[i]) then SlugRunEnd(s, i + 1) else i
  }

  /** The two slug patterns: `RE_ISSUE_URL` and `RE_ISSUE_CROSS`. */
  datatype Pattern = Url | Cross

  /** The slug `owner/repo` starting at `o` followed by `/`, with the
      position just after the repository name.  Both names are maximal
      runs of slug characters: a shorter owner is followed by a slug
      character where the pattern needs `/`, and likewise for the
      repository, so backtracking never finds another match. */
  function SlugAt(s: string, o: nat): Option<(string, nat)>
    requires o <= |s|
  {
    var j := SlugRunEnd(s, o);
    if j > o && j < |s| && s[j] == '/' then
      var k := SlugRunEnd(s, j + 1);
      if k > j + 1 then Some((s[o..j] + "/" + s[j + 1..k], k)) else None
    else None
  }

  /** The match of `p` starting exactly at `i`: the reference and the
      position after it.  In `RE_ISSUE_URL` the `.` of `github.com` is the
      regular-expression wildcard, which matches any character but a
      newline. */
  function MatchAt(p: Pattern, s: string, i: nat): (r: Option<(Ref, nat)>)
    requires i <= |s|
    ensures r.Some? ==> i < r.value.1 <= |s|
  {
    var o := if p == Url then i + 19 else i;
    if p == Url && !(o <= |s| && s[i..i + 14] == "https://github" && s[i + 14] != '\n' && s[i + 15..o] == "com/") then None
    else
      var slug := SlugAt(s, o);
      if slug.None? then None
      else
        var k := slug.value.1;
        var d := if p == Url then k + 8 else k + 1;
        if d < |s| && (if p == Url then s[k..d] == "/issues/" else s[k] == '#') && IsDigit(s[d]) then
          var e := DigitRunEnd(s, d);
          Some(((slug.value.0, DigitsValue(s[d..e]) as int), e))
        else None
  }

  /** `finditer`: the non-overlapping matches from left to right. */
  function ScanFrom(p: Pattern, s: string, i: nat): seq<Ref>
    requires i <= |s|
    decreases |s| - i
  {
    if i == |s| then []
    else
      var m := MatchAt(p, s, i);
      if m.Some? then [m.value.0] + ScanFrom(p, s, m.value.1) else ScanFrom(p, s, i + 1)
  }

  /** The bare `#n` references, attributed to the default repository. */
  function LocalRefs(nums: seq<int>, defaultRepo: string): (r: seq<Ref>)
    ensures |r| == |nums|
    ensures forall k :: 0 <= k < |r| ==> r[k] == (defaultRepo, nums[k])
  {
    if nums == [] then [] else [(defaultRepo, nums[0])] + LocalRefs(nums[1..], defaultRepo)
  }

  /** The references in collection order: URLs, then `owner/repo#n`, then
      bare `#n`. */
  function AllRefs(text: string, defaultRepo: string): seq<Ref>
  {
    ScanFrom(Url, text, 0) + ScanFrom(Cross, text, 0) + LocalRefs(GithubLabels.Refs(text), defaultRepo)
  }

  /** What de-duplication compares: the lower-cased slug and the number. */
  function Key(r: Ref): (string, int)
  {
    (Lower(r.0), r.1)
  }

  /** Keep each reference whose key is neither in `seen` nor held by an
      earlier reference. */
  function DedupeWith(seen: set<(string, int)>, refs: seq<Ref>): seq<Ref>
    decreases |refs|
  {
    if refs == [] then []
    else if Key(refs[0]) in seen then DedupeWith(seen, refs[1..])
    else [refs[0]] + DedupeWith(seen + {Key(refs[0])}, refs[1..])
  }

  /** What `extract_issue_refs` returns (`text or ""` is the text itself,
      the empty text included). */
  function IssueRefs(text: string, defaultRepo: string): seq<Ref>
  {
    DedupeWith({}, AllRefs(text, defaultRepo))
  }

  /** The de-duplication loop of `extract_issue_refs`. */
  method Dedupe(refs: seq<Ref>) returns (unique: seq<Ref>)
    ensures unique == DedupeWith({}, refs)
  {
    var seen: set<(string, int)> := {};
    unique := [];
    var i := 0;
    while i < |refs|
      invariant 0 <= i <= |refs|
      invariant unique + DedupeWith(seen, refs[i..]) == DedupeWith({}, refs)
    {
      assert refs[i..][0] == refs[i] && refs[i..][1..] == refs[i + 1..];
      var key := (Lower(refs[i].0), refs[i].1);
      if key !in seen {
        AppendAssoc(unique, [refs[i]], DedupeWith(seen + {key}, refs[i + 1..]));
        seen := seen + {key};
        unique := unique + [refs[i]];
      }
      i := i + 1;
    }
    assert refs[i..] == [];
  }

  /** `extract_issue_refs`. */
  method ExtractIssueRefs(text: string, defaultRepo: string) returns (unique: seq<Ref>)
    ensures unique == IssueRefs(text, defaultRepo)
  {
    var refs := ScanFrom(Url, text, 0) + ScanFrom(Cross, text, 0) + LocalRefs(GithubLabels.Refs(text), defaultRepo);
    unique := Dedupe(refs);
  }

  /** `r` is `s` with some elements left out, the rest in their order. */
  predicate Subsequence(r: seq<Ref>, s: seq<Ref>)
    decreases |s|
  {
    r == [] || (s != [] && ((r[0] == s[0] && Subsequence(r[1..], s[1..])) || Subsequence(r, s[1..])))
  }

  /** A reference whose key none of `t` has keeps the keys of `[x] + t`
      pairwise different. */
  lemma KeysDistinctCons(x: Ref, t: seq<Ref>)
    requires forall i, j :: 0 <= i < j < |t| ==> Key(t[i]) != Key(t[j])
    requires forall y :: y in t ==> Key(y) != Key(x)
    ensures forall i, j :: 0 <= i < j < |[x] + t| ==> Key(([x] + t)[i]) != Key(([x] + t)[j])
  {
    var r := [x] + t;
    forall i, j | 0 <= i < j < |r| ensures Key(r[i]) != Key(r[j]) {
      assert r[j] == t[j - 1] && r[j] in t;
      if i > 0 {
        assert r[i] == t[i - 1];
      }
    }
  }

  /** De-duplication keeps at most one reference per key, none whose key
      was already seen, and keeps the references in their order. */
  lemma {:induction false} DedupeDistinct(seen: set<(string, int)>, refs: seq<Ref>)
    ensures forall i, j :: 0 <= i < j < |DedupeWith(seen, refs)| ==>
              Key(DedupeWith(seen, refs)[i]) != Key(DedupeWith(seen, refs)[j])
    ensures forall x :: x in DedupeWith(seen, refs) ==> x in refs && Key(x) !in seen
    ensures Subsequence(DedupeWith(seen, refs), refs)
    decreases |refs|
  {
    if refs != [] {
      var rest := refs[1..];
      assert forall x :: x in rest ==> x in refs;
      if Key(refs[0]) in seen {
        DedupeDistinct(seen, rest);
        SubsequenceSkip(DedupeWith(seen, rest), refs);
      } else {
        var seen' := seen + {Key(refs[0])};
        DedupeDistinct(seen', rest);
        var t := DedupeWith(seen', rest);
        var r := [refs[0]] + t;
        assert r == DedupeWith(seen, refs);
        KeysDistinctCons(refs[0], t);
        assert r[1..] == t;
      }
    }
  }

  lemma SubsequenceSkip(r: seq<Ref>, s: seq<Ref>)
    requires s != [] && Subsequence(r, s[1..])
    ensures Subsequence(r, s)
  {
  }

  /** The first reference with a given key (not already seen) is kept. */
  lemma {:induction false} DedupeKeepsFirst(seen: set<(string, int)>, refs: seq<Ref>, k: nat)
    requires k < |refs| && Key(refs[k]) !in seen
    requires forall j :: 0 <= j < k ==> Key(refs[j]) != Key(refs[k])
    ensures refs[k] in DedupeWith(seen, refs)
    decreases k
  {
    var rest := refs[1..];
    if k > 0 {
      var seen' := if Key(refs[0]) in seen then seen else seen + {Key(refs[0])};
      assert rest[k - 1] == refs[k];
      DedupeKeepsFirst(seen', rest, k - 1);
    }
  }

  /** Every bare `#n` reference is attributed to the default repository. */
  lemma LocalRefsDefault(text: string, defaultRepo: string)
    ensures forall x :: x in LocalRefs(GithubLabels.Refs(text), defaultRepo) ==> x.0 == defaultRepo
  {
  }

  /** No references in an empty text. */
  lemma EmptyTextNoRefs(defaultRepo: string)
    ensures IssueRefs("", defaultRepo) == []
  {
  }

  /** In `o/r#5` with a default repository spelled `O/R`, the bare `#5`
      is the same reference as the cross-repository one, which comes first
      and is the one kept. */
  lemma CrossBeforeLocal()
    ensures IssueRefs("o/r#5", "O/R") == [("o/r", 5)]
  {
    AllRefsExample();
    SlugKeys();
    DedupeSameKey(("o/r", 5), ("O/R", 5));
  }

  lemma SlugKeys()
    ensures Key(("o/r", 5)) == Key(("O/R", 5))
  {
    assert Lower("O/R") == "o/r" && Lower("o/r") == "o/r";
  }

  /** Of two references with one key only the first is kept. */
  lemma DedupeSameKey(a: Ref, b: Ref)
    requires Key(a) == Key(b)
    ensures DedupeWith({}, [a, b]) == [a]
  {
    assert [a, b][1..] == [b] && [b][1..] == [];
    assert Key(b) in {} + {Key(a)};
    assert DedupeWith({} + {Key(a)}, [b]) == [];
  }

  lemma AllRefsExample()
    ensures AllRefs("o/r#5", "O/R") == [("o/r", 5), ("O/R", 5)]
  {
    var s := "o/r#5";
    assert ScanFrom(Url, s, 0) == [] by { NoUrl(s, 0); }
    CrossExample();
    assert GithubLabels.Refs(s) == [5] by { LocalExample(); }
    assert LocalRefs([5], "O/R") == [("O/R", 5)];
  }

  lemma {:induction false} NoUrl(s: string, i: nat)
    requires i <= |s| && |s| < 19
    ensures ScanFrom(Url, s, i) == []
    decreases |s| - i
  {
    if i < |s| {
      NoUrl(s, i + 1);
    }
  }

  lemma {:induction false} SlugRunEndAt(s: string, i: nat, k: nat)
    requires i <= k <= |s|
    requires forall j :: i <= j < k ==> IsSlugChar(s[j])
    requires k < |s| ==> !IsSlugChar(s[k])
    ensures SlugRunEnd(s, i) == k
    decreases k - i
  {
    if i < k {
      SlugRunEndAt(s, i + 1, k);
    }
  }

  lemma {:induction false} DigitRunEndAt(s: string, i: nat, k: nat)
    requires i <= k <= |s|
    requires forall j :: i <= j < k ==> IsDigit(s[j])
    requires k < |s| ==> !IsDigit(s[k])
    ensures DigitRunEnd(s, i) == k
    decreases k - i
  {
    if i < k {
      DigitRunEndAt(s, i + 1, k);
    }
  }

  /** `owner/repo#n` spanning `o` to `e` in `s` — slug characters up to
      the `/` at `j`, slug characters up to the `#` at `k`, then digits not
      followed by another digit — is matched at `o` with its slug and
      number. */
  lemma CrossFound(s: string, o: nat, j: nat, k: nat, e: nat)
    requires o < j && j + 1 < k && k + 1 < e <= |s|
    requires forall t :: o <= t < j ==> IsSlugChar(s[t])
    requires s[j] == '/' && s[k] == '#'
    requires forall t :: j < t < k ==> IsSlugChar(s[t])
    requires forall t :: k < t < e ==> IsDigit(s[t])
    requires e < |s| ==> !IsDigit(s[e])
    ensures AllDigits(s[k + 1..e])
    ensures MatchAt(Cross, s, o) == Some(((s[o..j] + "/" + s[j + 1..k], DigitsValue(s[k + 1..e]) as int), e))
  {
    SlugRunEndAt(s, o, j);
    SlugRunEndAt(s, j + 1, k);
    DigitRunEndAt(s, k + 1, e);
  }

  /** `finditer` passes over the positions where nothing matches and
      reports the first match it reaches, then goes on after it. */
  lemma {:induction false} ScanReaches(p: Pattern, s: string, i: nat, k: nat)
    requires i <= k < |s|
    requires forall j :: i <= j < k ==> MatchAt(p, s, j).None?
    requires MatchAt(p, s, k).Some?
    ensures ScanFrom(p, s, i) == [MatchAt(p, s, k).value.0] + ScanFrom(p, s, MatchAt(p, s, k).value.1)
    decreases k - i
  {
    if i < k {
      ScanReaches(p, s, i + 1, k);
    }
  }

  lemma CrossExample()
    ensures ScanFrom(Cross, "o/r#5", 0) == [("o/r", 5)]
  {
    var s := "o/r#5";
    assert SlugRunEnd(s, 0) == 1;
    assert SlugRunEnd(s, 2) == 3;
    assert s[0..1] == "o" && s[2..3] == "r" && s[1] == '/';
    assert s[0..1] + "/" + s[2..3] == "o/r";
    assert SlugAt(s, 0) == Some(("o/r", 3));
    assert DigitRunEnd(s, 4) == 5;
    assert DigitsValue(s[4..5]) == 5 by { assert s[4..5] == "5"; assert "5"[..0] == []; }
    assert MatchAt(Cross, s, 0) == Some((("o/r", 5), 5));
  }

  lemma LocalExample()
    ensures GithubLabels.Refs("o/r#5") == [5]
  {
    var s := "o/r#5";
    assert DigitRunEnd(s, 4) == 5;
    assert DigitsValue(s[4..5]) == 5 by { assert s[4..5] == "5"; assert "5"[..0] == []; }
    assert GithubLabels.RefsFrom(s, 3) == [5];
  }

  // ------------------------------------------------------------ classification

  datatype Kind = Hpc | Cloud | Unknown

  const HpcKeywords: seq<string> := [
    "hpc", "mpi", "openmp", "slurm", "pbs", "lsf", "singularity", "apptainer", "infiniband", "numa",
    "gpu", "cuda", "horovod", "multi-node", "spack", "qsub", "srun", "mpirun", "compute node",
    "node-hours", "petabyte", "terabyte", "job array", "rdma"]

  const CloudKeywords: seq<string> := [
    "aws", "gcp", "azure", "lambda", "serverless", "cloud run", "cloud functions", "s3", "bigquery",
    "dataproc", "emr", "glue", "snowflake", "databricks", "airflow", "kubernetes", "eks", "gke", "aks",
    "terraform", "docker", "container registry", "cloudwatch", "stackdriver", "cloud logging", "cloud storage"]

  const HpcLabels: set<string> := {"hpc", "gpu", "slurm", "mpi"}
  const CloudLabels: set<string> := {"cloud", "aws", "gcp", "azure", "kubernetes"}

  predicate AnyKeyword(keywords: seq<string>, text: string)
  {
    exists k :: k in keywords && Contains(text, k)
  }

  predicate AnyLabel(labels: seq<string>, wanted: set<string>)
  {
    exists l :: l in labels && Lower(l) in wanted
  }

  /** `classify_task`: keywords are searched in the lower-cased title and
      body, labels compared lower-cased; HPC signals win over cloud ones. */
  function ClassifyTask(title: string, labels: seq<string>, body: string): (k: Kind)
    ensures k == Hpc <==> AnyKeyword(HpcKeywords, Lower(title + "\n" + body)) || AnyLabel(labels, HpcLabels)
    ensures k == Unknown <==>
              !AnyKeyword(HpcKeywords, Lower(title + "\n" + body)) && !AnyLabel(labels, HpcLabels) &&
              !AnyKeyword(CloudKeywords, Lower(title + "\n" + body)) && !AnyLabel(labels, CloudLabels)
  {
    var text := Lower(title + "\n" + body);
    if AnyKeyword(HpcKeywords, text) || AnyLabel(labels, HpcLabels) then Hpc
    else if AnyKeyword(CloudKeywords, text) || AnyLabel(labels, CloudLabels) then Cloud
    else Unknown
  }

  function LowerAll(labels: seq<string>): (r: seq<string>)
    ensures |r| == |labels|
    ensures forall i :: 0 <= i < |r| ==> r[i] == Lower(labels[i])
  {
    if labels == [] then [] else [Lower(labels[0])] + LowerAll(labels[1..])
  }

  /** The classification ignores letter case throughout. */
  lemma ClassifyIgnoresCase(title: string, labels: seq<string>, body: string)
    ensures ClassifyTask(Lower(title), LowerAll(labels), Lower(body)) == ClassifyTask(title, labels, body)
  {
    LowerConcat(title, "\n");
    LowerConcat(title + "\n", body);
    LowerConcat(Lower(title), "\n");
    LowerConcat(Lower(title) + "\n", Lower(body));
    assert Lower("\n") == "\n";
    LowerIdempotent(title + "\n" + body);
    assert Lower(Lower(title) + "\n" + Lower(body)) == Lower(title + "\n" + body);
    forall l | l in labels ensures Lower(Lower(l)) == Lower(l) {
      LowerIdempotent(l);
    }
    var ls := LowerAll(labels);
    assert forall w :: AnyLabel(ls, w) <==> AnyLabel(labels, w) by {
      forall w ensures AnyLabel(ls, w) <==> AnyLabel(labels, w) {
        if AnyLabel(ls, w) {
          var l :| l in ls && Lower(l) in w;
          var i :| 0 <= i < |ls| && ls[i] == l;
          assert labels[i] in labels;
        }
        if AnyLabel(labels, w) {
          var l :| l in labels && Lower(l) in w;
          var i :| 0 <= i < |labels| && labels[i] == l;
          assert ls[i] in ls;
        }
      }
    }
  }

  /** A GPU label makes a task HPC whatever the text says. */
  lemma GpuLabelIsHpc(title: string, body: string)
    ensures ClassifyTask(title, ["GPU"], body) == Hpc
  {
    assert Lower("GPU") == "gpu";
    assert "GPU" in ["GPU"];
  }

  /** A task mentioning both Docker and Slurm needs HPC. */
  lemma HpcBeatsCloud()
    ensures ClassifyTask("Docker image for slurm", [], "") == Hpc
  {
    var raw := "Docker image for slurm" + "\n" + "";
    var text := Lower(raw);
    assert raw[17..22] == "slurm";
    assert forall i :: 17 <= i < 22 ==> text[i] == raw[i];
    assert text[17..22] == "slurm";
    ContainsAt(text, "slurm", 17);
    assert "slurm" in HpcKeywords;
  }

  // ------------------------------------------------------------ partition

  datatype Issue = Issue(repo: string, number: int, title: string, state: string, url: string,
                         labels: seq<string>, body: string)

  function KindOf(it: Issue): Kind
  {
    ClassifyTask(it.title, it.labels, it.body)
  }

  /** The issues of `items` of kind `k`, in order. */
  function OfKind(items: seq<Issue>, k: Kind): (r: seq<Issue>)
    ensures forall x :: x in r ==> x in items && KindOf(x) == k
  {
    if items == [] then []
    else (if KindOf(items[0]) == k then [items[0]] else []) + OfKind(items[1..], k)
  }

  function Flatten(groups: seq<seq<Issue>>): seq<Issue>
  {
    if groups == [] then [] else groups[0] + Flatten(groups[1..])
  }

  lemma FlattenStep(groups: seq<seq<Issue>>, g: nat)
    requires g < |groups|
    ensures Flatten(groups[..g + 1]) == Flatten(groups[..g]) + groups[g]
  {
    assert groups[..g + 1] == groups[..g] + [groups[g]];
    FlattenAppend(groups[..g], groups[g]);
  }

  lemma {:induction false} FlattenAppend(groups: seq<seq<Issue>>, g: seq<Issue>)
    ensures Flatten(groups + [g]) == Flatten(groups) + g
  {
    if groups == [] {
      assert [g][1..] == [];
    } else {
      assert (groups + [g])[1..] == groups[1..] + [g];
      FlattenAppend(groups[1..], g);
    }
  }

  lemma {:induction false} OfKindAppend(items: seq<Issue>, it: Issue, k: Kind)
    ensures OfKind(items + [it], k) == OfKind(items, k) + (if KindOf(it) == k then [it] else [])
  {
    if items == [] {
      assert [it][1..] == [];
    } else {
      assert (items + [it])[1..] == items[1..] + [it];
      OfKindAppend(items[1..], it, k);
    }
  }

  /** The partition loop of `render_rollup`, over the groups of open
      sub-issues in their order. */
  method Partition(groups: seq<seq<Issue>>) returns (hpc: seq<Issue>, cloud: seq<Issue>, unknown: seq<Issue>)
    ensures hpc == OfKind(Flatten(groups), Hpc)
    ensures cloud == OfKind(Flatten(groups), Cloud)
    ensures unknown == OfKind(Flatten(groups), Unknown)
  {
    hpc, cloud, unknown := [], [], [];
    var g := 0;
    while g < |groups|
      invariant 0 <= g <= |groups|
      invariant hpc == OfKind(Flatten(groups[..g]), Hpc)
      invariant cloud == OfKind(Flatten(groups[..g]), Cloud)
      invariant unknown == OfKind(Flatten(groups[..g]), Unknown)
    {
      hpc, cloud, unknown := PartitionGroup(Flatten(groups[..g]), groups[g], hpc, cloud, unknown);
      FlattenStep(groups, g);
      g := g + 1;
    }
    assert groups[..g] == groups;
  }

  /** The inner loop: the issues of one group added, by kind, to the
      lists built from the issues `before` it. */
  method PartitionGroup(before: seq<Issue>, group: seq<Issue>, hpc0: seq<Issue>, cloud0: seq<Issue>, unknown0: seq<Issue>)
    returns (hpc: seq<Issue>, cloud: seq<Issue>, unknown: seq<Issue>)
    requires hpc0 == OfKind(before, Hpc) && cloud0 == OfKind(before, Cloud) && unknown0 == OfKind(before, Unknown)
    ensures hpc == OfKind(before + group, Hpc)
    ensures cloud == OfKind(before + group, Cloud)
    ensures unknown == OfKind(before + group, Unknown)
  {
    hpc, cloud, unknown := hpc0, cloud0, unknown0;
    var i := 0;
    assert before + group[..i] == before;
    while i < |group|
      invariant 0 <= i <= |group|
      invariant hpc == OfKind(before + group[..i], Hpc)
      invariant cloud == OfKind(before + group[..i], Cloud)
      invariant unknown == OfKind(before + group[..i], Unknown)
    {
      assert (before + group[..i]) + [group[i]] == before + group[..i + 1];
      hpc, cloud, unknown := PartitionIssue(before + group[..i], group[i], hpc, cloud, unknown);
      i := i + 1;
    }
    assert group[..i] == group;
  }

  /** One issue appended to the list of its kind. */
  method PartitionIssue(done: seq<Issue>, it: Issue, hpc0: seq<Issue>, cloud0: seq<Issue>, unknown0: seq<Issue>)
    returns (hpc: seq<Issue>, cloud: seq<Issue>, unknown: seq<Issue>)
    requires hpc0 == OfKind(done, Hpc) && cloud0 == OfKind(done, Cloud) && unknown0 == OfKind(done, Unknown)
    ensures hpc == OfKind(done + [it], Hpc)
    ensures cloud == OfKind(done + [it], Cloud)
    ensures unknown == OfKind(done + [it], Unknown)
  {
    OfKindAppend(done, it, Hpc);
    OfKindAppend(done, it, Cloud);
    OfKindAppend(done, it, Unknown);
    hpc, cloud, unknown := hpc0, cloud0, unknown0;
    var kind := ClassifyTask(it.title, it.labels, it.body);
    if kind == Hpc {
      hpc := hpc + [it];
    } else if kind == Cloud {
      cloud := cloud + [it];
    } else {
      unknown := unknown + [it];
    }
  }

  /** Every issue lands in exactly one of the three lists: together they
      hold the issues with their multiplicities. */
  lemma {:induction false} PartitionComplete(items: seq<Issue>)
    ensures multiset(OfKind(items, Hpc)) + multiset(OfKind(items, Cloud)) + multiset(OfKind(items, Unknown)) ==
            multiset(items)
  {
    if items != [] {
      PartitionComplete(items[1..]);
      assert items == [items[0]] + items[1..];
    }
  }
}
