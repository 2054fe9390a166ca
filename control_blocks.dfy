/** `extract_control_blocks`: command objects an agent embeds in its reply,
    first from control fences and then from single-line JSON objects that
    carry a `spawn`, `send` or `close` key.  `decode` stands for `json.loads`
    (None where it raises `JSONDecodeError`) and `signature` for
    `json.dumps(..., sort_keys=True)`. */
module ControlBlocks {
  import opened Text
  import opened JsonValue
  import opened ControlFence

  /** The payload keys the single-line fallback accepts. */
  predicate IsCommand(j: Json)
  {
    j.JObj? && (HasKey(j, "spawn") || HasKey(j, "send") || HasKey(j, "close"))
  }

  /** The object a fence body decodes to, if any. */
  function FencePayload(body: string, decode: string -> Option<Json>): Option<Json>
  {
    var p := decode(Strip(body));
    if p.Some? && p.value.JObj? then p else None
  }

  /** Payloads of the fences in `bodies`, keeping order and duplicates. */
  function FencedBlocks(bodies: seq<string>, decode: string -> Option<Json>): (bs: seq<Json>)
  {
    if bodies == [] then []
    else
      var p := FencePayload(bodies[0], decode);
      (if p.Some? then [p.value] else []) + FencedBlocks(bodies[1..], decode)
  }

  /** The command a fallback line carries, if any. */
  function LinePayload(line: string, decode: string -> Option<Json>): (r: Option<Json>)
    ensures r.Some? ==> IsCommand(r.value)
  {
    var c := Strip(line);
    if !(StartsWith(c, "{") && EndsWith(c, "}")) then None
    else
      var p := decode(c);
      if p.Some? && IsCommand(p.value) then p else None
  }

  /** The fallback pass over `lines`, skipping signatures in `seen` and
      adding each accepted signature to it. */
  function FallbackBlocks(lines: seq<string>, decode: string -> Option<Json>, signature: Json -> string,
                          seen: set<string>): (bs: seq<Json>)
    decreases |lines|
  {
    if lines == [] then []
    else
      var p := LinePayload(lines[0], decode);
      if p.Some? && signature(p.value) !in seen then
        [p.value] + FallbackBlocks(lines[1..], decode, signature, seen + {signature(p.value)})
      else FallbackBlocks(lines[1..], decode, signature, seen)
  }

  function Signatures(bs: seq<Json>, signature: Json -> string): set<string>
  {
    set b | b in bs :: signature(b)
  }

  /** What `extract_control_blocks` returns. */
  function Extracted(pat: Pattern, text: Option<string>, decode: string -> Option<Json>,
                     signature: Json -> string): (bs: seq<Json>)
    ensures text.None? || text == Some("") ==> bs == []
  {
    if text.None? || text.value == "" then []
    else
      var t := text.value;
      var fenced := FencedBlocks(Bodies(t, Matches(pat, t, 0)), decode);
      fenced + FallbackBlocks(SplitLines(t), decode, signature, Signatures(fenced, signature))
  }

  /** The extraction as the source performs it: a loop over the fences
      and a loop over the lines, the second growing `seen`. */
  method ExtractControlBlocks(pat: Pattern, text: Option<string>, decode: string -> Option<Json>,
                              signature: Json -> string) returns (blocks: seq<Json>)
    ensures blocks == Extracted(pat, text, decode, signature)
  {
    if text.None? || text.value == "" {
      return [];
    }
    var t := text.value;
    var fenced := CollectFenced(Bodies(t, Matches(pat, t, 0)), decode);
    var seen := Signatures(fenced, signature);
    var fallback := CollectFallback(SplitLines(t), decode, signature, seen);
    blocks := fenced + fallback;
  }

  /** The loop over `CONTROL_BLOCK_RE.finditer(text)`. */
  method CollectFenced(bodies: seq<string>, decode: string -> Option<Json>) returns (blocks: seq<Json>)
    ensures blocks == FencedBlocks(bodies, decode)
  {
    blocks := [];
    var i := 0;
    while i < |bodies|
      invariant 0 <= i <= |bodies|
      invariant blocks + FencedBlocks(bodies[i..], decode) == FencedBlocks(bodies, decode)
    {
      FencedStep(bodies, i, decode);
      var candidate := Strip(bodies[i]);
      var payload := decode(candidate);
      ghost var rest := FencedBlocks(bodies[i + 1..], decode);
      if payload.Some? && payload.value.JObj? {
        AppendAssoc(blocks, [payload.value], rest);
        blocks := blocks + [payload.value];
      } else {
        assert [] + rest == rest;
      }
      i := i + 1;
    }
    assert bodies[i..] == [];
  }

  /** One fence of `CollectFenced`: the payloads from `i` on are the
      payload of body `i`, if any, followed by those after it. */
  lemma FencedStep(bodies: seq<string>, i: nat, decode: string -> Option<Json>)
    requires i < |bodies|
    ensures var p := decode(Strip(bodies[i]));
            FencedBlocks(bodies[i..], decode)
              == (if p.Some? && p.value.JObj? then [p.value] else []) + FencedBlocks(bodies[i + 1..], decode)
  {
    assert bodies[i..][0] == bodies[i] && bodies[i..][1..] == bodies[i + 1..];
  }

  /** The loop over `text.splitlines()`. */
  method CollectFallback(lines: seq<string>, decode: string -> Option<Json>, signature: Json -> string,
                         seen0: set<string>) returns (blocks: seq<Json>)
    ensures blocks == FallbackBlocks(lines, decode, signature, seen0)
  {
    blocks := [];
    var seen := seen0;
    var j := 0;
    while j < |lines|
      invariant 0 <= j <= |lines|
      invariant blocks + FallbackBlocks(lines[j..], decode, signature, seen)
             == FallbackBlocks(lines, decode, signature, seen0)
    {
      assert lines[j..][0] == lines[j] && lines[j..][1..] == lines[j + 1..];
      var candidate := Strip(lines[j]);
      if StartsWith(candidate, "{") && EndsWith(candidate, "}") {
        var payload := decode(candidate);
        if payload.Some? && IsCommand(payload.value) {
          var sig := signature(payload.value);
          if sig !in seen {
            AppendAssoc(blocks, [payload.value], FallbackBlocks(lines[j + 1..], decode, signature, seen + {sig}));
            seen := seen + {sig};
            blocks := blocks + [payload.value];
          }
        }
      }
      j := j + 1;
    }
    assert lines[j..] == [];
  }

  // ------------------------------------------------------------ properties

  predicate DistinctSignatures(bs: seq<Json>, signature: Json -> string)
  {
    forall i, j :: 0 <= i < j < |bs| ==> signature(bs[i]) != signature(bs[j])
  }

  /** Every fallback block is an object carrying `spawn`, `send` or `close`,
      its signature was not in `seen`, and no two share a signature. */
  lemma {:induction false} FallbackFresh(lines: seq<string>, decode: string -> Option<Json>,
                                         signature: Json -> string, seen: set<string>)
    ensures forall b :: b in FallbackBlocks(lines, decode, signature, seen) ==> IsCommand(b)
    ensures forall b :: b in FallbackBlocks(lines, decode, signature, seen) ==> signature(b) !in seen
    ensures DistinctSignatures(FallbackBlocks(lines, decode, signature, seen), signature)
    decreases |lines|
  {
    if lines != [] {
      var p := LinePayload(lines[0], decode);
      if p.Some? && signature(p.value) !in seen {
        var seen' := seen + {signature(p.value)};
        FallbackFresh(lines[1..], decode, signature, seen');
        var rest := FallbackBlocks(lines[1..], decode, signature, seen');
        var bs := [p.value] + rest;
        assert FallbackBlocks(lines, decode, signature, seen) == bs;
        forall i, j | 0 <= i < j < |bs| ensures signature(bs[i]) != signature(bs[j]) {
          assert bs[j] == rest[j - 1] && bs[j] in rest;
          if i > 0 {
            assert bs[i] == rest[i - 1];
            assert signature(rest[i - 1]) != signature(rest[j - 1]);
          }
        }
      } else {
        FallbackFresh(lines[1..], decode, signature, seen);
        assert FallbackBlocks(lines, decode, signature, seen) == FallbackBlocks(lines[1..], decode, signature, seen);
      }
    }
  }

  /** After the fenced payloads come only fallback commands, and none of
      those repeats the signature of any block before it. */
  lemma FallbackAfterFenced(fenced: seq<Json>, lines: seq<string>, decode: string -> Option<Json>,
                            signature: Json -> string)
    ensures var bs := fenced + FallbackBlocks(lines, decode, signature, Signatures(fenced, signature));
            (forall j :: |fenced| <= j < |bs| ==> IsCommand(bs[j])) &&
            (forall i, j :: 0 <= i < j < |bs| && |fenced| <= j ==> signature(bs[i]) != signature(bs[j]))
  {
    var seen := Signatures(fenced, signature);
    var fb := FallbackBlocks(lines, decode, signature, seen);
    var bs := fenced + fb;
    FallbackFresh(lines, decode, signature, seen);
    forall i, j | 0 <= i < j < |bs| && |fenced| <= j
      ensures signature(bs[i]) != signature(bs[j])
    {
      assert bs[j] == fb[j - |fenced|];
      if i < |fenced| {
        assert bs[i] in fenced;
      } else {
        assert bs[i] == fb[i - |fenced|];
      }
    }
    forall j | |fenced| <= j < |bs| ensures IsCommand(bs[j]) {
      assert bs[j] in fb;
    }
  }

  /** Lines none of which is a `{...}` object add no fallback blocks. */
  lemma {:induction false} NoCandidateLines(lines: seq<string>, decode: string -> Option<Json>,
                                            signature: Json -> string, seen: set<string>)
    requires forall l :: l in lines ==> !StartsWith(Strip(l), "{")
    ensures FallbackBlocks(lines, decode, signature, seen) == []
    decreases |lines|
  {
    if lines != [] {
      NoCandidateLines(lines[1..], decode, signature, seen);
    }
  }

  /** The fallback pass over a plain fence's lines finds nothing new once
      the fenced payload's signature has been seen. */
  lemma FenceFallbackEmpty(body: string, decode: string -> Option<Json>, signature: Json -> string, obj: Json)
    requires Strip(body) == body && decode(body) == Some(obj)
    ensures FallbackBlocks(["```control", body, "```"], decode, signature, {signature(obj)}) == []
  {
    var seen := {signature(obj)};
    var lines := ["```control", body, "```"];
    StripUnchanged("```control");
    StripUnchanged("```");
    NoCandidateLines(lines[2..], decode, signature, seen);
    var p := LinePayload(body, decode);
    assert p.None? || p == Some(obj);
    assert lines[1..][0] == body && lines[1..][1..] == lines[2..];
    assert FallbackBlocks(lines[1..], decode, signature, seen) == [];
  }

  /** With the dashboard's pattern, a text that is one plain fence yields
      exactly the object its body decodes to: the fence lines are not
      `{...}` objects, and the body line repeats the fenced signature. */
  lemma DashboardFence(body: string, decode: string -> Option<Json>, signature: Json -> string, obj: Json)
    requires PlainBody(body) && Strip(body) == body
    requires decode(body) == Some(obj) && obj.JObj?
    ensures Extracted(Spaced, Some(Fence(body)), decode, signature) == [obj]
  {
    var t := Fence(body);
    SpacedStripsFence(body);
    var bodies := Bodies(t, Matches(Spaced, t, 0));
    assert bodies == [body] by {
      assert t[11..11 + |body|] == body;
    }
    assert FencedBlocks(bodies, decode) == [obj] by {
      assert FencePayload(body, decode) == Some(obj);
      assert bodies[1..] == [];
    }
    FenceLines(body);
    assert Signatures([obj], signature) == {signature(obj)};
    FenceFallbackEmpty(body, decode, signature, obj);
  }

  /** The lines of a plain fence. */
  lemma FenceLines(body: string)
    requires PlainBody(body)
    ensures SplitLines(Fence(body)) == ["```control", body, "```"]
  {
    var open, close := "```control", "```";
    assert Fence(body) == open + "\n" + (body + "\n" + close);
    assert NoLineBreak(open) by {
      forall j | 0 <= j < |open| ensures !IsLineBreak(open[j]) {
        assert open[j] in "`control";
      }
    }
    assert NoLineBreak(close) by {
      forall j | 0 <= j < |close| ensures !IsLineBreak(close[j]) {
        assert close[j] == '`';
      }
    }
    SplitLinesCons(open, body + "\n" + close);
    SplitLinesCons(body, close);
    SplitLinesSingle(close);
  }


  /** `FirstBreak` stops at the first boundary. */
  lemma FirstBreakAt(s: string, i: nat, k: nat)
    requires i <= k <= |s|
    requires forall j :: i <= j < k ==> !IsLineBreak(s[j])
    requires k == |s| || IsLineBreak(s[k])
    ensures FirstBreak(s, i) == k
    decreases k - i
  {
    if i < k {
      FirstBreakAt(s, i + 1, k);
    }
  }
}
