/** The append-only artifact store: one blob per identifier and an index
    of records, with `load_text` returning a possibly truncated prefix and the
    full length.  The file system is modelled as the `blobs` map and the
    index file as the `index` sequence. */
module Artifacts {
  import opened Text
  import opened JsonValue

  datatype Record = Record(id: string, kind: string, ts: nat, meta: Json)

  /** What `load_text` returns: the (possibly truncated) text and the full
      length. */
  datatype Loaded = Loaded(text: string, total: nat)

  /** `f"{now}-{uuid.uuid4().hex[:8]}"`; the random part is a parameter. */
  function ArtifactId(now: nat, suffix: string): (id: string)
    ensures StartsWith(id, NatToString(now) + "-")
  {
    NatToString(now) + "-" + suffix
  }

  /** `meta or {}`. */
  function MetaOr(meta: Option<Json>): (m: Json)
    ensures meta.None? || !Truthy(meta.value) ==> m == JObj([])
  {
    if meta.Some? && Truthy(meta.value) then meta.value else JObj([])
  }

  /** Python's `data[:m]`: a negative bound counts from the end. */
  function PrefixSlice(s: string, m: int): (r: string)
    ensures 0 <= m ==> r == s[..if m < |s| then m else |s|]
    ensures m < 0 ==> r == s[..if |s| + m < 0 then 0 else |s| + m]
  {
    if 0 <= m then s[..if m < |s| then m else |s|]
    else s[..if |s| + m < 0 then 0 else |s| + m]
  }

  /** Reading a file in text mode translates "\r\n" and a lone "\r" into
      "\n" (universal newlines). */
  function UniversalNewlines(s: string): (r: string)
    ensures |r| <= |s|
    ensures '\r' !in r
    decreases |s|
  {
    if s == [] then []
    else if s[0] == '\r' then "\n" + UniversalNewlines(if |s| > 1 && s[1] == '\n' then s[2..] else s[1..])
    else [s[0]] + UniversalNewlines(s[1..])
  }

  lemma {:induction false} UniversalNewlinesIdentity(s: string)
    requires '\r' !in s
    ensures UniversalNewlines(s) == s
    decreases |s|
  {
    if s != [] {
      UniversalNewlinesIdentity(s[1..]);
    }
  }

  /** `load_text` as written: the blob is read in text mode. */
  function LoadAsWritten(blobs: map<string, string>, id: string, maxChars: Option<int>): (r: Option<Loaded>)
    ensures r.None? <==> id !in blobs
  {
    if id !in blobs then None
    else
      var data := UniversalNewlines(blobs[id]);
      var total := |data|;
      Some(Loaded(if maxChars.Some? && total > maxChars.value then PrefixSlice(data, maxChars.value) else data,
                  total))
  }

  /** `load_text` reading the blob without newline translation (as with
      `open(path, newline="")`), so that it returns what was stored. */
  function Load(blobs: map<string, string>, id: string, maxChars: Option<int>): (r: Option<Loaded>)
    ensures r.None? <==> id !in blobs
    ensures r.Some? ==> r.value.total == |blobs[id]|
    ensures r.Some? && (maxChars.None? || maxChars.value >= |blobs[id]|) ==> r.value.text == blobs[id]
    ensures r.Some? && maxChars.Some? && 0 <= maxChars.value < |blobs[id]| ==>
              r.value.text == blobs[id][..maxChars.value]
  {
    if id !in blobs then None
    else
      var data := blobs[id];
      var total := |data|;
      Some(Loaded(if maxChars.Some? && total > maxChars.value then PrefixSlice(data, maxChars.value) else data,
                  total))
  }

  class Store {
    var blobs: map<string, string>
    var index: seq<Record>

    constructor ()
      ensures blobs == map[] && index == []
    {
      blobs := map[];
      index := [];
    }

    /** Every indexed identifier has a blob. */
    ghost predicate Valid()
      reads this
    {
      forall i :: 0 <= i < |index| ==> index[i].id in blobs
    }

    /** `store_text`: write the blob (`body or ""`), append one index
        record, return the identifier. */
    method StoreText(kind: string, body: Option<string>, meta: Option<Json>, now: nat, suffix: string)
      returns (id: string)
      requires Valid()
      modifies this
      ensures Valid()
      ensures id == ArtifactId(now, suffix)
      ensures blobs == old(blobs)[id := if body.Some? then body.value else ""]
      ensures index == old(index) + [Record(id, kind, now, MetaOr(meta))]
    {
      id := ArtifactId(now, suffix);
      blobs := blobs[id := if body.Some? then body.value else ""];
      index := index + [Record(id, kind, now, MetaOr(meta))];
    }

    /** `load_text` over the current store, returning what was stored. */
    function LoadText(id: string, maxChars: Option<int>): (r: Option<Loaded>)
      reads this
      ensures r.None? <==> id !in blobs
      ensures r.Some? ==> r.value.total == |blobs[id]| && r.value.text <= blobs[id]
    {
      Load(blobs, id, maxChars)
    }

    /** Every artifact the index lists can be loaded, in full. */
    lemma IndexedReadable(i: int, maxChars: Option<int>)
      requires Valid() && 0 <= i < |index|
      ensures LoadText(index[i].id, maxChars).Some?
      ensures LoadText(index[i].id, None).value.text == blobs[index[i].id]
    {
    }
  }

  // ------------------------------------------------------------ properties

  /** Storing then loading without a limit returns the body and its length,
      and with a limit `m >= 0` a prefix of length `min(len, m)`. */
  lemma RoundTrip(blobs: map<string, string>, id: string, body: string, m: nat)
    ensures Load(blobs[id := body], id, None) == Some(Loaded(body, |body|))
    ensures Load(blobs[id := body], id, Some(m)).value.text ==
              body[..if m < |body| then m else |body|]
  {
  }

  /** Storing under a new identifier leaves every other blob readable as
      before. */
  lemma StoreKeepsOthers(blobs: map<string, string>, id: string, body: string, other: string,
                         maxChars: Option<int>)
    requires other != id
    ensures Load(blobs[id := body], other, maxChars) == Load(blobs, other, maxChars)
  {
  }

  /** As written, the round trip holds for text without carriage returns. */
  lemma AsWrittenRoundTrip(blobs: map<string, string>, id: string, body: string)
    requires '\r' !in body
    ensures LoadAsWritten(blobs[id := body], id, None) == Some(Loaded(body, |body|))
  {
    UniversalNewlinesIdentity(body);
  }

  /** As written, a stored carriage return comes back as a newline. */
  lemma AsWrittenLosesCarriageReturn(blobs: map<string, string>, id: string)
    ensures LoadAsWritten(blobs[id := "a\rb"], id, None) == Some(Loaded("a\nb", 3))
  {
    assert UniversalNewlines("b") == "b";
    assert "\rb"[1] == 'b' && "\rb"[1..] == "b";
    assert UniversalNewlines("\rb") == "\nb";
    assert "a\rb"[0] == 'a' && "a\rb"[1..] == "\rb";
    assert UniversalNewlines("a\rb") == "a" + "\nb";
    assert "a" + "\nb" == "a\nb";
    var m := blobs[id := "a\rb"];
    assert m[id] == "a\rb";
    assert |"a\nb"| == 3;
  }
}
