/** Conversation-id extraction from OpenTelemetry log records: a dotted-path
    lookup and a fixed order of candidate keys. */
module OtelTailer {
  import opened Text
  import opened JsonValue

  const TopKeys: seq<string> := ["conversation_id", "session_id", "conversationId", "sessionId"]
  const Roots: seq<string> := ["attributes", "resource", "resource.attributes"]
  const NestedKeys: seq<string> := ["conversation.id", "conversation_id", "session.id", "session_id"]

  /** `str(v)` when `isinstance(v, (str, int))` (which includes `bool`). */
  function Leaf(v: Json): (r: Option<string>)
    ensures r.Some? <==> v.JStr? || v.JInt? || v.JBool?
  {
    match v
    case JStr(s) => Some(s)
    case JInt(i) => Some(IntToString(i))
    case JBool(b) => Some(BoolToString(b))
    case _ => None
  }

  /** The value `_dig` computes for the path `parts` below `cur`. */
  function DigPath(cur: Json, parts: seq<string>): Option<string>
    decreases |parts|
  {
    if parts == [] then Leaf(cur)
    else if !cur.JObj? || !HasKey(cur, parts[0]) then None
    else DigPath(Get(cur, parts[0]).value, parts[1..])
  }

  /** `_dig(obj, dotted)`: walk the dot-separated path, giving up as soon as
      the current value is not an object or lacks the next key. */
  method Dig(obj: Json, dotted: string) returns (r: Option<string>)
    ensures r == DigPath(obj, Split(dotted, '.'))
  {
    var parts := Split(dotted, '.');
    var cur := obj;
    var i := 0;
    while i < |parts|
      invariant 0 <= i <= |parts|
      invariant DigPath(cur, parts[i..]) == DigPath(obj, parts)
    {
      assert parts[i..][0] == parts[i] && parts[i..][1..] == parts[i + 1..];
      if !cur.JObj? {
        return None;
      }
      if !HasKey(cur, parts[i]) {
        return None;
      }
      cur := Get(cur, parts[i]).value;
      i := i + 1;
    }
    assert parts[i..] == [];
    return Leaf(cur);
  }

  /** The first top-level key in `keys` present with a str or int value. */
  function FirstTop(payload: Json, keys: seq<string>): Option<string>
    decreases |keys|
  {
    if keys == [] then None
    else if HasKey(payload, keys[0]) && Leaf(Get(payload, keys[0]).value).Some? then
      Leaf(Get(payload, keys[0]).value)
    else FirstTop(payload, keys[1..])
  }

  /** `payload.get(root)` when it is an object, otherwise the payload. */
  function Blob(payload: Json, root: string): Json
  {
    var v := Get(payload, root);
    if v.Some? && v.value.JObj? then v.value else payload
  }

  /** The first non-empty dotted lookup among `keys`. */
  function FirstDig(blob: Json, keys: seq<string>): (r: Option<string>)
    ensures r.Some? ==> r.value != ""
    decreases |keys|
  {
    if keys == [] then None
    else
      var v := DigPath(blob, Split(keys[0], '.'));
      if v.Some? && v.value != "" then v else FirstDig(blob, keys[1..])
  }

  function FirstNested(payload: Json, roots: seq<string>, keys: seq<string>): (r: Option<string>)
    ensures r.Some? ==> r.value != ""
    decreases |roots|
  {
    if roots == [] then None
    else
      var v := FirstDig(Blob(payload, roots[0]), keys);
      if v.Some? then v else FirstNested(payload, roots[1..], keys)
  }

  /** What `_extract_conversation_id` returns. */
  function ConversationId(payload: Json): Option<string>
  {
    var top := FirstTop(payload, TopKeys);
    if top.Some? then top else FirstNested(payload, Roots, NestedKeys)
  }

  /** `_extract_conversation_id`: the loops with early returns.  A payload
      that is not an object raises: `in` refuses a scalar, and a list or a
      string has no `.get`. */
  method ExtractConversationId(payload: Json) returns (raised: bool, r: Option<string>)
    ensures raised <==> !payload.JObj?
    ensures raised ==> r.None?
    ensures !raised ==> r == ConversationId(payload)
  {
    if !payload.JObj? {
      return true, None;
    }
    raised := false;
    var k := 0;
    while k < |TopKeys|
      invariant 0 <= k <= |TopKeys|
      invariant FirstTop(payload, TopKeys[k..]) == FirstTop(payload, TopKeys)
    {
      assert TopKeys[k..][0] == TopKeys[k] && TopKeys[k..][1..] == TopKeys[k + 1..];
      var key := TopKeys[k];
      if HasKey(payload, key) {
        var val := Get(payload, key).value;
        if val.JStr? || val.JInt? || val.JBool? {
          return false, Leaf(val);
        }
      }
      k := k + 1;
    }
    assert TopKeys[k..] == [];
    var i := 0;
    while i < |Roots|
      invariant 0 <= i <= |Roots|
      invariant FirstNested(payload, Roots[i..], NestedKeys) == FirstNested(payload, Roots, NestedKeys)
    {
      assert Roots[i..][0] == Roots[i] && Roots[i..][1..] == Roots[i + 1..];
      var root := Roots[i];
      var got := Get(payload, root);
      var blob := if got.Some? && got.value.JObj? then got.value else payload;
      var j := 0;
      while j < |NestedKeys|
        invariant 0 <= j <= |NestedKeys|
        invariant FirstDig(blob, NestedKeys[j..]) == FirstDig(blob, NestedKeys)
      {
        assert NestedKeys[j..][0] == NestedKeys[j] && NestedKeys[j..][1..] == NestedKeys[j + 1..];
        var val := Dig(blob, NestedKeys[j]);
        if val.Some? && val.value != "" {
          return false, val;
        }
        j := j + 1;
      }
      assert NestedKeys[j..] == [];
      i := i + 1;
    }
    assert Roots[i..] == [];
    return false, None;
  }

  // ------------------------------------------------------------ properties

  /** The object that holds `leaf` at the path `parts`. */
  function Nest(parts: seq<string>, leaf: Json): Json
    decreases |parts|
  {
    if parts == [] then leaf else JObj([(parts[0], Nest(parts[1..], leaf))])
  }

  /** A dotted lookup finds what was placed at its path. */
  lemma {:induction false} DigNest(parts: seq<string>, leaf: Json)
    ensures DigPath(Nest(parts, leaf), parts) == Leaf(leaf)
    decreases |parts|
  {
    if parts != [] {
      var o := Nest(parts, leaf);
      assert o.fields[0].0 == parts[0];
      assert Get(o, parts[0]) == Some(Nest(parts[1..], leaf));
      DigNest(parts[1..], leaf);
    }
  }

  /** A lookup through a value that is not an object fails. */
  lemma {:induction false} DigThroughLeaf(parts: seq<string>, leaf: Json, more: string)
    requires !leaf.JObj?
    ensures DigPath(Nest(parts, leaf), parts + [more]) == None
    decreases |parts|
  {
    if parts != [] {
      var o := Nest(parts, leaf);
      assert o.fields[0].0 == parts[0];
      assert Get(o, parts[0]) == Some(Nest(parts[1..], leaf));
      assert (parts + [more])[0] == parts[0] && (parts + [more])[1..] == parts[1..] + [more];
      DigThroughLeaf(parts[1..], leaf, more);
    }
  }

  /** A top-level `conversation_id` with a string value wins, even when it
      is empty and whatever else the record holds. */
  lemma TopLevelFirst(payload: Json, s: string)
    requires Get(payload, "conversation_id") == Some(JStr(s))
    ensures ConversationId(payload) == Some(s)
  {
  }

  /** A later top-level key is used only when the earlier ones are missing
      or hold neither a str nor an int. */
  lemma TopLevelOrder(payload: Json, s: string)
    requires !HasKey(payload, "conversation_id") && !HasKey(payload, "session_id")
    requires Get(payload, "conversationId") == Some(JInt(7))
    requires Get(payload, "sessionId") == Some(JStr(s))
    ensures ConversationId(payload) == Some("7")
  {
    assert TopKeys[2..][0] == "conversationId";
  }

  /** Whatever is found is non-empty unless it came from a top-level key. */
  lemma NestedNonEmpty(payload: Json)
    requires FirstTop(payload, TopKeys).None?
    ensures ConversationId(payload).Some? ==> ConversationId(payload).value != ""
  {
  }

  /** A record whose only content is `{"attributes": {"session": {"id": s}}}`
      yields `s`, found under the `attributes` root by the `session.id` path. */
  lemma NestedAttribute(s: string)
    requires s != ""
    ensures ConversationId(JObj([("attributes", Nest(["session", "id"], JStr(s)))])) == Some(s)
  {
    var inner := Nest(["session", "id"], JStr(s));
    var payload := JObj([("attributes", inner)]);
    NoTopLevel(payload, inner);
    assert Get(payload, "attributes") == Some(inner);
    assert Blob(payload, "attributes") == inner;
    SessionPath(s);
    assert Roots[0] == "attributes";
  }

  lemma NoTopLevel(payload: Json, inner: Json)
    requires payload == JObj([("attributes", inner)])
    ensures FirstTop(payload, TopKeys) == None
  {
    assert !HasKey(payload, "conversation_id") && !HasKey(payload, "session_id");
    assert !HasKey(payload, "conversationId") && !HasKey(payload, "sessionId");
    assert TopKeys[1..][1..][1..][1..] == [];
  }

  /** Of the nested keys, only `session.id` reaches `s`. */
  lemma SessionPath(s: string)
    requires s != ""
    ensures FirstDig(Nest(["session", "id"], JStr(s)), NestedKeys) == Some(s)
  {
    var inner := Nest(["session", "id"], JStr(s));
    MissingPaths(inner, s);
    FoundPath(inner, s);
    var ks := NestedKeys;
    assert ks[1..][1..][0] == "session.id";
    assert FirstDig(inner, ks[1..][1..]) == Some(s);
    assert FirstDig(inner, ks[1..]) == Some(s);
  }

  lemma MissingPaths(inner: Json, s: string)
    requires inner == Nest(["session", "id"], JStr(s))
    ensures DigPath(inner, Split("conversation.id", '.')) == None
    ensures DigPath(inner, Split("conversation_id", '.')) == None
  {
    SplitConversationId();
    assert inner == JObj([("session", Nest(["id"], JStr(s)))]);
    assert |"session"| != |"conversation"| && |"session"| != |"conversation_id"|;
    GetSingle("session", Nest(["id"], JStr(s)), "conversation");
    GetSingle("session", Nest(["id"], JStr(s)), "conversation_id");
  }

  lemma SplitConversationId()
    ensures Split("conversation.id", '.') == ["conversation", "id"]
    ensures Split("conversation_id", '.') == ["conversation_id"]
  {
    SplitOnce("conversation", "id", '.');
    assert "conversation" + ['.'] + "id" == "conversation.id";
    assert IndexOf("conversation_id", '.', 0) == |"conversation_id"|;
  }

  lemma FoundPath(inner: Json, s: string)
    requires inner == Nest(["session", "id"], JStr(s))
    ensures DigPath(inner, Split("session.id", '.')) == Some(s)
  {
    assert Split("session.id", '.') == ["session", "id"] by {
      SplitOnce("session", "id", '.');
      assert "session" + ['.'] + "id" == "session.id";
    }
    DigNest(["session", "id"], JStr(s));
  }

  /** Splitting `a + [c] + b` where neither part holds `c`. */
  lemma SplitOnce(a: string, b: string, c: char)
    requires c !in a && c !in b
    ensures Split(a + [c] + b, c) == [a, b]
  {
    var s := a + [c] + b;
    assert s[|a|] == c;
    assert forall j :: 0 <= j < |a| ==> s[j] == a[j];
    assert IndexOf(s, c, 0) == |a|;
    assert s[..|a|] == a;
    assert s[|a| + 1..] == b;
    assert IndexOf(b, c, 0) == |b|;
  }
}
