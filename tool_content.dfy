/**
 * The `content` array of a tool result, as lib/ai/tools/course-info.ts and
 * components/mcp-result.tsx both read it: the texts of its 'text' items.
 */
module ToolContent {
  import opened Wrappers
  import opened Json

  /** `item.type === 'text' && item.text` */
  predicate IsTextItem(item: Json) {
    Member(item, "type") == Some(JStr("text")) && Truthy(Member(item, "text"))
  }

  /** `.filter(item => item.type === 'text' && item.text).map(item => item.text)`, in order. */
  function Texts(items: seq<Json>): (r: seq<string>)
    ensures |r| <= |items|
  {
    if items == [] then [] else TextOf(items[0]) + Texts(items[1..])
  }

  /** What one item contributes: its text if it is a text item, else nothing. */
  function TextOf(item: Json): (r: seq<string>)
    ensures |r| <= 1
  {
    if IsTextItem(item) then [ToJsString(Member(item, "text").value)] else []
  }

  lemma {:induction false} TextsAppend(a: seq<Json>, b: seq<Json>)
    ensures Texts(a + b) == Texts(a) + Texts(b)
  {
    if a == [] {
      assert a + b == b;
    } else {
      assert (a + b)[1..] == a[1..] + b;
      TextsAppend(a[1..], b);
    }
  }

  /** Items that are not text items, or whose text is empty, contribute nothing. */
  lemma NonTextIgnored(items: seq<Json>, other: Json)
    requires !IsTextItem(other)
    ensures Texts(items + [other]) == Texts(items)
  {
    TextsAppend(items, [other]);
  }

  /** The item a tool server sends for one piece of text: `{type: 'text', text}`. */
  function TextItem(t: string): Json {
    JObj([Field("type", JStr("text")), Field("text", JStr(t))])
  }

  /** Reading back the items made from non-empty texts gives those texts. */
  lemma {:induction false} TextsOfTextItems(ts: seq<string>)
    requires forall i :: 0 <= i < |ts| ==> ts[i] != ""
    ensures Texts(seq(|ts|, i requires 0 <= i < |ts| => TextItem(ts[i]))) == ts
    decreases |ts|
  {
    var items := seq(|ts|, i requires 0 <= i < |ts| => TextItem(ts[i]));
    if ts != [] {
      var rest := seq(|ts| - 1, i requires 0 <= i < |ts| - 1 => TextItem(ts[1..][i]));
      assert items[1..] == rest;
      TextsOfTextItems(ts[1..]);
      var item := TextItem(ts[0]);
      assert Get(item.fields[1..], "text") == Some(JStr(ts[0]));
      assert IsTextItem(item);
    }
  }
}
