/**
 * The tool-result card (components/mcp-result.tsx): the text shown for a tool
 * call's result, its truncation, the tool's icon and display name, and the
 * heading and parameter line built from the call's arguments.
 */
module McpResultView {
  import opened Wrappers
  import opened Json
  import opened Text
  import opened ToolContent

  const ErrorDefault: string := "An error occurred"
  /** The message of the TypeError thrown when a content item is null (reading its `type`). */
  const NullItem: string := "TypeError: Cannot read properties of null (reading 'type')"
  const Limit: nat := 300
  const DefaultHeading: string := "MCP 工具调用"

  /**
   * extractText on an object or array (truthy, `typeof` 'object'): an error
   * response gives its message, a `content` array its text items' texts joined
   * by '\n', a truthy `text` that text, anything else `JSON.stringify(result,
   * null, 2)`, which is the parameter `pretty`.
   */
  function ObjectText(v: Json, pretty: Json -> string): (r: Result<string>)
    requires v.JObj? || v.JArr?
    ensures Truthy(Member(v, "error")) ==>
      r == Success(if Truthy(Member(v, "message")) then ToJsString(Member(v, "message").value) else ErrorDefault)
    ensures !Truthy(Member(v, "error")) && Truthy(Member(v, "content")) && Member(v, "content").value.JArr? ==>
      (r.Success? <==> JNull !in Member(v, "content").value.items)
      && (r.Success? ==> r.value == Join(Texts(Member(v, "content").value.items), "\n"))
    ensures !Truthy(Member(v, "error")) && !(Truthy(Member(v, "content")) && Member(v, "content").value.JArr?) && Truthy(Member(v, "text")) ==>
      r == Success(ToJsString(Member(v, "text").value))
    ensures !Truthy(Member(v, "error")) && !(Truthy(Member(v, "content")) && Member(v, "content").value.JArr?) && !Truthy(Member(v, "text")) ==>
      r == Success(pretty(v))
    ensures v.JArr? ==> r == Success(pretty(v))
  {
    var error := Member(v, "error");
    var content := Member(v, "content");
    var text := Member(v, "text");
    if Truthy(error) then
      var message := Member(v, "message");
      Success(if Truthy(message) then ToJsString(message.value) else ErrorDefault)
    else if Truthy(content) && content.value.JArr? then
      if JNull in content.value.items then Failure(NullItem)
      else Success(Join(Texts(content.value.items), "\n"))
    else if Truthy(text) then Success(ToJsString(text.value))
    else Success(pretty(v))
  }

  /** `extractText(result)`; `None` is undefined. It throws only on a null content item. */
  function ExtractText(result: Option<Json>, pretty: Json -> string): (r: Result<string>)
    ensures result.Some? && result.value.JStr? ==> r == Success(result.value.s)
    ensures result == None ==> r == Success("undefined")
    ensures result.Some? && !result.value.JStr? && !result.value.JObj? && !result.value.JArr? ==>
      r == Success(ToJsString(result.value))
    ensures r.Failure? ==> r.error == NullItem
  {
    match result
    case None => Success("undefined")
    case Some(v) =>
      if v.JStr? then Success(v.s)
      else if v.JObj? || v.JArr? then ObjectText(v, pretty)
      else Success(ToJsString(v))
  }

  /** `result?.error`, truthy: the card is drawn as an error. */
  predicate HasError(result: Option<Json>) {
    result.Some? && Truthy(Member(result.value, "error"))
  }

  /** A result whose only property is a `content` array without null items shows its texts, one per line. */
  lemma ContentShown(items: seq<Json>, pretty: Json -> string)
    requires JNull !in items
    ensures ExtractText(Some(JObj([Field("content", JArr(items))])), pretty) == Success(Join(Texts(items), "\n"))
  {
    var v := JObj([Field("content", JArr(items))]);
    assert v.fields[0].key != "error" by {
      assert v.fields[0].key[0] != "error"[0];
    }
    assert Get(v.fields[1..], "error") == None;
    assert Member(v, "error") == None;
  }

  /** A tool result made of non-empty texts shows exactly those texts, one per line. */
  lemma TextResultShown(ts: seq<string>, pretty: Json -> string)
    requires forall i :: 0 <= i < |ts| ==> ts[i] != ""
    ensures
      var items := seq(|ts|, i requires 0 <= i < |ts| => TextItem(ts[i]));
      ExtractText(Some(JObj([Field("content", JArr(items))])), pretty) == Success(Join(ts, "\n"))
  {
    var items := seq(|ts|, i requires 0 <= i < |ts| => TextItem(ts[i]));
    TextsOfTextItems(ts);
    assert JNull !in items by {
      forall i | 0 <= i < |items| ensures items[i] != JNull {
        assert items[i] == TextItem(ts[i]);
      }
    }
    ContentShown(items, pretty);
  }

  /** `isExpanded || !isLongContent ? text : text.substring(0, 300) + '...'` */
  function DisplayText(text: string, expanded: bool): (r: string)
    ensures expanded || |text| <= Limit ==> r == text
    ensures !expanded && |text| > Limit ==> |r| == Limit + 3 && r[..Limit] == text[..Limit] && r[Limit..] == "..."
  {
    if expanded || |text| <= Limit then text else text[..Limit] + "..."
  }

  const KnownTools: set<string> := {"howToUse", "searchKnowledgeBase", "searchWordPressPosts", "listFaqDocuments", "getFaqDocument"}

  /** `getToolIcon` */
  function ToolIcon(toolName: string): (r: string)
    ensures toolName !in KnownTools <==> r == "🔧"
  {
    match toolName
    case "howToUse" => "💡"
    case "searchKnowledgeBase" => "🔍"
    case "searchWordPressPosts" => "📰"
    case "listFaqDocuments" => "📋"
    case "getFaqDocument" => "❓"
    case _ => "🔧"
  }

  /** `getToolDisplayName`: a fixed name for the five tools, the tool's own name for any other. */
  function ToolDisplayName(toolName: string): (r: string)
    ensures toolName !in KnownTools <==> r == toolName
    ensures toolName == "searchWordPressPosts" ==> r == "WordPress 搜索"
  {
    match toolName
    case "howToUse" => "使用指南"
    case "searchKnowledgeBase" => "知识库搜索"
    case "searchWordPressPosts" => "WordPress 搜索"
    case "listFaqDocuments" => "FAQ 列表"
    case "getFaqDocument" => "FAQ 文档"
    case _ => toolName
  }

  /** `args.keywords || args.userQuery || args.id || 'MCP 工具调用'`: the first truthy one. */
  function Heading(args: seq<Field>): (r: Json)
    ensures Truthy(Some(r))
    ensures Truthy(Get(args, "keywords")) ==> Some(r) == Get(args, "keywords")
    ensures !Truthy(Get(args, "keywords")) && Truthy(Get(args, "userQuery")) ==> Some(r) == Get(args, "userQuery")
    ensures !Truthy(Get(args, "keywords")) && !Truthy(Get(args, "userQuery")) && Truthy(Get(args, "id")) ==> Some(r) == Get(args, "id")
    ensures !Truthy(Get(args, "keywords")) && !Truthy(Get(args, "userQuery")) && !Truthy(Get(args, "id")) ==> r == JStr(DefaultHeading)
  {
    var keywords := Get(args, "keywords");
    var userQuery := Get(args, "userQuery");
    var id := Get(args, "id");
    if Truthy(keywords) then keywords.value
    else if Truthy(userQuery) then userQuery.value
    else if Truthy(id) then id.value
    else JStr(DefaultHeading)
  }

  predicate InHeading(key: string) {
    key == "keywords" || key == "userQuery" || key == "id"
  }

  /** The entries of the parameter line: every argument not used for the heading, in entry order. */
  function ParamEntries(args: seq<Field>): (r: seq<Field>)
    ensures |r| <= |args|
    ensures forall f :: f in r <==> f in args && !InHeading(f.key)
  {
    if args == [] then []
    else (if InHeading(args[0].key) then [] else [args[0]]) + ParamEntries(args[1..])
  }

  function Entry(f: Field): string {
    f.key + ": " + ToJsString(f.value)
  }

  /** The parameter line: `key: value` for those entries, joined by ', '. */
  function ParamLine(args: seq<Field>): string {
    var e := ParamEntries(args);
    Join(seq(|e|, i requires 0 <= i < |e| => Entry(e[i])), ", ")
  }

  /** The parameter line is empty exactly when every argument went to the heading. */
  lemma ParamLineEmpty(args: seq<Field>)
    ensures ParamLine(args) == "" <==> forall f :: f in args ==> InHeading(f.key)
  {
    var e := ParamEntries(args);
    var xs := seq(|e|, i requires 0 <= i < |e| => Entry(e[i]));
    if e != [] {
      assert e[0] in e;
      assert |Entry(e[0])| >= 2;
      assert |Join(xs, ", ")| >= |xs[0]|;
    }
  }
}
