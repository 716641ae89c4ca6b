/**
 * The course-information chat tool (lib/ai/tools/course-info.ts): a cached
 * global session that is re-established on demand, a tool call retried once
 * on a brand-new session, result formatting, and the per-search-type
 * assembly of markdown sections.
 */
module CourseInfoTool {
  import opened Wrappers
  import opened Json
  import opened Text
  import opened McpCalls
  import opened ToolContent

  const NoInfo: string := "没有找到相关信息"
  const UnavailableError: string := "知识库服务暂时不可用，请稍后重试"
  const QueryFailedPrefix: string := "知识库查询失败: "
  /** The message of the TypeError thrown when a result's content cannot be filtered. */
  const NotFilterable: string := "TypeError: result.content.filter is not a function"
  const SectionSeparator: string := "\n\n---\n\n"
  const HelpOpening: string := "# ℹ️ 使用说明\n\n抱歉没有找到关于 \""
  const HelpClosing: string := "\" 的具体信息。\n\n"
  const ApologyOpening: string := "# ❌ 搜索结果\n\n抱歉，没有找到关于 \""
  const ApologyClosing: string :=
    "\" 的相关信息。\n\n请尝试：\n- 使用更具体的关键词\n- 访问官方网站：https://justincourse.com\n- 浏览课程平台：https://app.justincourse.com"
  const Resources: string :=
    "\n\n---\n\n# 🔗 官方资源\n\n- 🏠 **官方网站**: https://justincourse.com\n- 📚 **课程平台**: https://app.justincourse.com\n- 💡 **更多课程信息和报名**: https://justincourse.com"

  // ------------------------------------------------------------ pure parts

  /** `Math.min(Math.max(maxResults, 1), 10)` */
  function MaxRes(n: int): (r: int)
    ensures 1 <= r <= 10
    ensures 1 <= n <= 10 ==> r == n
    ensures n < 1 ==> r == 1
    ensures n > 10 ==> r == 10
  {
    if n < 1 then 1 else if n > 10 then 10 else n
  }

  function Min(a: int, b: int): int {
    if a < b then a else b
  }

  /** The FAQ keywords of the courses search. */
  function FaqKeywords(query: string): (r: string)
    ensures Contains(query, "课程") || Contains(ToLower(query), "course") ==> r == "课程"
    ensures !(Contains(query, "课程") || Contains(ToLower(query), "course")) ==> r == query
  {
    if Contains(query, "课程") || Contains(ToLower(query), "course") then "课程" else query
  }

  /**
   * formatMCPResult. A missing result or content, or an empty content array,
   * gives the sentinel. An array with a null item throws (reading `type` of
   * null), as does any other truthy content, which has no `filter`; a
   * content object whose `length` is 0 passes the emptiness test first.
   */
  function FormatMcpResult(result: Option<Json>): (r: Result<string>)
    ensures !Truthy(result) ==> r == Success(NoInfo)
    ensures result.Some? && !Truthy(Member(result.value, "content")) ==> r == Success(NoInfo)
    ensures result.Some? && Member(result.value, "content") == Some(JArr([])) ==> r == Success(NoInfo)
    ensures result.Some? && Member(result.value, "content").Some? && Member(result.value, "content").value.JArr?
            && Member(result.value, "content").value.items != [] ==>
      (r.Success? <==> JNull !in Member(result.value, "content").value.items)
    ensures result.Some? && Member(result.value, "content").Some? && Member(result.value, "content").value.JArr?
            && Member(result.value, "content").value.items != [] && JNull !in Member(result.value, "content").value.items ==>
      r == Success(Join(Texts(Member(result.value, "content").value.items), "\n\n"))
    ensures result.Some? && Truthy(Member(result.value, "content"))
            && !Member(result.value, "content").value.JArr? && !Member(result.value, "content").value.JObj? ==>
      r == Failure(NotFilterable)
    ensures result.Some? && Member(result.value, "content").Some? && Member(result.value, "content").value.JObj? ==>
      r == if Get(Member(result.value, "content").value.fields, "length") == Some(JNum(0)) then Success(NoInfo)
           else Failure(NotFilterable)
  {
    if !Truthy(result) then Success(NoInfo)
    else
      var content := Member(result.value, "content");
      if !Truthy(content) then Success(NoInfo)
      else match content.value
        case JArr(items) =>
          if items == [] then Success(NoInfo)
          else if JNull in items then Failure(NotFilterable)
          else Success(Join(Texts(items), "\n\n"))
        case JObj(fields) =>
          if Get(fields, "length") == Some(JNum(0)) then Success(NoInfo) else Failure(NotFilterable)
        case _ => Failure(NotFilterable)
  }

  /** A single text item with a non-empty string formats to exactly that string. */
  lemma SingleTextFormatted(t: string)
    requires t != ""
    ensures FormatMcpResult(Some(JObj([Field("content", JArr([JObj([Field("type", JStr("text")), Field("text", JStr(t))])]))])))
         == Success(t)
  {
    var item := JObj([Field("type", JStr("text")), Field("text", JStr(t))]);
    assert Get(item.fields[1..], "text") == Some(JStr(t));
    assert IsTextItem(item);
    assert Texts([item]) == [t];
  }

  /** `formatted && formatted !== '没有找到相关信息'`, for a formatting that did not throw. */
  predicate Useful(f: Result<string>) {
    f.Success? && f.value != "" && f.value != NoInfo
  }

  function Section(heading: string, body: string): string {
    heading + "\n\n" + body
  }

  /** The section a search pushes: only for a useful formatting. */
  function Push(heading: string, f: Result<string>): (r: seq<string>)
    ensures |r| <= 1
    ensures r != [] <==> Useful(f)
    ensures r != [] ==> r == [Section(heading, f.value)]
  {
    if Useful(f) then [Section(heading, f.value)] else []
  }

  function HelpSection(query: string, help: string): string {
    HelpOpening + query + HelpClosing + help
  }

  function ApologySection(query: string): string {
    ApologyOpening + query + ApologyClosing
  }

  /** The final answer: the sections joined by rules, then the fixed resources block. */
  function Assemble(sections: seq<string>): string {
    Join(sections, SectionSeparator) + Resources
  }

  datatype SearchType = Comprehensive | Courses | Tutorials | FaqSearch

  function KnowledgeArgs(query: string, sources: string, maxRes: int): Json {
    JObj([Field("keywords", JStr(query)), Field("sources", JStr(sources)), Field("max_results", JNum(maxRes))])
  }

  function WordPressArgs(query: string, maxRes: int): Json {
    JObj([Field("keywords", JStr(query)), Field("per_page", JNum(maxRes))])
  }

  function FaqArgs(keywords: string, limit: int): Json {
    JObj([Field("keywords", JStr(keywords)), Field("limit", JNum(limit))])
  }

  // ------------------------------------------------- the session cache

  /** The module variable `globalMCPSession` and the log of client calls made so far. */
  datatype ToolState = ToolState(global: Option<string>, calls: seq<ClientCall>)

  /** ensureMCPConnection: any failure becomes the fixed "service unavailable" error. */
  function EnsureConn(s: ToolState, env: Env): (ToolState, Result<string>) {
    if IsSet(s.global) && env(|s.calls|).connected then
      (s.(calls := s.calls + [GetStatus(s.global.value)]), Success(s.global.value))
    else
      var mid := if IsSet(s.global) then s.calls + [GetStatus(s.global.value)] else s.calls;
      var a := env(|mid|).session;
      var after := mid + [EnsureConnection(None)];
      if a.Success? then (ToolState(Some(a.value), after), Success(a.value))
      else (ToolState(s.global, after), Failure(UnavailableError))
  }

  /** callMCPTool: one retry, on a session from connectSession() that replaces the cache. */
  function Call(s: ToolState, tool: string, args: Json, env: Env): (ToolState, Result<Option<Json>>) {
    var p := EnsureConn(s, env);
    if p.1.Failure? then (p.0, Failure(p.1.error)) else Attempt(p.0, p.1.value, tool, args, env)
  }

  /** The first callTool, on the session ensureMCPConnection returned. */
  function Attempt(s: ToolState, sid: string, tool: string, args: Json, env: Env): (ToolState, Result<Option<Json>>) {
    var a := env(|s.calls|).result;
    var s1 := s.(calls := s.calls + [CallTool(sid, tool, args)]);
    if a.Success? then (s1, a) else Retry(s1, a.error, tool, args, env)
  }

  /** The catch block: connectSession(), cache its id, call again; report the first error. */
  function Retry(s: ToolState, firstError: string, tool: string, args: Json, env: Env): (ToolState, Result<Option<Json>>) {
    var c := env(|s.calls|).session;
    var s2 := s.(calls := s.calls + [ConnectSession(None)]);
    if c.Failure? then (s2, Failure(QueryFailedPrefix + firstError))
    else
      var b := env(|s2.calls|).result;
      var s3 := ToolState(Some(c.value), s2.calls + [CallTool(c.value, tool, args)]);
      if b.Success? then (s3, b) else (s3, Failure(QueryFailedPrefix + firstError))
  }

  /** A tool call followed by formatMCPResult, both inside one try block. */
  function Fetch(s: ToolState, tool: string, args: Json, env: Env): (ToolState, Result<string>) {
    var p := Call(s, tool, args, env);
    if p.1.Failure? then (p.0, Failure(p.1.error)) else (p.0, FormatMcpResult(p.1.value))
  }

  /** A cached session reported connected is used without any connection attempt. */
  lemma ConnectedCacheUsed(s: ToolState, tool: string, args: Json, env: Env)
    requires IsSet(s.global) && env(|s.calls|).connected
    ensures Call(s, tool, args, env).0.calls[|s.calls|..][..2]
         == [GetStatus(s.global.value), CallTool(s.global.value, tool, args)]
  {
  }

  /** The position in the log of ensureMCPConnection's `ensureConnection()`, after the optional status query. */
  function EnsureAt(s: ToolState): nat {
    if IsSet(s.global) then |s.calls| + 1 else |s.calls|
  }

  /**
   * ensureMCPConnection's promise: a connected cached session is returned
   * and kept. Otherwise the id from ensureConnection() is cached and
   * returned. Any failure leaves the cache alone and reports exactly the
   * fixed "service unavailable" message.
   */
  lemma EnsureConnCaches(s: ToolState, env: Env)
    ensures IsSet(s.global) && env(|s.calls|).connected ==>
      && EnsureConn(s, env).0 == s.(calls := s.calls + [GetStatus(s.global.value)])
      && EnsureConn(s, env).1 == Success(s.global.value)
    ensures !(IsSet(s.global) && env(|s.calls|).connected) ==>
      && |EnsureConn(s, env).0.calls| == EnsureAt(s) + 1
      && EnsureConn(s, env).0.calls[EnsureAt(s)] == EnsureConnection(None)
    ensures !(IsSet(s.global) && env(|s.calls|).connected) && env(EnsureAt(s)).session.Success? ==>
      && EnsureConn(s, env).0.global == Some(env(EnsureAt(s)).session.value)
      && EnsureConn(s, env).1 == Success(env(EnsureAt(s)).session.value)
    ensures EnsureConn(s, env).1.Failure? ==>
      EnsureConn(s, env).0.global == s.global && EnsureConn(s, env).1.error == UnavailableError
  {
  }

  /**
   * On a session freshly obtained by ensureMCPConnection, callMCPTool sends
   * the tool to that just-cached id, and an answer is returned as it is.
   */
  lemma FreshSessionCalled(s: ToolState, tool: string, args: Json, env: Env)
    requires !(IsSet(s.global) && env(|s.calls|).connected)
    requires env(EnsureAt(s)).session.Success?
    ensures var sid := env(EnsureAt(s)).session.value;
      && Call(s, tool, args, env).0.calls[EnsureAt(s) + 1] == CallTool(sid, tool, args)
      && (env(EnsureAt(s) + 1).result.Success? ==>
            Call(s, tool, args, env) == (ToolState(Some(sid), EnsureConn(s, env).0.calls + [CallTool(sid, tool, args)]), env(EnsureAt(s) + 1).result))
  {
    EnsureConnCaches(s, env);
  }

  lemma EnsureConnLog(s: ToolState, env: Env, tool: string, args: Json)
    ensures LogGrows(s.calls, EnsureConn(s, env).0.calls, tool, args, 0)
  {
    var mid := if IsSet(s.global) then s.calls + [GetStatus(s.global.value)] else s.calls;
    if IsSet(s.global) {
      AppendOne(s.calls, GetStatus(s.global.value), tool, args);
    }
    assert LogGrows(s.calls, mid, tool, args, 0);
    if !(IsSet(s.global) && env(|s.calls|).connected) {
      AppendOne(mid, EnsureConnection(None), tool, args);
      LogGrowsTrans(s.calls, mid, mid + [EnsureConnection(None)], tool, args, 0, 0);
    }
  }

  lemma RetryLog(s: ToolState, firstError: string, tool: string, args: Json, env: Env)
    ensures LogGrows(s.calls, Retry(s, firstError, tool, args, env).0.calls, tool, args, 1)
  {
    var s2 := s.calls + [ConnectSession(None)];
    AppendOne(s.calls, ConnectSession(None), tool, args);
    var c := env(|s.calls|).session;
    if c.Success? {
      var s3 := s2 + [CallTool(c.value, tool, args)];
      assert Retry(s, firstError, tool, args, env).0.calls == s3;
      AppendOne(s2, CallTool(c.value, tool, args), tool, args);
      LogGrowsTrans(s.calls, s2, s3, tool, args, 0, 1);
    } else {
      assert Retry(s, firstError, tool, args, env).0.calls == s2;
    }
  }

  lemma AttemptLog(s: ToolState, sid: string, tool: string, args: Json, env: Env)
    ensures LogGrows(s.calls, Attempt(s, sid, tool, args, env).0.calls, tool, args, 2)
  {
    var s1 := s.(calls := s.calls + [CallTool(sid, tool, args)]);
    AppendOne(s.calls, CallTool(sid, tool, args), tool, args);
    if env(|s.calls|).result.Failure? {
      RetryLog(s1, env(|s.calls|).result.error, tool, args, env);
      LogGrowsTrans(s.calls, s1.calls, Retry(s1, env(|s.calls|).result.error, tool, args, env).0.calls, tool, args, 1, 1);
    }
  }

  /** At most two tool calls, both with the given tool and arguments. */
  lemma CallRetriesOnce(s: ToolState, tool: string, args: Json, env: Env)
    ensures LogGrows(s.calls, Call(s, tool, args, env).0.calls, tool, args, 2)
  {
    var p := EnsureConn(s, env);
    EnsureConnLog(s, env, tool, args);
    if p.1.Success? {
      AttemptLog(p.0, p.1.value, tool, args, env);
      LogGrowsTrans(s.calls, p.0.calls, Attempt(p.0, p.1.value, tool, args, env).0.calls, tool, args, 0, 2);
    }
  }

  /** A failed call reports the fixed "unavailable" error or a query-failed message. */
  lemma CallFailureMessage(s: ToolState, tool: string, args: Json, env: Env)
    requires Call(s, tool, args, env).1.Failure?
    ensures var e := Call(s, tool, args, env).1.error;
      e == UnavailableError || (StartsWith(e, QueryFailedPrefix) && e != UnavailableError)
  {
    var p := EnsureConn(s, env);
    if p.1.Success? {
      var e := env(|p.0.calls|).result.error;
      assert (QueryFailedPrefix + e)[..|QueryFailedPrefix|] == QueryFailedPrefix;
      assert (QueryFailedPrefix + e)[3] != UnavailableError[3];
    }
  }

  /**
   * The retry: when the first tool call is rejected, connectSession() is asked
   * for a new session, and if it gives one, that session is cached and called.
   */
  lemma RetryOnFreshSession(s: ToolState, tool: string, args: Json, env: Env)
    requires EnsureConn(s, env).1.Success?
    requires env(|EnsureConn(s, env).0.calls|).result.Failure?
    ensures var n := |EnsureConn(s, env).0.calls|;
      var r := Call(s, tool, args, env);
      && r.0.calls[n + 1] == ConnectSession(None)
      && (env(n + 1).session.Success? ==>
            && r.0.global == Some(env(n + 1).session.value)
            && r.0.calls[n + 2] == CallTool(env(n + 1).session.value, tool, args)
            && r.1 == (if env(n + 2).result.Success? then env(n + 2).result
                       else Failure(QueryFailedPrefix + env(n).result.error)))
      && (env(n + 1).session.Failure? ==> r.1 == Failure(QueryFailedPrefix + env(n).result.error))
  {
  }
  // ------------------------------------------------- execute

  /** The courses search's fallback to the knowledge base, keeping what was pushed before the error. */
  function CoursesFallback(s: ToolState, found: seq<string>, query: string, maxRes: int, env: Env): (ToolState, seq<string>) {
    var p := Fetch(s, "search_knowledge_base", KnowledgeArgs(query, "all", maxRes), env);
    (p.0, found + Push("# 📚 课程信息", p.1))
  }

  function ComprehensiveCase(s: ToolState, query: string, maxRes: int, env: Env): (ToolState, seq<string>) {
    var p := Fetch(s, "search_knowledge_base", KnowledgeArgs(query, "all", maxRes), env);
    (p.0, Push("# 📚 知识库搜索结果", p.1))
  }

  /** WordPress, then the FAQ list; an error in either falls back to the knowledge base. */
  function CoursesCase(s: ToolState, query: string, maxRes: int, env: Env): (ToolState, seq<string>) {
    var p1 := Fetch(s, "search_wordpress_posts", WordPressArgs(query, maxRes), env);
    if p1.1.Failure? then CoursesFallback(p1.0, [], query, maxRes, env)
    else
      var found := Push("# 📰 课程详细内容", p1.1);
      var p2 := Fetch(p1.0, "list_faq_documents", FaqArgs(FaqKeywords(query), Min(maxRes, 5)), env);
      if p2.1.Failure? then CoursesFallback(p2.0, found, query, maxRes, env)
      else (p2.0, found + Push("# 📚 课程相关FAQ", p2.1))
  }

  function TutorialsCase(s: ToolState, query: string, maxRes: int, env: Env): (ToolState, seq<string>) {
    var p1 := Fetch(s, "search_wordpress_posts", WordPressArgs(query, maxRes), env);
    if Useful(p1.1) then (p1.0, [Section("# 📖 技术教程", p1.1.value)])
    else if p1.1.Failure? then (p1.0, [])
    else
      var p2 := Fetch(p1.0, "search_knowledge_base", KnowledgeArgs(query, "wordpress", maxRes), env);
      (p2.0, Push("# 📖 相关教程", p2.1))
  }

  function FaqCase(s: ToolState, query: string, maxRes: int, env: Env): (ToolState, seq<string>) {
    var p := Fetch(s, "list_faq_documents", FaqArgs(query, maxRes), env);
    (p.0, Push("# ❓ 常见问题", p.1))
  }

  /** The sections the switch of `execute` pushes for one search type. */
  function CaseSections(s: ToolState, t: SearchType, query: string, maxRes: int, env: Env): (ToolState, seq<string>) {
    match t
    case Comprehensive => ComprehensiveCase(s, query, maxRes, env)
    case Courses => CoursesCase(s, query, maxRes, env)
    case Tutorials => TutorialsCase(s, query, maxRes, env)
    case FaqSearch => FaqCase(s, query, maxRes, env)
  }

  /** When nothing was found: exactly one help section, or the apology when the guide fails. */
  function NoResults(s: ToolState, query: string, env: Env): (ToolState, string) {
    HelpOrApology(Fetch(s, "how_to_use", JObj([]), env), query)
  }

  /** The section made from the `how_to_use` answer: help over its text, or the apology. */
  function HelpOrApology(p: (ToolState, Result<string>), query: string): (ToolState, string) {
    if p.1.Success? then (p.0, HelpSection(query, p.1.value)) else (p.0, ApologySection(query))
  }

  /** `execute`: the sections, one help or apology section if there were none, and the answer. */
  function ExecuteSpec(s: ToolState, query: string, searchType: Option<SearchType>, maxResults: Option<int>, env: Env)
    : (ToolState, seq<string>)
  {
    WithFallback(CaseSections(s, searchType.GetOr(Comprehensive), query, MaxRes(maxResults.GetOr(5)), env), query, env)
  }

  /** The case's sections, or the single help or apology section when there are none. */
  function WithFallback(c: (ToolState, seq<string>), query: string, env: Env): (ToolState, seq<string>) {
    if c.1 != [] then c
    else
      var n := NoResults(c.0, query, env);
      (n.0, [n.1])
  }

  /** Every section a search pushes is one of its headings over a useful formatting. */
  ghost predicate SectionOf(sec: string, headings: seq<string>) {
    exists h, body :: h in headings && Useful(Success(body)) && sec == Section(h, body)
  }

  function Headings(t: SearchType): seq<string> {
    match t
    case Comprehensive => ["# 📚 知识库搜索结果"]
    case Courses => ["# 📰 课程详细内容", "# 📚 课程相关FAQ", "# 📚 课程信息"]
    case Tutorials => ["# 📖 技术教程", "# 📖 相关教程"]
    case FaqSearch => ["# ❓ 常见问题"]
  }

  lemma PushSection(h: string, f: Result<string>, headings: seq<string>)
    requires h in headings
    ensures forall sec :: sec in Push(h, f) ==> SectionOf(sec, headings)
  {
    if Useful(f) {
      assert Push(h, f) == [Section(h, f.value)];
      assert Useful(Success(f.value));
    }
  }

  /**
   * A search pushes only sections made of its own headings and useful
   * results: at most one, or two for the courses search.
   */
  lemma CaseSectionsUseful(s: ToolState, t: SearchType, query: string, maxRes: int, env: Env)
    ensures var found := CaseSections(s, t, query, maxRes, env).1;
      && |found| <= (if t.Courses? then 2 else 1)
      && forall sec :: sec in found ==> SectionOf(sec, Headings(t))
  {
    var hs := Headings(t);
    match t
    case Comprehensive =>
      PushSection("# 📚 知识库搜索结果", Fetch(s, "search_knowledge_base", KnowledgeArgs(query, "all", maxRes), env).1, hs);
    case Courses =>
      var p1 := Fetch(s, "search_wordpress_posts", WordPressArgs(query, maxRes), env);
      PushSection("# 📰 课程详细内容", p1.1, hs);
      if p1.1.Failure? {
        PushSection("# 📚 课程信息", Fetch(p1.0, "search_knowledge_base", KnowledgeArgs(query, "all", maxRes), env).1, hs);
      } else {
        var found := Push("# 📰 课程详细内容", p1.1);
        var p2 := Fetch(p1.0, "list_faq_documents", FaqArgs(FaqKeywords(query), Min(maxRes, 5)), env);
        if p2.1.Failure? {
          PushSection("# 📚 课程信息", Fetch(p2.0, "search_knowledge_base", KnowledgeArgs(query, "all", maxRes), env).1, hs);
        } else {
          PushSection("# 📚 课程相关FAQ", p2.1, hs);
        }
      }
    case Tutorials =>
      var p1 := Fetch(s, "search_wordpress_posts", WordPressArgs(query, maxRes), env);
      PushSection("# 📖 技术教程", p1.1, hs);
      if !Useful(p1.1) && p1.1.Success? {
        PushSection("# 📖 相关教程", Fetch(p1.0, "search_knowledge_base", KnowledgeArgs(query, "wordpress", maxRes), env).1, hs);
      }
    case FaqSearch =>
      PushSection("# ❓ 常见问题", Fetch(s, "list_faq_documents", FaqArgs(query, maxRes), env).1, hs);
  }

  /**
   * The tutorials search falls back to the knowledge base, restricted to
   * WordPress, exactly when its first result formatted to something empty;
   * a useful first result is the only section and ends the search.
   */
  lemma TutorialsFallback(s: ToolState, query: string, maxRes: int, env: Env)
    ensures var p1 := Fetch(s, "search_wordpress_posts", WordPressArgs(query, maxRes), env);
      var c := TutorialsCase(s, query, maxRes, env);
      && (Useful(p1.1) ==> c == (p1.0, [Section("# 📖 技术教程", p1.1.value)]))
      && (p1.1.Failure? ==> c == (p1.0, []))
      && (p1.1.Success? && !Useful(p1.1) ==>
            c.0 == Fetch(p1.0, "search_knowledge_base", KnowledgeArgs(query, "wordpress", maxRes), env).0)
  {
  }

  /**
   * The answer always has at least one section: the search's own sections,
   * or exactly one help or apology section when there were none.
   */
  lemma ExecuteSections(s: ToolState, query: string, searchType: Option<SearchType>, maxResults: Option<int>, env: Env)
    ensures var c := CaseSections(s, searchType.GetOr(Comprehensive), query, MaxRes(maxResults.GetOr(5)), env);
      var r := ExecuteSpec(s, query, searchType, maxResults, env);
      && |r.1| >= 1
      && (c.1 != [] ==> r.1 == c.1)
      && (c.1 == [] ==> |r.1| == 1 && (r.1[0] == ApologySection(query)
                                      || exists help :: r.1[0] == HelpSection(query, help)))
  {
    FallbackSections(CaseSections(s, searchType.GetOr(Comprehensive), query, MaxRes(maxResults.GetOr(5)), env), query, env);
  }

  lemma FallbackSections(c: (ToolState, seq<string>), query: string, env: Env)
    ensures var r := WithFallback(c, query, env);
      && |r.1| >= 1
      && (c.1 != [] ==> r.1 == c.1)
      && (c.1 == [] ==> |r.1| == 1 && (r.1[0] == ApologySection(query)
                                      || exists help :: r.1[0] == HelpSection(query, help)))
  {
    if c.1 == [] {
      NoResultsSection(c.0, query, env);
    }
  }

  /** The fallback section is the help section over some usage text, or the apology. */
  lemma NoResultsSection(s: ToolState, query: string, env: Env)
    ensures var sec := NoResults(s, query, env).1;
      sec == ApologySection(query) || exists help :: sec == HelpSection(query, help)
  {
    HelpOrApologySection(Fetch(s, "how_to_use", JObj([]), env), query);
  }

  lemma HelpOrApologySection(p: (ToolState, Result<string>), query: string)
    ensures var sec := HelpOrApology(p, query).1;
      sec == ApologySection(query) || exists help :: sec == HelpSection(query, help)
  {
    if p.1.Success? {
      assert HelpOrApology(p, query).1 == HelpSection(query, p.1.value);
    }
  }

  /** The answer ends with the resources block and starts with the first section. */
  lemma AssembleShape(sections: seq<string>)
    requires |sections| >= 1
    ensures EndsWith(Assemble(sections), Resources)
    ensures StartsWith(Assemble(sections), sections[0])
  {
    var j := Join(sections, SectionSeparator);
    assert Assemble(sections)[|j|..] == Resources;
    assert StartsWith(j, sections[0]) by {
      if |sections| > 1 {
        assert j == sections[0] + (SectionSeparator + Join(sections[1..], SectionSeparator));
      }
    }
    assert Assemble(sections)[..|sections[0]|] == j[..|sections[0]|];
  }

  class CourseInfo {
    var globalMcpSession: Option<string>
    /** The client calls made so far; the environment answers them by position. */
    var calls: seq<ClientCall>

    function State(): ToolState
      reads this
    {
      ToolState(globalMcpSession, calls)
    }

    constructor ()
      ensures State() == ToolState(None, [])
    {
      globalMcpSession := None;
      calls := [];
    }

    method EnsureMcpConnection(env: Env) returns (r: Result<string>)
      modifies this
      ensures (State(), r) == EnsureConn(old(State()), env)
    {
      if IsSet(globalMcpSession) {
        var connected := env(|calls|).connected;
        calls := calls + [GetStatus(globalMcpSession.value)];
        if connected {
          return Success(globalMcpSession.value);
        }
      }
      var a := env(|calls|).session;
      calls := calls + [EnsureConnection(None)];
      if a.Failure? {
        return Failure(UnavailableError);
      }
      globalMcpSession := Some(a.value);
      r := Success(a.value);
    }

    method CallMcpTool(tool: string, args: Json, env: Env) returns (r: Result<Option<Json>>)
      modifies this
      ensures (State(), r) == Call(old(State()), tool, args, env)
    {
      var sid := EnsureMcpConnection(env);
      if sid.Failure? {
        return Failure(sid.error);
      }
      var a := env(|calls|).result;
      calls := calls + [CallTool(sid.value, tool, args)];
      if a.Success? {
        return a;
      }
      var c := env(|calls|).session;
      calls := calls + [ConnectSession(None)];
      if c.Failure? {
        return Failure(QueryFailedPrefix + a.error);
      }
      globalMcpSession := Some(c.value);
      var b := env(|calls|).result;
      calls := calls + [CallTool(c.value, tool, args)];
      if b.Success? {
        return b;
      }
      r := Failure(QueryFailedPrefix + a.error);
    }

    /** A call and its formatting, inside one try block of `execute`. */
    method Search(tool: string, args: Json, env: Env) returns (f: Result<string>)
      modifies this
      ensures (State(), f) == Fetch(old(State()), tool, args, env)
    {
      var r := CallMcpTool(tool, args, env);
      if r.Failure? {
        return Failure(r.error);
      }
      f := FormatMcpResult(r.value);
    }

    /** The switch of `execute`, pushing into `results`. */
    method SearchCase(t: SearchType, query: string, maxRes: int, env: Env) returns (results: seq<string>)
      modifies this
      ensures (State(), results) == CaseSections(old(State()), t, query, maxRes, env)
    {
      match t {
        case Comprehensive =>
          results := [];
          var f := Search("search_knowledge_base", KnowledgeArgs(query, "all", maxRes), env);
          if Useful(f) {
            results := results + [Section("# 📚 知识库搜索结果", f.value)];
          }
          assert results == Push("# 📚 知识库搜索结果", f);
        case Courses =>
          results := SearchCourses(query, maxRes, env);
        case Tutorials =>
          results := SearchTutorials(query, maxRes, env);
        case FaqSearch =>
          results := [];
          var f := Search("list_faq_documents", FaqArgs(query, maxRes), env);
          if Useful(f) {
            results := results + [Section("# ❓ 常见问题", f.value)];
          }
          assert results == Push("# ❓ 常见问题", f);
      }
    }

    method SearchCourses(query: string, maxRes: int, env: Env) returns (results: seq<string>)
      modifies this
      ensures (State(), results) == CoursesCase(old(State()), query, maxRes, env)
    {
      results := [];
      var failed := false;
      var f1 := Search("search_wordpress_posts", WordPressArgs(query, maxRes), env);
      if f1.Failure? {
        failed := true;
      } else {
        if Useful(f1) {
          results := results + [Section("# 📰 课程详细内容", f1.value)];
        }
        assert results == Push("# 📰 课程详细内容", f1);
        var f2 := Search("list_faq_documents", FaqArgs(FaqKeywords(query), Min(maxRes, 5)), env);
        if f2.Failure? {
          failed := true;
        } else {
          if Useful(f2) {
            results := results + [Section("# 📚 课程相关FAQ", f2.value)];
          }
          assert results == Push("# 📰 课程详细内容", f1) + Push("# 📚 课程相关FAQ", f2);
        }
      }
      if failed {
        ghost var s2 := State();
        ghost var found := results;
        var f3 := Search("search_knowledge_base", KnowledgeArgs(query, "all", maxRes), env);
        if Useful(f3) {
          results := results + [Section("# 📚 课程信息", f3.value)];
        }
        assert results == found + Push("# 📚 课程信息", f3);
      }
    }

    method SearchTutorials(query: string, maxRes: int, env: Env) returns (results: seq<string>)
      modifies this
      ensures (State(), results) == TutorialsCase(old(State()), query, maxRes, env)
    {
      results := [];
      var f1 := Search("search_wordpress_posts", WordPressArgs(query, maxRes), env);
      if Useful(f1) {
        results := [Section("# 📖 技术教程", f1.value)];
      } else if f1.Success? {
        var f2 := Search("search_knowledge_base", KnowledgeArgs(query, "wordpress", maxRes), env);
        if Useful(f2) {
          results := results + [Section("# 📖 相关教程", f2.value)];
        }
        assert results == Push("# 📖 相关教程", f2);
      }
    }

    /** `execute`: search, add the help or apology section when nothing was found, assemble. */
    method Execute(query: string, searchType: Option<SearchType>, maxResults: Option<int>, env: Env)
      returns (answer: string)
      modifies this
      ensures var r := ExecuteSpec(old(State()), query, searchType, maxResults, env);
        State() == r.0 && answer == Assemble(r.1)
    {
      var maxRes := MaxRes(maxResults.GetOr(5));
      var results := SearchCase(searchType.GetOr(Comprehensive), query, maxRes, env);
      if results == [] {
        var sec := HelpOrApologyFallback(query, env);
        results := [sec];
      }
      answer := Join(results, SectionSeparator) + Resources;
    }

    /** The `how_to_use` fallback of `execute`: its help section, or the apology when it fails. */
    method HelpOrApologyFallback(query: string, env: Env) returns (sec: string)
      modifies this
      ensures (State(), sec) == NoResults(old(State()), query, env)
    {
      var help := Search("how_to_use", JObj([]), env);
      if help.Success? {
        sec := HelpSection(query, help.value);
      } else {
        sec := ApologySection(query);
      }
    }
  }
}
