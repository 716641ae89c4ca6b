/**
 * The chat tools that forward to the MCP server (lib/ai/tools/mcp-tools.ts):
 * a cached shared session id, a call helper that never throws and forgets the
 * session on any failure, and five wrappers that only forward arguments.
 */
module McpTools {
  import opened Wrappers
  import opened Json
  import opened McpCalls

  const UnavailableMessage: string := "服务暂时不可用，请稍后重试或访问官方网站：https://justincourse.com"

  /** What a wrapper returns: the tool's result, or `{error: true, message}`. */
  datatype Reply = ToolResult(result: Option<Json>) | ErrorReply(message: string)

  /** The module variable `sharedSessionId` and the log of client calls made so far. */
  datatype ToolsState = ToolsState(shared: Option<string>, calls: seq<ClientCall>)

  /** getOrCreateSession */
  function GetOrCreate(s: ToolsState, env: Env): (ToolsState, Result<string>) {
    if IsSet(s.shared) && env(|s.calls|).connected then
      (s.(calls := s.calls + [GetStatus(s.shared.value)]), Success(s.shared.value))
    else
      var calls := if IsSet(s.shared) then s.calls + [GetStatus(s.shared.value)] else s.calls;
      var a := env(|calls|).session;
      var after := calls + [EnsureConnection(s.shared)];
      if a.Success? then (ToolsState(Some(a.value), after), Success(a.value))
      else (ToolsState(s.shared, after), Failure(a.error))
  }

  /** The catch block of callMCPTool: disconnect the cached session, if any, and forget it. */
  function Reset(s: ToolsState): (ToolsState, Reply) {
    if IsSet(s.shared) then
      (ToolsState(None, s.calls + [DisconnectSession(s.shared.value)]), ErrorReply(UnavailableMessage))
    else (s, ErrorReply(UnavailableMessage))
  }

  /** callMCPTool */
  function Invoke(s: ToolsState, tool: string, args: Json, env: Env): (ToolsState, Reply) {
    var p := GetOrCreate(s, env);
    if p.1.Failure? then Reset(p.0)
    else
      var a := env(|p.0.calls|).result;
      var s2 := p.0.(calls := p.0.calls + [CallTool(p.1.value, tool, args)]);
      if a.Success? then (s2, ToolResult(a.value)) else Reset(s2)
  }

  /** getOrCreateSession appends one or two calls and makes no tool call. */
  lemma GetOrCreateLog(s: ToolsState, env: Env, tool: string, args: Json)
    ensures LogGrows(s.calls, GetOrCreate(s, env).0.calls, tool, args, 0)
    ensures |GetOrCreate(s, env).0.calls| > |s.calls|
  {
    var mid := if IsSet(s.shared) then s.calls + [GetStatus(s.shared.value)] else s.calls;
    if IsSet(s.shared) {
      AppendOne(s.calls, GetStatus(s.shared.value), tool, args);
    }
    assert LogGrows(s.calls, mid, tool, args, 0);
    if !(IsSet(s.shared) && env(|s.calls|).connected) {
      AppendOne(mid, EnsureConnection(s.shared), tool, args);
      LogGrowsTrans(s.calls, mid, mid + [EnsureConnection(s.shared)], tool, args, 0, 0);
    }
  }

  lemma ResetLog(s: ToolsState, tool: string, args: Json)
    ensures LogGrows(s.calls, Reset(s).0.calls, tool, args, 0)
  {
    if IsSet(s.shared) {
      AppendOne(s.calls, DisconnectSession(s.shared.value), tool, args);
    } else {
      assert s.calls[|s.calls|..] == [];
    }
  }

  /** The log only grows, by at most one tool call, made with the given tool and arguments. */
  lemma InvokeExtendsLog(s: ToolsState, tool: string, args: Json, env: Env)
    ensures LogGrows(s.calls, Invoke(s, tool, args, env).0.calls, tool, args, 1)
  {
    var p := GetOrCreate(s, env);
    GetOrCreateLog(s, env, tool, args);
    if p.1.Failure? {
      ResetLog(p.0, tool, args);
      LogGrowsTrans(s.calls, p.0.calls, Reset(p.0).0.calls, tool, args, 0, 1);
    } else {
      var s2 := p.0.(calls := p.0.calls + [CallTool(p.1.value, tool, args)]);
      AppendOne(p.0.calls, CallTool(p.1.value, tool, args), tool, args);
      LogGrowsTrans(s.calls, p.0.calls, s2.calls, tool, args, 0, 1);
      if env(|p.0.calls|).result.Failure? {
        ResetLog(s2, tool, args);
        LogGrowsTrans(s.calls, s2.calls, Reset(s2).0.calls, tool, args, 1, 0);
      }
    }
  }

  /** callMCPTool never throws: a failure is the fixed error object and leaves no usable cached id. */
  lemma InvokeFailure(s: ToolsState, tool: string, args: Json, env: Env)
    requires Invoke(s, tool, args, env).1.ErrorReply?
    ensures Invoke(s, tool, args, env).1.message == UnavailableMessage
    ensures !IsSet(Invoke(s, tool, args, env).0.shared)
  {
  }

  /**
   * A result comes from the last call of the log, a tool call to the session
   * now cached, which is the old cache or the id ensureConnection returned.
   */
  lemma InvokeSuccess(s: ToolsState, tool: string, args: Json, env: Env)
    requires Invoke(s, tool, args, env).1.ToolResult?
    ensures var r := Invoke(s, tool, args, env);
      && r.0.shared.Some?
      && |r.0.calls| > |s.calls|
      && r.0.calls[|r.0.calls| - 1] == CallTool(r.0.shared.value, tool, args)
      && env(|r.0.calls| - 1).result == Success(r.1.result)
      && (r.0.shared == s.shared || EnsureConnection(s.shared) in r.0.calls[|s.calls|..])
  {
    var p := GetOrCreate(s, env);
    GetOrCreateLog(s, env, tool, args);
    GetOrCreateCaches(s, env);
    var s2 := p.0.(calls := p.0.calls + [CallTool(p.1.value, tool, args)]);
    assert Invoke(s, tool, args, env).0 == s2;
    assert s2.calls[|s.calls|..] == p.0.calls[|s.calls|..] + [CallTool(p.1.value, tool, args)];
  }

  /**
   * A session getOrCreateSession returns is the one it caches; a changed
   * cache went through ensureConnection.
   */
  lemma GetOrCreateCaches(s: ToolsState, env: Env)
    ensures var p := GetOrCreate(s, env);
      && (p.1.Success? ==> p.0.shared == Some(p.1.value))
      && (p.0.shared != s.shared ==> EnsureConnection(s.shared) in p.0.calls[|s.calls|..])
  {
    var p := GetOrCreate(s, env);
    if p.0.shared != s.shared {
      var k := if IsSet(s.shared) then 1 else 0;
      assert p.0.calls[|s.calls| + k] == EnsureConnection(s.shared);
    }
  }

  /** A session reported connected is reused: no connection attempt, and the call goes to it. */
  lemma ConnectedCacheReused(s: ToolsState, tool: string, args: Json, env: Env)
    requires IsSet(s.shared) && env(|s.calls|).connected
    ensures Invoke(s, tool, args, env).0.calls[|s.calls|..][..2]
         == [GetStatus(s.shared.value), CallTool(s.shared.value, tool, args)]
  {
  }

  /** Otherwise ensureConnection is asked for the cached id, or for none. */
  lemma StaleCacheEnsured(s: ToolsState, tool: string, args: Json, env: Env)
    requires !(IsSet(s.shared) && env(|s.calls|).connected)
    ensures EnsureConnection(s.shared) in Invoke(s, tool, args, env).0.calls[|s.calls|..]
  {
    var r := Invoke(s, tool, args, env);
    var k := if IsSet(s.shared) then 1 else 0;
    assert r.0.calls[|s.calls| + k] == EnsureConnection(s.shared);
  }

  /** On a failure, the session cached at that moment, if any, is disconnected. */
  lemma FailureDisconnects(s: ToolsState, tool: string, args: Json, env: Env)
    requires Invoke(s, tool, args, env).1.ErrorReply?
    requires IsSet(GetOrCreate(s, env).0.shared)
    ensures var r := Invoke(s, tool, args, env).0;
      r.calls[|r.calls| - 1] == DisconnectSession(GetOrCreate(s, env).0.shared.value)
  {
  }

  datatype Sources = All | WordPress | Faq

  function SourcesName(s: Sources): string {
    match s
    case All => "all"
    case WordPress => "wordpress"
    case Faq => "faq"
  }

  /** The parameters of the five wrappers, after schema parsing (absent optional values are `None`). */
  datatype ToolUse =
    | HowToUse(userQuery: string)
    | SearchKnowledgeBase(keywords: string, sources: Option<Sources>, maxResults: Option<int>)
    | SearchWordPressPosts(keywords: string, perPage: Option<int>)
    | ListFaqDocuments(faqKeywords: Option<string>)
    | GetFaqDocument(id: int)

  /** The protocol tool each wrapper calls; distinct wrappers call distinct tools. */
  function ToolName(u: ToolUse): (r: string)
    ensures r == "how_to_use" <==> u.HowToUse?
    ensures r == "search_knowledge_base" <==> u.SearchKnowledgeBase?
    ensures r == "search_wordpress_posts" <==> u.SearchWordPressPosts?
    ensures r == "list_faq_documents" <==> u.ListFaqDocuments?
    ensures r == "get_faq_document" <==> u.GetFaqDocument?
  {
    match u
    case HowToUse(_) => "how_to_use"
    case SearchKnowledgeBase(_, _, _) => "search_knowledge_base"
    case SearchWordPressPosts(_, _) => "search_wordpress_posts"
    case ListFaqDocuments(_) => "list_faq_documents"
    case GetFaqDocument(_) => "get_faq_document"
  }

  /** The argument object each wrapper forwards, with the schema defaults filled in. */
  function Arguments(u: ToolUse): (r: Json)
    ensures r.JObj?
    ensures u.HowToUse? ==> r.fields == [Field("userQuery", JStr(u.userQuery))]
    ensures u.SearchKnowledgeBase? ==> |r.fields| == 3
    ensures u.SearchWordPressPosts? ==> |r.fields| == 2
    ensures u.ListFaqDocuments? ==>
      (r.fields == [] <==> !IsSet(u.faqKeywords))
      && (IsSet(u.faqKeywords) ==> r.fields == [Field("keywords", JStr(u.faqKeywords.value))])
    ensures u.GetFaqDocument? ==> r.fields == [Field("id", JNum(u.id))]
  {
    match u
    case HowToUse(q) => JObj([Field("userQuery", JStr(q))])
    case SearchKnowledgeBase(k, s, m) =>
      JObj([Field("keywords", JStr(k)), Field("sources", JStr(SourcesName(s.GetOr(All)))),
            Field("max_results", JNum(m.GetOr(5)))])
    case SearchWordPressPosts(k, p) => JObj([Field("keywords", JStr(k)), Field("per_page", JNum(p.GetOr(8)))])
    case ListFaqDocuments(k) => if IsSet(k) then JObj([Field("keywords", JStr(k.value))]) else JObj([])
    case GetFaqDocument(id) => JObj([Field("id", JNum(id))])
  }

  /** The search wrappers forward their keywords unchanged and fill in the defaults 'all', 5 and 8. */
  lemma ArgumentsForwarded(u: ToolUse)
    ensures u.SearchKnowledgeBase? ==>
      && Member(Arguments(u), "keywords") == Some(JStr(u.keywords))
      && Member(Arguments(u), "sources") == Some(JStr(SourcesName(u.sources.GetOr(All))))
      && Member(Arguments(u), "max_results") == Some(JNum(u.maxResults.GetOr(5)))
    ensures u.SearchWordPressPosts? ==>
      && Member(Arguments(u), "keywords") == Some(JStr(u.keywords))
      && Member(Arguments(u), "per_page") == Some(JNum(u.perPage.GetOr(8)))
  {
    var fs := Arguments(u).fields;
    if u.SearchKnowledgeBase? || u.SearchWordPressPosts? {
      assert Get(fs[1..], fs[1].key) == Some(fs[1].value);
      if u.SearchKnowledgeBase? {
        assert fs[1..][1..] == fs[2..];
        assert Get(fs[2..], fs[2].key) == Some(fs[2].value);
        assert Get(fs[1..], "max_results") == Get(fs[2..], "max_results");
      }
    }
  }

  class SharedSession {
    var sharedSessionId: Option<string>
    /** The client calls made so far; the environment answers them by position. */
    var calls: seq<ClientCall>

    function State(): ToolsState
      reads this
    {
      ToolsState(sharedSessionId, calls)
    }

    constructor ()
      ensures State() == ToolsState(None, [])
    {
      sharedSessionId := None;
      calls := [];
    }

    method GetOrCreateSession(env: Env) returns (r: Result<string>)
      modifies this
      ensures (State(), r) == GetOrCreate(old(State()), env)
    {
      if IsSet(sharedSessionId) {
        var connected := env(|calls|).connected;
        calls := calls + [GetStatus(sharedSessionId.value)];
        if connected {
          return Success(sharedSessionId.value);
        }
      }
      var a := env(|calls|).session;
      calls := calls + [EnsureConnection(sharedSessionId)];
      if a.Failure? {
        return Failure(a.error);
      }
      sharedSessionId := Some(a.value);
      r := Success(a.value);
    }

    method CallMcpTool(tool: string, args: Json, env: Env) returns (reply: Reply)
      modifies this
      ensures (State(), reply) == Invoke(old(State()), tool, args, env)
    {
      ghost var p := GetOrCreate(State(), env);
      var sid := GetOrCreateSession(env);
      assert State() == p.0 && sid == p.1;
      if sid.Success? {
        var a := env(|calls|).result;
        calls := calls + [CallTool(sid.value, tool, args)];
        if a.Success? {
          return ToolResult(a.value);
        }
      }
      if IsSet(sharedSessionId) {
        calls := calls + [DisconnectSession(sharedSessionId.value)];
        sharedSessionId := None;
      }
      reply := ErrorReply(UnavailableMessage);
    }

    /** A wrapper's `execute`: call its tool with its forwarded arguments. */
    method Execute(u: ToolUse, env: Env) returns (reply: Reply)
      modifies this
      ensures (State(), reply) == Invoke(old(State()), ToolName(u), Arguments(u), env)
    {
      reply := CallMcpTool(ToolName(u), Arguments(u), env);
    }
  }
}
