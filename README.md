# A verified model of the nextjs-ai-chatbot tool-server core

This project models, in Dafny, the parts of the nextjs-ai-chatbot application that talk to the
JustinCourse knowledge-base tool server (an MCP server speaking JSON-RPC 2.0 over an event stream
and HTTP POSTs), and the pure display and state rules around them. It also proves properties of
that model.

- **The session registry** (`McpSession`, `McpClient`). A session moves through events: stream
  opened, stream errored, reconnect timer, handshake timer, frame received, request sent, request
  timer, send failure and disconnect.
  - `McpSession` is the pure transition system. It keeps every waiter's settlement in a map of
    outcomes, which lets it prove that each request is settled exactly once. Opens and errors
    carry the number of their event stream. Only the first stream settles the promise that
    connectSession awaits: a retry stream that opens connects the session, but connectSession
    keeps waiting.
  - `McpClient` has two classes whose methods are proved against those transitions: `Session`,
    with the fields the stream handlers reassign, and `Registry`, with the session map, the
    connect, call and list requests, disconnect and the idle reaper.
- **The two tool layers that cache a session id** (`McpCalls`, `McpTools`, `CourseInfoTool`).
  They see the client through a log of calls and an environment that answers each call.
  - `McpTools` resets its cache on failure.
  - `CourseInfoTool` retries once on a brand-new session, then formats the results and
    assembles the answer.
- **The stream repairs of the DeepSeek integration.**
  - `StreamTransform` repairs the `data:` lines of a server-sent event chunk.
  - `DeepSeekProvider` models the per-part fix-up loop, with a `Controller` class as the
    output stream.
- **The display rules.**
  - `CourseInfoView`: the section parser of the course-info card, as a loop proved against a
    line-by-line specification.
  - `McpResultView`: turning a tool result into text.
  - `CurrencyView`: the currency card.
  - `Prompts`: prompt selection.
- **The profile and sidebar state.**
  - `AvatarCrop`: a `CropDialog` class.
  - `ProfileEditor`: an `Editor` class.
  - `SidebarUserNav`: the sidebar's avatar, initials and theme toggle.
  - `HistoryTab`: a `Tab` class for the chat history.

Shared helpers: `Wrappers` (Option, Result), `Text` (string operations) and `Json` (an abstract
JSON value with JavaScript truthiness and a one-line serializer). `ToolContent` holds the
`content` array filter that the tool layer and the result view share.

## Model

| member | source | states |
|---|---|---|
| McpSession.NewSession | lib/ai/mcp-client.ts:91-99 | a new session is not connected, has no pending waiters and zero reconnect attempts, awaits its handshake, and satisfies the session invariant |
| McpSession.StepSettlesLeavers | lib/ai/mcp-client.ts:119-239 | every event keeps the invariant. Waiters that leave the pending table get exactly one recorded outcome. Earlier outcomes never change. Only a request being sent adds a pending id |
| McpSession.SettleLeaves | lib/ai/mcp-client.ts:173-183 | settling one waiter moves its id, and only its id, from the pending table to the outcomes, and keeps the invariant |
| McpSession.QuietLeaves | lib/ai/mcp-client.ts:119-165 | opening, erroring, the reconnection and handshake timers, and a send settle nothing; a send adds only its own id |
| McpSession.DisconnectLeaves | lib/ai/mcp-client.ts:288-298 | a disconnect moves every pending id to a rejection |
| McpSession.FrameLeaves | lib/ai/mcp-client.ts:168-185 | a frame settles at most the waiter it answers |
| McpSession.TimerLeaves | lib/ai/mcp-client.ts:215-218 | an expiring request timer settles at most its own waiter |
| McpSession.PostFailedLeaves | lib/ai/mcp-client.ts:235-238 | a failed POST settles at most its own waiter |
| McpSession.SettledExactlyOnce | lib/ai/mcp-client.ts:168-239 | over any trace with fresh request ids, each id is settled at most once. It is settled once exactly when it gained an outcome during the trace. Earlier outcomes are kept |
| McpSession.IssuedOnlyGrows | lib/ai/mcp-client.ts:202-218 | the set of issued ids (pending plus settled) only grows along a trace |
| McpSession.UnmatchedFrameSettlesNothing | lib/ai/mcp-client.ts:168-184 | a frame whose id is absent, numeric or not pending only refreshes the last-activity time |
| McpSession.LateFrameAfterTimeout | lib/ai/mcp-client.ts:172-183 | after a request's 30 s timeout rejects it with the timeout message, a late frame with that id changes neither outcomes nor pending waiters |
| McpSession.Repeat | lib/ai/mcp-client.ts:136-153 | a trace of k copies of one event has length k and holds only that event |
| McpSession.ErrorsClimbToCeiling | lib/ai/mcp-client.ts:136-153 | k errors of one stream leave the session disconnected, with attempts min(start + k, 5) and pending, outcomes, activity and streams unchanged. Errors of a retry stream never settle the handshake |
| McpSession.ErrorFirst | lib/ai/mcp-client.ts:136-153 | the first of k errors of an opened stream is the error transition |
| McpSession.BackoffSchedule | lib/ai/mcp-client.ts:140-149 | the retry delays for attempts 1 to 5 are 2000, 4000, 8000, 16000 and 30000 ms |
| McpSession.Pow2AtLeast | lib/ai/mcp-client.ts:142 | 2^n is at least 32 from n = 5 on, so the delay reaches its 30 s cap |
| McpSession.Pow2Positive | lib/ai/mcp-client.ts:142 | 2^n is at least 1 |
| McpSession.BackoffBounds | lib/ai/mcp-client.ts:142 | every delay lies between 1 s and the 30 s cap, and equals the cap from attempt 5 on |
| McpSession.ErrorSchedulesRetry | lib/ai/mcp-client.ts:136-153 | below 5 attempts an error schedules a retry after the back-off for the new attempt count. At 5 no retry is scheduled, and only the first stream's error refuses the awaited handshake; a retry stream rejects only its own, discarded promise. The pending table is untouched and the session is disconnected |
| McpSession.HandshakeSettledByFirstStream | lib/ai/mcp-client.ts:103-160 | the promise connectSession awaits changes only while awaited, and only through the first stream's open (established), its error at the ceiling, or its 10 s timer (refused when the timer finds the session disconnected, otherwise the timer is spent and the handshake stays awaited). The timer acts only while armed. Once settled it never changes |
| McpSession.RetryOpenLeavesHandshakeAwaiting | lib/ai/mcp-client.ts:119-160 | after the first stream errors, a retry stream's open connects the session but leaves the handshake awaited, and the first stream's 10 s timer then finds it connected and is spent, leaving it awaited |
| McpSession.SpentTimerNeverRefuses | lib/ai/mcp-client.ts:155-160 | the 10 s timer fires once: after it is spent, no trace of events (a retry stream connecting and dropping again, more timer events) refuses the handshake with the timeout |
| McpClient.Session.constructor | lib/ai/mcp-client.ts:91-99 | the object's state is a new session for its id |
| McpClient.Session.OnOpen | lib/ai/mcp-client.ts:119-125 | onopen of any stream sets connected and resets the attempts. It refreshes activity, and only the first stream's open resolves the awaited handshake |
| McpClient.Session.OnError | lib/ai/mcp-client.ts:136-153 | onerror of a stream performs the error transition of that stream and returns the retry delay, or none at the ceiling |
| McpClient.Session.OnReconnectTimer | lib/ai/mcp-client.ts:145-149 | the retry opens one more stream on the fixed session URL |
| McpClient.Session.OnConnectTimer | lib/ai/mcp-client.ts:156-160 | the first stream's one-shot 10 s timer, at or after its deadline, refuses the awaited handshake if the session is disconnected at that moment, and otherwise is spent. Any later firing changes nothing |
| McpClient.Session.OnMessage | lib/ai/mcp-client.ts:127-134 | a parsed frame performs the frame transition and an unparsable one changes nothing |
| McpClient.Session.OnRequestTimer | lib/ai/mcp-client.ts:215-218 | a request timer rejects its waiter with the timeout message if it is still pending |
| McpClient.Session.OnSendFailed | lib/ai/mcp-client.ts:235-238 | a failed POST rejects its still-pending waiter with the send-failure message |
| McpClient.Session.AddWaiter | lib/ai/mcp-client.ts:215-225 | registers a fresh waiter whose deadline is 30 s ahead |
| McpClient.Session.RejectPending | lib/ai/mcp-client.ts:290-294 | every pending waiter is rejected with "Session disconnected" and no earlier outcome changes |
| McpClient.Registry.constructor | lib/ai/mcp-client.ts:44-61 | a registry starts with no sessions |
| McpClient.Registry.Status | lib/ai/mcp-client.ts:301-311 | the status is null exactly for unknown ids, and otherwise reports the session's connected flag and last activity |
| McpClient.Registry.ConnectSession | lib/ai/mcp-client.ts:80-100 | a connected session is reused: same id, activity refreshed, registry entries unchanged. Otherwise a fresh new session is stored under the id. No other session changes |
| McpClient.Registry.FinishConnect | lib/ai/mcp-client.ts:101-107 | while the handshake is awaited connectSession has not returned and nothing changes. An established handshake returns the id. A refused one deletes the session and fails with the wrapped reason |
| McpClient.Registry.EnsureConnection | lib/ai/mcp-client.ts:313-323 | reuses a connected session exactly as connectSession does, and otherwise creates one; every session object it does not reuse is left unchanged |
| McpClient.Registry.CallTool | lib/ai/mcp-client.ts:192-241 | for a missing or disconnected session: fails with "No active MCP session found" and registers nothing. Otherwise: registers the waiter, then returns the tools/call POST to /mcp |
| McpClient.Registry.ListTools | lib/ai/mcp-client.ts:243-281 | as CallTool, with a tools/list envelope and no params |
| McpClient.Registry.Disconnect | lib/ai/mcp-client.ts:283-299 | rejects all of the session's waiters and removes the entry, after which the status is null. An unknown id leaves the registry as it was |
| McpClient.Registry.Reap | lib/ai/mcp-client.ts:63-70 | exactly the sessions idle for more than 300000 ms leave the registry, each with its waiters rejected. The others stay in it with their state unchanged |
| McpClient.Registry.ReapOne | lib/ai/mcp-client.ts:65-69 | one pass of the loop: the session under the key is swept, and the registry invariant holds |
| McpClient.Registry.ReapIdle | lib/ai/mcp-client.ts:66-68 | an idle session is disconnected and dropped. No other session changes |
| McpCalls.ToolCalls | lib/ai/tools/mcp-tools.ts:19-37 | the number of tool calls in a log is at most its length |
| McpCalls.ToolCallsAppend | lib/ai/tools/mcp-tools.ts:19-37 | tool calls of concatenated logs add up |
| McpCalls.LogGrowsTrans | lib/ai/tools/course-info.ts:25-42 | two log extensions compose, and their tool-call budgets add |
| McpCalls.AppendOne | lib/ai/tools/course-info.ts:25-42 | appending one call extends the log by one tool call at most, and by none when it is not a tool call |
| McpTools.GetOrCreateLog | lib/ai/tools/mcp-tools.ts:7-17 | getOrCreateSession asks the client at least once and makes no tool call |
| McpTools.GetOrCreateCaches | lib/ai/tools/mcp-tools.ts:7-17 | the id getOrCreateSession returns is the cached one; a changed cache went through ensureConnection |
| McpTools.ResetLog | lib/ai/tools/mcp-tools.ts:26-30 | the failure reset makes no tool call |
| McpTools.InvokeExtendsLog | lib/ai/tools/mcp-tools.ts:19-37 | callMCPTool extends the log with at most one tool call, with the given tool and arguments |
| McpTools.InvokeFailure | lib/ai/tools/mcp-tools.ts:23-36 | a failure returns the error reply with the fixed message and leaves no cached session |
| McpTools.InvokeSuccess | lib/ai/tools/mcp-tools.ts:19-22 | on success the last call goes to the cached session with the given tool and arguments, and the reply is that call's answer. The cached id is the old one, or ensureConnection was asked for it |
| McpTools.ConnectedCacheReused | lib/ai/tools/mcp-tools.ts:7-13 | a cached session reported connected is used: a status query then the tool call, with no connection attempt |
| McpTools.StaleCacheEnsured | lib/ai/tools/mcp-tools.ts:15-16 | otherwise ensureConnection is called with the cached id or with none |
| McpTools.FailureDisconnects | lib/ai/tools/mcp-tools.ts:26-30 | on failure the session cached at that point is disconnected |
| McpTools.ToolName | lib/ai/tools/mcp-tools.ts:45-106 | each wrapper uses its own protocol tool name, and distinct wrappers use distinct names |
| McpTools.Arguments | lib/ai/tools/mcp-tools.ts:45-106 | the argument object per wrapper; listFaqDocuments sends keywords only when it is truthy, otherwise {} |
| McpTools.ArgumentsForwarded | lib/ai/tools/mcp-tools.ts:56-82 | keywords are forwarded unchanged; sources defaults to 'all', max_results to 5 and per_page to 8 |
| McpTools.SharedSession.constructor | lib/ai/tools/mcp-tools.ts:5 | no session is cached and nothing has been called |
| McpTools.SharedSession.GetOrCreateSession | lib/ai/tools/mcp-tools.ts:7-17 | the cache and result follow the getOrCreate specification |
| McpTools.SharedSession.CallMcpTool | lib/ai/tools/mcp-tools.ts:19-37 | the cache, the log and the reply follow the invoke specification |
| McpTools.SharedSession.Execute | lib/ai/tools/mcp-tools.ts:45-106 | a wrapper invokes its tool name with its argument object |
| CourseInfoTool.MaxRes | lib/ai/tools/course-info.ts:76 | the clamp lies in [1, 10], keeps values already in range, and maps lower values to 1 and higher ones to 10 |
| CourseInfoTool.FaqKeywords | lib/ai/tools/course-info.ts:110-111 | '课程' when the query contains '课程' or its lowercase contains 'course', otherwise the query |
| CourseInfoTool.FormatMcpResult | lib/ai/tools/course-info.ts:44-53 | a missing result, missing content or empty array gives the sentinel. A non-empty array without null items gives the non-empty texts of 'text' items joined by blank lines; a null item throws. Truthy content that is neither an array nor an object throws, and an object content gives the sentinel only when its length is 0 |
| CourseInfoTool.SingleTextFormatted | lib/ai/tools/course-info.ts:49-52 | a single non-empty text item formats to its text |
| CourseInfoTool.Push | lib/ai/tools/course-info.ts:87-90 | a section is pushed exactly when the formatting succeeded with a non-empty, non-sentinel text, and it is the heading plus that text |
| CourseInfoTool.ConnectedCacheUsed | lib/ai/tools/course-info.ts:10-14 | a cached session reported connected is called directly after the status query |
| CourseInfoTool.EnsureConnCaches | lib/ai/tools/course-info.ts:8-23 | a connected cached session is returned and kept. Otherwise ensureConnection() is asked, after the status query if an id is cached. Its id is cached and returned. Any failure leaves the cache as it was and reports exactly the fixed unavailable message |
| CourseInfoTool.FreshSessionCalled | lib/ai/tools/course-info.ts:16-28 | when the cache is not connected, the tool is sent to the id that ensureConnection() just gave and that is now cached. An answer is returned as it is |
| CourseInfoTool.EnsureConnLog | lib/ai/tools/course-info.ts:8-23 | ensureMCPConnection makes no tool call |
| CourseInfoTool.RetryLog | lib/ai/tools/course-info.ts:34-40 | the retry makes at most one tool call |
| CourseInfoTool.AttemptLog | lib/ai/tools/course-info.ts:28-41 | a call with its retry makes at most two tool calls |
| CourseInfoTool.CallRetriesOnce | lib/ai/tools/course-info.ts:25-42 | callMCPTool makes at most two tool calls, all with the given tool and arguments |
| CourseInfoTool.CallFailureMessage | lib/ai/tools/course-info.ts:19-22 | a failure carries either the fixed service-unavailable message or the query-failed prefix, and never both |
| CourseInfoTool.RetryOnFreshSession | lib/ai/tools/course-info.ts:34-40 | after a first rejection, connectSession is asked for a new session, which is cached and called. If that fails, the error names the first rejection |
| CourseInfoTool.PushSection | lib/ai/tools/course-info.ts:87-90 | a pushed section starts with the heading it was pushed under |
| CourseInfoTool.CaseSectionsUseful | lib/ai/tools/course-info.ts:78-181 | a search case pushes at most one section (two for courses), each under one of its own headings |
| CourseInfoTool.TutorialsFallback | lib/ai/tools/course-info.ts:139-164 | a useful WordPress result is the only section and a thrown one gives none. Only an empty but successful one falls back to the knowledge base with sources 'wordpress' |
| CourseInfoTool.ExecuteSections | lib/ai/tools/course-info.ts:183-193 | the answer has at least one section: the case's own sections if any, else exactly one help or apology section |
| CourseInfoTool.FallbackSections | lib/ai/tools/course-info.ts:183-193 | no sections give exactly one help or apology section; otherwise the sections are kept |
| CourseInfoTool.NoResultsSection | lib/ai/tools/course-info.ts:184-192 | with no results, the single section is the help section over some usage text, or the apology |
| CourseInfoTool.HelpOrApologySection | lib/ai/tools/course-info.ts:185-191 | a successful how_to_use call gives the help section and a thrown one the apology |
| CourseInfoTool.AssembleShape | lib/ai/tools/course-info.ts:196 | the answer starts with the first section and ends with the fixed resources block |
| CourseInfoTool.CourseInfo.constructor | lib/ai/tools/course-info.ts:6 | no session is cached and nothing has been called |
| CourseInfoTool.CourseInfo.EnsureMcpConnection | lib/ai/tools/course-info.ts:8-23 | the cache and result follow the ensure specification |
| CourseInfoTool.CourseInfo.CallMcpTool | lib/ai/tools/course-info.ts:25-42 | the cache, the log and the result follow the call-with-retry specification |
| CourseInfoTool.CourseInfo.Search | lib/ai/tools/course-info.ts:82-87 | a call followed by formatting, with a thrown error kept as a failure |
| CourseInfoTool.CourseInfo.SearchCase | lib/ai/tools/course-info.ts:78-181 | the switch over search types |
| CourseInfoTool.CourseInfo.SearchCourses | lib/ai/tools/course-info.ts:96-137 | WordPress then FAQ with limit min(maxRes, 5). A throw falls back to the knowledge base |
| CourseInfoTool.CourseInfo.SearchTutorials | lib/ai/tools/course-info.ts:139-164 | WordPress with the knowledge-base fallback |
| CourseInfoTool.CourseInfo.HelpOrApologyFallback | lib/ai/tools/course-info.ts:184-192 | the how_to_use call and the section pushed follow the no-results specification |
| CourseInfoTool.CourseInfo.Execute | lib/ai/tools/course-info.ts:73-205 | the whole execute: clamp, case, help or apology, assembly |
| StreamTransform.FillNullish | lib/ai/stream-transform.ts:31-38 | a key that is null or undefined gets the default; every other key is unchanged |
| StreamTransform.FillFalsy | lib/ai/stream-transform.ts:41-48 | a key that is falsy gets the default; every other key is unchanged |
| StreamTransform.RepairFunction | lib/ai/stream-transform.ts:45-51 | after repair, name is '' or truthy and arguments is not nullish. A truthy name and non-nullish arguments are kept |
| StreamTransform.RepairHead | lib/ai/stream-transform.ts:30-43 | a nullish type becomes 'function' and a nullish id gets a generated one. A missing function becomes {name:'', arguments:''} |
| StreamTransform.RepairToolCalls | lib/ai/stream-transform.ts:29-52 | the array fails exactly when the body throws on one of its tool calls. Otherwise every tool call is repaired in place, with its own index |
| StreamTransform.RepairChoices | lib/ai/stream-transform.ts:26-69 | the array fails exactly when one choice throws. Otherwise every choice is repaired in place |
| StreamTransform.FixLine | lib/ai/stream-transform.ts:16-77 | non-data lines, the [DONE] line and data lines that fail to parse are unchanged. A changed line is a one-line data line |
| StreamTransform.FixLines | lib/ai/stream-transform.ts:16 | the map keeps the number and order of lines |
| StreamTransform.SameLines | lib/ai/stream-transform.ts:15-16 | the output chunk splits into exactly as many lines as the input, each the fixed input line |
| StreamTransform.NoDataUnchanged | lib/ai/stream-transform.ts:17-19 | a chunk with no data line passes through unchanged |
| StreamTransform.DeltaToolCallRepaired | lib/ai/stream-transform.ts:28-52 | a delta tool call gets its type and id defaults and a truthy function |
| StreamTransform.FullKeepsHead | lib/ai/stream-transform.ts:28-52 | the function repair does not touch the repaired type and id |
| StreamTransform.DeltaMissingFunction | lib/ai/stream-transform.ts:40-43 | a delta tool call without a function gets {name:'', arguments:''} |
| StreamTransform.EmptyFunctionRepaired | lib/ai/stream-transform.ts:40-51 | the default function needs no further repair |
| StreamTransform.DeltaFunctionRepaired | lib/ai/stream-transform.ts:45-51 | the function of a repaired delta tool call has a '' or truthy name and non-nullish arguments |
| StreamTransform.MessageToolCallRepaired | lib/ai/stream-transform.ts:56-67 | a message tool call gets type, id and a missing function; a present function is not touched |
| StreamTransform.FillNullishSame | lib/ai/stream-transform.ts:31-38 | a present non-null field is left alone |
| StreamTransform.FillFalsySame | lib/ai/stream-transform.ts:41-48 | a truthy field is left alone |
| StreamTransform.HeadIdempotent | lib/ai/stream-transform.ts:30-43 | a tool call with type, id and function is unchanged, whatever the clock |
| StreamTransform.FunctionIdempotent | lib/ai/stream-transform.ts:45-51 | repairing a function twice equals repairing it once |
| StreamTransform.ToolCallIdempotent | lib/ai/stream-transform.ts:28-67 | repairing a tool call twice, at any two times, equals repairing it once |
| StreamTransform.FunctionObjectIdempotent | lib/ai/stream-transform.ts:28-52 | a delta tool call whose function is an object is repaired to itself a second time |
| StreamTransform.HeadOnlyIdempotent | lib/ai/stream-transform.ts:28-67 | a tool call with type, id and a truthy non-object function is repaired to itself |
| StreamTransform.ToolCallsIdempotent | lib/ai/stream-transform.ts:28-67 | the same for a whole tool-call array |
| StreamTransform.NestedIdempotent | lib/ai/stream-transform.ts:28-67 | the same for the delta or message of a choice |
| StreamTransform.ChoiceIdempotent | lib/ai/stream-transform.ts:26-69 | the same for one choice |
| StreamTransform.NestedOther | lib/ai/stream-transform.ts:56-67 | repairing the message keeps every other key of the choice |
| StreamTransform.NestedIdempotentOther | lib/ai/stream-transform.ts:28-67 | a delta that is already repaired stays repaired after the message repair |
| StreamTransform.ChoicesIdempotent | lib/ai/stream-transform.ts:26-69 | the same for the choices array |
| StreamTransform.RepairIdempotent | lib/ai/stream-transform.ts:22-72 | repairing a parsed payload twice equals repairing it once |
| StreamTransform.NoChoicesUnchanged | lib/ai/stream-transform.ts:26 | a payload without a choices array is unchanged |
| DeepSeekProvider.Controller.constructor | lib/ai/deepseek-provider.ts:29-31 | the output starts open and empty |
| DeepSeekProvider.Controller.Enqueue | lib/ai/deepseek-provider.ts:62 | appends exactly one part and keeps the stream open |
| DeepSeekProvider.Controller.Close | lib/ai/deepseek-provider.ts:38-41 | closes the stream without adding parts |
| DeepSeekProvider.Controller.Error | lib/ai/deepseek-provider.ts:64-67 | errors the stream with the read error, without adding parts |
| DeepSeekProvider.FixPart | lib/ai/deepseek-provider.ts:44-60 | tool-call-delta parts fill toolCallType and toolCallId only when exactly null. tool-call parts fill them when falsy. Other parts and other keys are unchanged |
| DeepSeekProvider.LeadingChunks | lib/ai/deepseek-provider.ts:35-41 | the number of parts read before the stream ends or fails |
| DeepSeekProvider.Forwarded | lib/ai/deepseek-provider.ts:62 | one forwarded part per read part |
| DeepSeekProvider.StopsAt | lib/ai/deepseek-provider.ts:35-41 | the first read that is not a part is where the run of forwarded parts ends |
| DeepSeekProvider.ForwardedPush | lib/ai/deepseek-provider.ts:62 | forwarding one more part appends its fixed form with its own id and keeps the earlier ones |
| DeepSeekProvider.ProcessStream | lib/ai/deepseek-provider.ts:33-68 | every part read before the end is fixed and enqueued once, in read order. The stream then closes on done or errors on a read error |
| DeepSeekProvider.WithStream | lib/ai/deepseek-provider.ts:74-77 | the result has the new stream and every other key unchanged, and its size is kept when stream was present |
| DeepSeekProvider.FixPartIdempotent | lib/ai/deepseek-provider.ts:44-60 | fixing a part twice equals fixing it once, whatever the second generated id |
| CourseInfoView.LeadingDigits | components/course-info.tsx:36 | the length of the longest prefix of digits |
| CourseInfoView.ExtractSections | components/course-info.tsx:13-64 | the loop computes the line-by-line specification of extractSections |
| CourseInfoView.RunAppend | components/course-info.tsx:20-54 | running the parser on two pieces in turn equals running it on the whole |
| CourseInfoView.RunTitles | components/course-info.tsx:21-34 | the titles of the closed and open sections are the header titles, in order; a section is open exactly when there was a header |
| CourseInfoView.SectionTitles | components/course-info.tsx:21-34 | one section per '# ' line, in input order, titled by the trimmed rest of the line |
| CourseInfoView.NoHeaderNoTitles | components/course-info.tsx:21 | without header lines there are no header titles |
| CourseInfoView.NoHeaderNoSections | components/course-info.tsx:59-63 | without header lines the result is empty |
| CourseInfoView.BlankStep | components/course-info.tsx:17-18 | a blank or whitespace-only line changes nothing |
| CourseInfoView.BlankLinesIgnored | components/course-info.tsx:17-18 | removing all blank lines leaves the parse unchanged |
| CourseInfoView.ItemsOfPush | components/course-info.tsx:37-39 | pushing an item appends its title |
| CourseInfoView.AllItemsPush | components/course-info.tsx:22-25 | pushing a section appends its item titles |
| CourseInfoView.ItemLineNotHeader | components/course-info.tsx:21-36 | a numbered line is never a header line |
| CourseInfoView.HeaderPlaced | components/course-info.tsx:21-34 | a header after an open section flushes the open item into it and places nothing new |
| CourseInfoView.ItemPlaced | components/course-info.tsx:36-44 | a numbered line in an open section adds its trimmed line as the next item title |
| CourseInfoView.StepPlaced | components/course-info.tsx:20-51 | in an open section, exactly the numbered lines add item titles |
| CourseInfoView.TextStepContent | components/course-info.tsx:46-51 | a text line keeps sections, titles and items. When not blank its trimmed text goes on a new line of the open item's content, else of the open section's, else it is dropped |
| CourseInfoView.TextsOf | components/course-info.tsx:46 | the trimmed texts of the non-blank lines, none of them empty |
| CourseInfoView.AppendLineJoin | components/course-info.tsx:48-50 | appending a line with its '\n' separator to joined lines is joining one more line |
| CourseInfoView.ItemContent | components/course-info.tsx:34-51 | after a numbered line, the text lines up to the next header or numbered line make the item's content, their trimmed texts joined by '\n' |
| CourseInfoView.SectionContent | components/course-info.tsx:22-51 | after a header, the text lines up to the next header or numbered line make the section's content, their trimmed texts joined by '\n' |
| CourseInfoView.ItemsAfterHeader | components/course-info.tsx:20-58 | after a header, the numbered lines become items in order |
| CourseInfoView.ItemsBeforeHeader | components/course-info.tsx:36-44 | before any header no section exists; only the last numbered line is kept as the open item |
| CourseInfoView.FirstHeader | components/course-info.tsx:21 | the index of the first header line |
| CourseInfoView.LastOf | components/course-info.tsx:37-39 | the last element of a list, if any |
| CourseInfoView.SectionItems | components/course-info.tsx:13-64 | the item titles of all sections are those of the numbered lines after the first header. The last numbered line before it joins the first section |
| CourseInfoView.FirstSectionOpens | components/course-info.tsx:21-34 | the first header opens a section holding the orphan item, if any |
| CourseInfoView.OrphanHandedOver | components/course-info.tsx:22-29 | a header with no open section places the open item into the new section |
| CourseInfoView.FinishPlaced | components/course-info.tsx:56-61 | the final flush keeps every placed item |
| CourseInfoView.SearchTypeIcon | components/course-info.tsx:94-103 | 'faq' and 'wordpress' get their own icons, every other type the comprehensive one |
| CourseInfoView.SearchTypeLabel | components/course-info.tsx:105-114 | 'faq' and 'wordpress' get their own labels, every other type the comprehensive one |
| CourseInfoView.ShowsToggle | components/course-info.tsx:133 | the toggle appears exactly when there are at least two sections |
| CourseInfoView.VisibleItems | components/course-info.tsx:157 | expanded shows all items; collapsed shows a prefix of at most 2 |
| CourseInfoView.MoreCount | components/course-info.tsx:172-176 | the '+N' note appears exactly when collapsed with more than 2 items, and N is the hidden count |
| McpResultView.ObjectText | components/mcp-result.tsx:18-39 | a truthy error gives its message. Otherwise a content array gives the non-empty texts joined by newlines (and fails on a null item). Otherwise a truthy `text` gives that text, and anything else gives its pretty-printed JSON. Arrays give their JSON text |
| McpResultView.ExtractText | components/mcp-result.tsx:13-42 | strings are returned unchanged and undefined gives "undefined". Other primitives are stringified. The only failure is a null content item |
| McpResultView.ContentShown | components/mcp-result.tsx:25-29 | a content array without null items shows its texts joined by newlines |
| McpResultView.TextResultShown | components/mcp-result.tsx:25-29 | a content array of non-empty text items shows exactly those texts joined by newlines |
| McpResultView.DisplayText | components/mcp-result.tsx:106-109 | short or expanded text is shown whole. Otherwise the first 300 characters plus '...' are shown |
| McpResultView.ToolIcon | components/mcp-result.tsx:44-59 | the fallback icon appears exactly for unknown tool names |
| McpResultView.ToolDisplayName | components/mcp-result.tsx:61-76 | a name is shown as itself exactly when it is unknown |
| McpResultView.Heading | components/mcp-result.tsx:124 | the first truthy of keywords, userQuery and id, else 'MCP 工具调用'; the heading is always truthy |
| McpResultView.ParamEntries | components/mcp-result.tsx:127-130 | the listed entries are exactly the arguments other than keywords, userQuery and id |
| McpResultView.ParamLineEmpty | components/mcp-result.tsx:127-133 | the parameter line is empty exactly when every argument is a heading key |
| CurrencyView.ShownFrom | components/currency.tsx:104-107 | the filter over a suffix of the popular list: membership and order |
| CurrencyView.Shown | components/currency.tsx:104-107 | at most 6. Exactly the popular codes present in the rates, in the fixed order |
| CurrencyView.CardFor | components/currency.tsx:24-146 | missing data gives the USD/EUR sample and single-rate data the single card. A multi-rate card without rates throws; with rates it shows the base, the displayed popular codes and the '+N more' note |
| CurrencyView.SubDistinct | components/currency.tsx:104-107 | a subsequence of a duplicate-free list is duplicate-free |
| CurrencyView.DistinctCard | components/currency.tsx:104-107 | a duplicate-free list has as many elements as its set |
| CurrencyView.ShownSet | components/currency.tsx:104-107 | the shown codes, as a set, are the popular codes among the rates |
| CurrencyView.ShownCard | components/currency.tsx:104-107 | the number shown is the number of popular codes among the rates |
| CurrencyView.MoreCountsOthers | components/currency.tsx:141-143 | the '+N more' note appears exactly when some rate is not shown, and N is the number of rates not shown |
| Prompts.SystemPrompt | lib/ai/prompts.ts:66-76 | the reasoning model gets exactly the regular prompt. Others get it plus a blank line and the artifacts prompt. The regular prompt is always a prefix |
| Prompts.UpdateDocumentPrompt | lib/ai/prompts.ts:110-132 | text, code and sheet give their instruction, a blank line, the content and a newline; other kinds give '' |
| Prompts.ContentRecoverable | lib/ai/prompts.ts:114-131 | the current content can be read back from the prompt |
| Prompts.MarkAt | lib/ai/prompts.ts:114-131 | each kind's prompt carries a distinguishing character of its instruction at a fixed position |
| Prompts.KindsDiffer | lib/ai/prompts.ts:114-131 | prompts for different kinds always differ |
| AvatarCrop.NextRotation | components/profile/avatar-crop-dialog.tsx:87-89 | (rotation + 90) % 360 stays in [0, 360) and keeps right angles |
| AvatarCrop.FourRotations | components/profile/avatar-crop-dialog.tsx:87-89 | four rotations return to the start |
| AvatarCrop.FileError | components/profile/avatar-crop-dialog.tsx:44-54 | a file is accepted exactly when its type starts with 'image/' and its size is at most 5 MiB. A non-image reports the type error first, and a larger image the size error |
| AvatarCrop.CropDialog.constructor | components/profile/avatar-crop-dialog.tsx:28-32 | the initial dialog state |
| AvatarCrop.CropDialog.Rotate | components/profile/avatar-crop-dialog.tsx:87-89 | only the rotation changes, to the next right angle |
| AvatarCrop.CropDialog.ResetCrop | components/profile/avatar-crop-dialog.tsx:91-95 | crop (0,0), zoom 1, rotation 0; nothing else changes |
| AvatarCrop.CropDialog.SetCrop | components/profile/avatar-crop-dialog.tsx:139 | only the crop position changes |
| AvatarCrop.CropDialog.SetZoom | components/profile/avatar-crop-dialog.tsx:141-153 | only the zoom changes |
| AvatarCrop.CropDialog.CropComplete | components/profile/avatar-crop-dialog.tsx:36-38 | only the crop area changes |
| AvatarCrop.CropDialog.ImageLoaded | components/profile/avatar-crop-dialog.tsx:57-59 | only the image source changes |
| AvatarCrop.CropDialog.ChangeImage | components/profile/avatar-crop-dialog.tsx:182-187 | the image source is cleared |
| AvatarCrop.CropDialog.CropImage | components/profile/avatar-crop-dialog.tsx:63-85 | without an image or crop area nothing happens and no toast is shown. A successful crop hands the result over with the 'Avatar updated successfully' toast and resets image, crop, zoom, rotation and area. A failed one shows 'Failed to crop image' and changes nothing but the loading flag |
| ProfileEditor.Firsts | components/profile/profile-editor.tsx:38-44 | at most one character per word |
| ProfileEditor.InitialsOfWords | components/profile/profile-editor.tsx:38-44 | the initials of words joined by spaces are the uppercased first letters of the words |
| ProfileEditor.FirstsOfWords | components/profile/profile-editor.tsx:40-42 | the first characters of non-empty words, in order |
| ProfileEditor.NonEmpty | components/profile/profile-editor.tsx:40-42 | exactly the non-empty words, none of them empty |
| ProfileEditor.FirstsAppend | components/profile/profile-editor.tsx:40-42 | the initials of two runs of words are the two initials concatenated |
| ProfileEditor.FirstsSkipsEmpty | components/profile/profile-editor.tsx:40-42 | an empty word (from a double, leading or trailing space) adds nothing to the initials |
| ProfileEditor.FirstsOfNonEmpty | components/profile/profile-editor.tsx:40-42 | the initials of the words equal those of their non-empty words |
| ProfileEditor.Initials | components/profile/profile-editor.tsx:38-44 | 'U' for the empty name. Any other name gives the uppercased first letters of its non-empty space-separated words, at most one per word |
| ProfileEditor.AvatarSrc | components/profile/profile-editor.tsx:153 | the image if set, otherwise an avatar-service URL, for 'user' when there is no initial name |
| ProfileEditor.UploadError | components/profile/profile-editor.tsx:105-119 | a file is accepted exactly when its type starts with 'image/' and its size is at most 2 MiB. A non-image reports the type error first, and a larger image the size error |
| ProfileEditor.Outcome | components/profile/profile-editor.tsx:56-72 | success exactly for an ok reply with an updated value. Otherwise the error message or its default |
| ProfileEditor.Editor.constructor | components/profile/profile-editor.tsx:31-36 | the initial editor state from the initial name and image |
| ProfileEditor.Editor.EditName | components/profile/profile-editor.tsx:186 | only the name changes |
| ProfileEditor.Editor.EditImageUrl | components/profile/profile-editor.tsx:245 | only the URL field changes |
| ProfileEditor.Editor.NameUpdate | components/profile/profile-editor.tsx:46-76 | an unchanged name closes the dialog and sends nothing. Otherwise it sends the name while loading and ends not loading. An ok reply first shows the success toast. With the server's name it sets that name and closes the dialog. A failed reply, or an ok one without a user, then adds the error toast and keeps the edited name, with only loading reset |
| ProfileEditor.Editor.ImageUpdate | components/profile/profile-editor.tsx:78-103 | loading while sent and not loading afterwards. An ok reply first shows the success toast. With the server's image it sets that image and closes the dialog. A failed reply, or an ok one without a user, then adds the error toast, and only loading is reset |
| ProfileEditor.Editor.ImageUrlSubmit | components/profile/profile-editor.tsx:129-142 | an empty URL is rejected before parsing and an invalid one after. A valid one is sent as an image update; on success the image is set and the dialog closed with the success toast. On failure the error toast follows the success toast when the reply was ok, and only loading is reset |
| SidebarUserNav.AvatarUrl | components/sidebar-user-nav.tsx:28 | the image if set, else the avatar-service URL for the email |
| SidebarUserNav.Initials | components/sidebar-user-nav.tsx:29-35 | a name gives its word initials, a nullish email gives 'U' and an email gives its uppercased first character. An empty email throws |
| SidebarUserNav.NextTheme | components/sidebar-user-nav.tsx:62 | 'light' exactly when the theme is 'dark', otherwise 'dark' |
| SidebarUserNav.ToggleLabel | components/sidebar-user-nav.tsx:64 | the label says dark mode exactly when the theme is 'light' |
| SidebarUserNav.LabelMatchesForLightAndDark | components/sidebar-user-nav.tsx:62-64 | for 'light' and 'dark' the label names the mode the click sets |
| SidebarUserNav.SystemThemeLabelMismatch | components/sidebar-user-nav.tsx:62-64 | for 'system' the label names light mode while the click sets dark |
| SidebarUserNav.CorrectedLabelMatches | components/sidebar-user-nav.tsx:62-64 | the corrected label always names the mode the click sets, and agrees with the original for 'light' and 'dark' |
| HistoryTab.Without | components/profile/history-tab.tsx:136 | unchecking removes every occurrence of the id and keeps all other ids with their multiplicities |
| HistoryTab.Toggle | components/profile/history-tab.tsx:132-137 | checking appends the id; unchecking removes it |
| HistoryTab.ToggleShows | components/profile/history-tab.tsx:131-137 | after a toggle the checkbox shows the new checked value |
| HistoryTab.ToggleKeepsOthers | components/profile/history-tab.tsx:131-137 | a toggle does not change any other checkbox |
| HistoryTab.Remaining | components/profile/history-tab.tsx:76-78 | the remaining chats are exactly those whose id was not selected |
| HistoryTab.RemainingAppend | components/profile/history-tab.tsx:76-78 | filtering keeps the original order |
| HistoryTab.DeleteOutcome | components/profile/history-tab.tsx:69-85 | success exactly for an ok reply with a count. Otherwise the error or its default |
| HistoryTab.Tab.constructor | components/profile/history-tab.tsx:24-26 | nothing selected, the dialog closed |
| HistoryTab.Tab.Check | components/profile/history-tab.tsx:132-137 | the selection is toggled and nothing else changes |
| HistoryTab.Tab.AskDelete | components/profile/history-tab.tsx:112-120 | the confirmation dialog opens |
| HistoryTab.Tab.Delete | components/profile/history-tab.tsx:57-86 | an empty selection sends nothing and changes nothing. Success keeps the unselected chats and clears the selection. Failure changes neither |
| HistoryTab.NothingSelectedKeepsAll | components/profile/history-tab.tsx:58 | with nothing selected the history is kept whole |
| ToolContent.Texts | lib/ai/tools/course-info.ts:50-51 | at most one text per item |
| ToolContent.TextsAppend | components/mcp-result.tsx:26-28 | the filter distributes over concatenation |
| ToolContent.NonTextIgnored | lib/ai/tools/course-info.ts:50 | items other than non-empty text items contribute nothing |
| ToolContent.TextsOfTextItems | lib/ai/tools/course-info.ts:49-52 | a list of non-empty text items yields its texts back, in order |

## Left out

- Timers, EventSource, fetch, `Date.now` and `Math.random` are replaced by explicit events and parameters: times (`now`), request and session ids, and generated tool-call ids (`genId`). That ids are fresh is an assumption of the model (the `reqId !in Issued` preconditions): the code only makes collisions unlikely.
- The singleton instance and the interval that starts the reaper are left out. The registry is constructed explicitly and reaped by calling `Reap(now)`.
- The code opens a fixed event-stream URL and POSTs to a fixed `/mcp`. It has no endpoint discovery. When reconnection is exhausted it does not reject pending requests. Nothing guards against a retry already in flight. The model follows the code in all of this, not a description of what the client ought to do.
- An old EventSource is not closed when a retry replaces it. The model numbers the opened streams (`streams`) and tags each open and error with its stream, so that only the first stream settles the promise connectSession awaits; its handlers otherwise act on the shared session fields like any other stream's.
- `connectSession` replaces a disconnected entry without rejecting its waiters. The model does the same: the old `Session` object simply leaves the registry.
- Frames are parsed by a parameter. A frame that does not parse is the `None` frame. JSON objects are assumed to have unique keys.
- `JSON.parse`, `JSON.stringify(…, null, 2)`, `isUrl` (the `URL` constructor) and the cropping helper are parameters. So are the server endpoints for profile and history updates.
- Numbers are integers. Case mapping is ASCII only. Lengths and substrings count code points, not UTF-16 code units.
- `Object.entries` puts integer-like keys first. The model keeps insertion order for all keys.
- McpResultView.ExtractText: a truthy `message` or `text` that is not a string is rendered with a simplified `String()` (`Json.ToJsString`), not the full JavaScript conversion.
- Currency rate values and their formatting (floating point, `toFixed`) are left out; only which codes are shown is modelled.
- The long regular and artifacts prompt texts are parameters of `Prompts.SystemPrompt`.
- AvatarCrop.CropDialog: the cropper's own rotation callback is not modelled, so the right-angle invariant assumes that only rotate and reset change the rotation. The zoom slider's bounds are not modelled, and zoom is a real.
- The FileReader is modelled as a separate `ImageLoaded` event after file selection.
- `handleChatClick` (opening chat details), the toast library, dialogs, SWR and JSX rendering are not modelled. A handler returns the toasts it shows as a value: the history tab's delete handler returns its one toast, and the profile and crop handlers return the sequence of toasts they show, in order. The file-selection handlers of the profile editor and the crop dialog return their error message (`UploadError`, `FileError`) instead of a toast.
- Two catch blocks cannot fire in the model and are left out: the outer catch of the course-info execute, and the chunk-level catch of the stream transform. Every step they guard cannot throw under the model's assumptions. Thrown values are taken to be `Error` objects.
- McpClient.Session.RejectPending: disconnectSession rejects every waiter and clears its timer but deletes no entry, and then drops the session object. The model also empties `pendingRequests` (`McpSession.RejectAll`). The only difference a caller could see is a later frame on a still-open older stream. That frame would delete an entry whose promise is already settled, which changes no outcome.
- The tool calls of `McpTools.SharedSession` and `CourseInfoTool.CourseInfo` are each one atomic step over the call log. In the code they await between reading and writing the module-level cached session id, and the SDK can run tool calls concurrently. So the model does not capture this interleaving: a call that fails on session X after another call cached Y disconnects Y (the catch of lib/ai/tools/mcp-tools.ts:27-29) and rejects the other call's waiters.
- McpSession.RetryFired: the reconnection timer event (`ReconnectTimerFired`, `Session.OnReconnectTimer`) has no guard. So the model also lets a retry stream open with no earlier error below the ceiling having scheduled it, while mcp-client.ts:145-149 creates that timer only in `onerror`. Every trace of the code is still a trace of the model, so the safety lemmas over all traces still hold for it.
- The 10-second timers of retry streams are not events: each rejects only the promise of its own stream, which nobody awaits, and changes no field.
- The tool layers see the client through an oracle (`McpCalls.Env`), not through `McpClient.Registry` itself.
- The overwrite of `model.doStream` is modelled as `DeepSeekProvider.WithStream`, which replaces the stream of the returned result.
- SidebarUserNav.AvatarUrl: the model has a single missing-email case, rendered as an undefined email ('undefined'). A `null` email, which the template renders as 'null', is not told apart. The contract says nothing when the email is missing.
- AvatarCrop.FourRotations states the four-turn property, but Dafny proves it without help, so it adds no proof of its own.
- The ORM and auth routes, configuration files, fetch wrappers and static pages of the repository are not part of this model.

## Findings

| source | as written | input that shows it | evidently intended | confidence | as-written member | corrected member |
|---|---|---|---|---|---|---|
| components/sidebar-user-nav.tsx:62-64 | the click sets 'light' only for 'dark' and 'dark' otherwise, while the label says "Toggle dark mode" only for 'light' and "Toggle light mode" otherwise | theme 'system' (or undefined): the label says "Toggle light mode" but the click sets 'dark' | the label names the mode that the click sets | medium, not executed | SidebarUserNav.SystemThemeLabelMismatch | SidebarUserNav.CorrectedLabelMatches |
