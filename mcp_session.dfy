/**
 * The state of one tool-server session of the MCP client and the way each
 * stream, timer and network event changes it, as pure functions. The `Session`
 * class in module McpClient holds this state in fields; its handlers are
 * specified by the functions below, and the lemmas here prove what the client
 * promises: every waiter is settled exactly once, errors back off with a capped
 * delay, and stream errors never touch the pending table.
 */
module McpSession {
  import opened Wrappers
  import opened Json

  const BaseUrl: string := "https://hono-mcp-demo.justincourse.site"
  const MaxReconnectAttempts: nat := 5
  /** Per-request timeout, in milliseconds. */
  const RequestTimeout: nat := 30000
  /** Idle time after which the reaper disconnects a session, in milliseconds. */
  const SessionTimeout: nat := 300000
  /** Time allowed for the first stream open, in milliseconds. */
  const ConnectTimeout: nat := 10000
  const MaxBackoff: nat := 30000

  // ---------------------------------------------------------------- envelope

  /** A JSON-RPC id: the code compares ids with Map.has, so "5" and 5 differ. */
  datatype RpcId = StrId(s: string) | NumId(n: int)

  datatype RpcError = RpcError(code: int, message: string, data: Option<Json>)

  /**
   * A JSON-RPC 2.0 envelope as the client reads and writes it. `error` is
   * `Some` when the frame's error member is present and truthy; the code does
   * not check that at most one of `result` and `error` is present.
   */
  datatype Message = Message(
    jsonrpc: string,
    id: Option<RpcId>,
    rpcMethod: Option<string>,
    params: Option<Json>,
    result: Option<Json>,
    error: Option<RpcError>)

  function ToolCallRequest(reqId: string, tool: string, args: Json): Message {
    Message("2.0", Some(StrId(reqId)), Some("tools/call"),
            Some(JObj([Field("name", JStr(tool)), Field("arguments", args)])), None, None)
  }

  function ToolListRequest(reqId: string): Message {
    Message("2.0", Some(StrId(reqId)), Some("tools/list"), None, None, None)
  }

  function RpcIdToJson(id: RpcId): Json {
    match id
    case StrId(s) => JStr(s)
    case NumId(n) => JNum(n)
  }

  function OptField(key: string, v: Option<Json>): seq<Field> {
    if v.Some? then [Field(key, v.value)] else []
  }

  function RpcErrorToJson(e: RpcError): Json {
    JObj([Field("code", JNum(e.code)), Field("message", JStr(e.message))] + OptField("data", e.data))
  }

  /** The object `JSON.stringify` sees: members in declaration order, absent ones omitted. */
  function MessageToJson(m: Message): Json {
    JObj([Field("jsonrpc", JStr(m.jsonrpc))]
         + OptField("id", if m.id.Some? then Some(RpcIdToJson(m.id.value)) else None)
         + OptField("method", if m.rpcMethod.Some? then Some(JStr(m.rpcMethod.value)) else None)
         + OptField("params", m.params)
         + OptField("result", m.result)
         + OptField("error", if m.error.Some? then Some(RpcErrorToJson(m.error.value)) else None))
  }

  /** The upstream POST that carries a request: fixed URL, session header and JSON body. */
  datatype Post = Post(url: string, sessionHeader: string, body: string)

  function RequestPost(sid: string, m: Message): Post {
    Post(BaseUrl + "/mcp", sid, Stringify(MessageToJson(m)))
  }

  /** The URL of the downstream event stream of a session. */
  function StreamUrl(sid: string): string {
    BaseUrl + "/sse?session=" + sid
  }

  // ------------------------------------------------------------------- state

  /** What a pending request is waiting for; it decides the rejection texts. */
  datatype RequestKind = ToolCall(tool: string) | ToolList

  /** A pending waiter: its kind and the time at which its timeout timer fires. */
  datatype Waiter = Waiter(kind: RequestKind, deadline: int)

  /** How a waiter's promise was settled. `Resolved(None)` resolves with undefined. */
  datatype Outcome = Resolved(result: Option<Json>) | Rejected(message: string)

  /**
   * The promise of the first event stream of a session, the one connectSession
   * awaits. Every later stream settles a promise of its own, which nobody awaits.
   * `timerArmed` says whether the first stream's one-shot 10-second timer has
   * yet to fire.
   */
  datatype Handshake = Awaiting(deadline: int, timerArmed: bool) | Established | Refused(reason: string)

  /**
   * One session. `outcomes` records how every waiter that has left `pending`
   * was settled; `streams` counts the event streams opened for the session,
   * which are numbered from 1 in the order they were opened.
   */
  datatype SessionState = SessionState(
    connected: bool,
    reconnectAttempts: nat,
    lastActivity: int,
    pending: map<string, Waiter>,
    outcomes: map<string, Outcome>,
    handshake: Handshake,
    streams: nat)

  /** The invariant every reachable session keeps. */
  predicate Inv(s: SessionState) {
    && s.pending.Keys !! s.outcomes.Keys
    && s.reconnectAttempts <= MaxReconnectAttempts
    && s.streams >= 1
  }

  /** The ids this session has issued so far. */
  function Issued(s: SessionState): set<string> {
    s.pending.Keys + s.outcomes.Keys
  }

  function TimeoutMessage(k: RequestKind): string {
    match k
    case ToolCall(tool) => "MCP tool call timeout: " + tool
    case ToolList => "MCP tools list timeout"
  }

  function SendFailureMessage(k: RequestKind, error: string): string {
    match k
    case ToolCall(_) => "Failed to send MCP request: " + error
    case ToolList => "Failed to list MCP tools: " + error
  }

  const DisconnectedMessage: string := "Session disconnected"
  const NoMoreAttempts: string := "Max reconnection attempts reached"
  const ConnectTimedOut: string := "SSE connection timeout"

  // ------------------------------------------------------------- transitions

  /** A fresh session: not connected, nothing pending, first stream opened, handshake awaited. */
  function NewSession(now: int): (s: SessionState)
    ensures Inv(s)
  {
    SessionState(false, 0, now, map[], map[], Awaiting(now + ConnectTimeout, true), 1)
  }

  /** An event of stream `k` can only come from a stream that has been opened. */
  predicate IsStream(s: SessionState, k: nat) {
    1 <= k <= s.streams
  }

  /** `onopen` of stream `k`: only the first stream resolves the awaited handshake. */
  function Opened(s: SessionState, k: nat, now: int): SessionState {
    s.(connected := true, reconnectAttempts := 0, lastActivity := now,
       handshake := if k == 1 && s.handshake.Awaiting? then Established else s.handshake)
  }

  function Pow2(n: nat): nat {
    if n == 0 then 1 else 2 * Pow2(n - 1)
  }

  /** Delay before reconnection attempt `attempt`: min(1000 * 2^attempt, 30000) ms. */
  function Backoff(attempt: nat): nat {
    if 1000 * Pow2(attempt) < MaxBackoff then 1000 * Pow2(attempt) else MaxBackoff
  }

  /** The delay `onerror` schedules a reconnection after, or `None` once attempts are used up. */
  function RetryDelay(s: SessionState): Option<nat> {
    if s.reconnectAttempts < MaxReconnectAttempts then Some(Backoff(s.reconnectAttempts + 1)) else None
  }

  /**
   * `onerror` of stream `k`: connection lost; count an attempt, or, once they
   * are used up, reject the stream's own promise, which is the awaited
   * handshake only for the first stream.
   */
  function Errored(s: SessionState, k: nat): SessionState {
    if s.reconnectAttempts < MaxReconnectAttempts then
      s.(connected := false, reconnectAttempts := s.reconnectAttempts + 1)
    else
      s.(connected := false,
         handshake := if k == 1 && s.handshake.Awaiting? then Refused(NoMoreAttempts) else s.handshake)
  }

  /** The reconnection timer fires and a new event stream replaces the handle (the old one stays open). */
  function RetryFired(s: SessionState): SessionState {
    s.(streams := s.streams + 1)
  }

  /**
   * The 10-second timer of the first stream, which fires once: at or after
   * its deadline it refuses the awaited handshake if the session is not
   * connected, and otherwise is spent. The timers of later streams reject
   * only their own promises and change nothing here.
   */
  function HandshakeTimerFired(s: SessionState, now: int): SessionState {
    if s.handshake.Awaiting? && s.handshake.timerArmed && now >= s.handshake.deadline then
      if s.connected then s.(handshake := s.handshake.(timerArmed := false))
      else s.(handshake := Refused(ConnectTimedOut))
    else s
  }

  /** The outcome a matching frame gives its waiter: `error` is checked first. */
  function FrameOutcome(m: Message): Outcome {
    if m.error.Some? then Rejected(m.error.value.message) else Resolved(m.result)
  }

  /** The pending id a frame answers, if any. */
  function MatchedId(s: SessionState, m: Message): Option<string> {
    if m.id.Some? && m.id.value.StrId? && m.id.value.s in s.pending then Some(m.id.value.s) else None
  }

  /** Settle one pending waiter with `o`, removing it from the table. */
  function Settle(s: SessionState, id: string, o: Outcome): SessionState
    requires id in s.pending
  {
    s.(pending := s.pending - {id}, outcomes := s.outcomes[id := o])
  }

  /** `onmessage`: an unparsable frame (`None`) is dropped; a parsed frame refreshes activity and settles its waiter. */
  function FrameReceived(s: SessionState, frame: Option<Message>, now: int): SessionState {
    match frame
    case None => s
    case Some(m) =>
      var t := s.(lastActivity := now);
      match MatchedId(s, m)
      case None => t
      case Some(id) => Settle(t, id, FrameOutcome(m))
  }

  /** callTool/listTools on a connected session: the waiter is registered before the POST goes out. */
  function Register(s: SessionState, id: string, kind: RequestKind, now: int): SessionState {
    s.(pending := s.pending[id := Waiter(kind, now + RequestTimeout)])
  }

  /** The 30-second timer of a request; a cleared timer (waiter gone) never fires. */
  function RequestTimerFired(s: SessionState, id: string, now: int): SessionState {
    if id in s.pending && now >= s.pending[id].deadline
    then Settle(s, id, Rejected(TimeoutMessage(s.pending[id].kind)))
    else s
  }

  /** The POST of a request failed. */
  function SendFailed(s: SessionState, id: string, error: string): SessionState {
    if id in s.pending then Settle(s, id, Rejected(SendFailureMessage(s.pending[id].kind, error))) else s
  }

  /** disconnectSession: every pending waiter is rejected. */
  function RejectAll(s: SessionState): SessionState {
    s.(pending := map[],
       outcomes := s.outcomes + map id | id in s.pending :: Rejected(DisconnectedMessage))
  }

  /** More than five minutes since the last activity. */
  predicate Idle(s: SessionState, now: int) {
    now - s.lastActivity > SessionTimeout
  }

  /** What the cleanup does to one session: an idle one is disconnected, any other is left as it is. */
  function Sweep(s: SessionState, now: int): SessionState {
    if Idle(s, now) then RejectAll(s) else s
  }

  // ------------------------------------------------------------------ events

  datatype Event =
    | StreamOpened(stream: nat, at: int)
    | StreamErrored(stream: nat)
    | ReconnectTimerFired
    | ConnectTimerFired(at: int)
    | Frame(frame: Option<Message>, at: int)
    | RequestSent(reqId: string, kind: RequestKind, at: int)
    | RequestTimerExpired(reqId: string, at: int)
    | PostFailed(reqId: string, error: string)
    | Disconnect

  function Step(s: SessionState, e: Event): SessionState {
    match e
    case StreamOpened(k, now) => if IsStream(s, k) then Opened(s, k, now) else s
    case StreamErrored(k) => if IsStream(s, k) then Errored(s, k) else s
    case ReconnectTimerFired => RetryFired(s)
    case ConnectTimerFired(now) => HandshakeTimerFired(s, now)
    case Frame(f, now) => FrameReceived(s, f, now)
    case RequestSent(id, k, now) => if s.connected then Register(s, id, k, now) else s
    case RequestTimerExpired(id, now) => RequestTimerFired(s, id, now)
    case PostFailed(id, err) => SendFailed(s, id, err)
    case Disconnect => RejectAll(s)
  }

  function Run(s: SessionState, es: seq<Event>): SessionState
    decreases |es|
  {
    if es == [] then s else Run(Step(s, es[0]), es[1..])
  }

  /** The waiters one event settles. */
  function SettledBy(s: SessionState, e: Event): set<string> {
    s.pending.Keys - Step(s, e).pending.Keys
  }

  /** How many times each id is settled along a run. */
  function SettleCount(s: SessionState, es: seq<Event>): multiset<string>
    decreases |es|
  {
    if es == [] then multiset{} else multiset(SettledBy(s, es[0])) + SettleCount(Step(s, es[0]), es[1..])
  }

  /** The request ids a run's sends use are new to the session (the id generator's promise). */
  predicate FreshSends(s: SessionState, es: seq<Event>)
    decreases |es|
  {
    es == [] ||
    ((es[0].RequestSent? ==> es[0].reqId !in Issued(s)) && FreshSends(Step(s, es[0]), es[1..]))
  }

  // ------------------------------------------------------------------ lemmas

  /**
   * One event: the invariant is kept, the waiters that leave the table are
   * exactly the ones that gain an outcome, earlier outcomes never change, and
   * the table gains at most the sent id.
   */
  lemma StepSettlesLeavers(s: SessionState, e: Event)
    requires Inv(s)
    requires e.RequestSent? ==> e.reqId !in Issued(s)
    ensures Inv(Step(s, e))
    ensures Step(s, e).outcomes.Keys == s.outcomes.Keys + SettledBy(s, e)
    ensures forall id :: id in s.outcomes ==> Step(s, e).outcomes[id] == s.outcomes[id]
    ensures Step(s, e).pending.Keys <= s.pending.Keys + (if e.RequestSent? then {e.reqId} else {})
  {
    match e
    case Disconnect => DisconnectLeaves(s);
    case Frame(f, now) => FrameLeaves(s, f, now);
    case RequestTimerExpired(id, now) => TimerLeaves(s, id, now);
    case PostFailed(id, err) => PostFailedLeaves(s, id, err);
    case _ => QuietLeaves(s, e);
  }

  /**
   * From `s` to `t`: the invariant holds, exactly the waiters that left the
   * table gained outcomes, earlier outcomes stay, and the table gains at most `sent`.
   */
  ghost predicate Leaves(s: SessionState, t: SessionState, sent: set<string>) {
    && Inv(t)
    && t.outcomes.Keys == s.outcomes.Keys + (s.pending.Keys - t.pending.Keys)
    && (forall id :: id in s.outcomes ==> id in t.outcomes && t.outcomes[id] == s.outcomes[id])
    && t.pending.Keys <= s.pending.Keys + sent
  }

  /** The events that settle nothing: stream open/error, timers of the stream, and sends. */
  lemma QuietLeaves(s: SessionState, e: Event)
    requires Inv(s)
    requires e.StreamOpened? || e.StreamErrored? || e.ReconnectTimerFired? || e.ConnectTimerFired? || e.RequestSent?
    requires e.RequestSent? ==> e.reqId !in Issued(s)
    ensures Leaves(s, Step(s, e), if e.RequestSent? then {e.reqId} else {})
  {
  }

  lemma DisconnectLeaves(s: SessionState)
    requires Inv(s)
    ensures Leaves(s, Step(s, Disconnect), {})
  {
    assert RejectAll(s).outcomes.Keys == s.outcomes.Keys + s.pending.Keys;
  }

  lemma FrameLeaves(s: SessionState, f: Option<Message>, now: int)
    requires Inv(s)
    ensures Leaves(s, Step(s, Frame(f, now)), {})
  {
    if f.Some? && MatchedId(s, f.value).Some? {
      SettleLeaves(s.(lastActivity := now), MatchedId(s, f.value).value, FrameOutcome(f.value));
    }
  }

  lemma TimerLeaves(s: SessionState, id: string, now: int)
    requires Inv(s)
    ensures Leaves(s, Step(s, RequestTimerExpired(id, now)), {})
  {
    if id in s.pending && now >= s.pending[id].deadline {
      SettleLeaves(s, id, Rejected(TimeoutMessage(s.pending[id].kind)));
    }
  }

  lemma PostFailedLeaves(s: SessionState, id: string, err: string)
    requires Inv(s)
    ensures Leaves(s, Step(s, PostFailed(id, err)), {})
  {
    if id in s.pending {
      SettleLeaves(s, id, Rejected(SendFailureMessage(s.pending[id].kind, err)));
    }
  }

  /** Settling a waiter moves exactly its id from the table to the outcomes. */
  lemma SettleLeaves(s: SessionState, id: string, o: Outcome)
    requires Inv(s) && id in s.pending
    ensures Inv(Settle(s, id, o))
    ensures Settle(s, id, o).pending.Keys == s.pending.Keys - {id}
    ensures Settle(s, id, o).outcomes.Keys == s.outcomes.Keys + {id}
    ensures forall k :: k in s.outcomes ==> Settle(s, id, o).outcomes[k] == s.outcomes[k]
  {
  }

  /**
   * Exactly once: along any run whose sends use fresh ids, every id is settled
   * at most once, an id is settled exactly when it gains an outcome, and no
   * outcome recorded before the run changes.
   */
  lemma {:induction false} SettledExactlyOnce(s: SessionState, es: seq<Event>)
    requires Inv(s)
    requires FreshSends(s, es)
    ensures Inv(Run(s, es))
    ensures forall id :: SettleCount(s, es)[id] <= 1
    ensures forall id :: SettleCount(s, es)[id] == 1 <==> id in Run(s, es).outcomes && id !in s.outcomes
    ensures forall id :: id in s.outcomes ==> id in Run(s, es).outcomes && Run(s, es).outcomes[id] == s.outcomes[id]
    decreases |es|
  {
    if es != [] {
      var t := Step(s, es[0]);
      StepSettlesLeavers(s, es[0]);
      SettledExactlyOnce(t, es[1..]);
      forall id ensures SettleCount(s, es)[id] <= 1
        && (SettleCount(s, es)[id] == 1 <==> id in Run(s, es).outcomes && id !in s.outcomes)
      {
        assert SettleCount(s, es)[id] == multiset(SettledBy(s, es[0]))[id] + SettleCount(t, es[1..])[id];
        if id in SettledBy(s, es[0]) {
          assert id in t.outcomes;
          assert id in s.pending;
        }
      }
    }
  }

  /** Whatever happened to its waiter, an issued id is never forgotten and never reissued. */
  lemma {:induction false} IssuedOnlyGrows(s: SessionState, es: seq<Event>)
    requires Inv(s)
    requires FreshSends(s, es)
    ensures Issued(s) <= Issued(Run(s, es))
    decreases |es|
  {
    if es != [] {
      StepSettlesLeavers(s, es[0]);
      IssuedOnlyGrows(Step(s, es[0]), es[1..]);
    }
  }

  /** A frame for an id that is not pending (unknown, absent, or already settled) settles nothing. */
  lemma UnmatchedFrameSettlesNothing(s: SessionState, m: Message, now: int)
    requires !(m.id.Some? && m.id.value.StrId? && m.id.value.s in s.pending)
    ensures FrameReceived(s, Some(m), now) == s.(lastActivity := now)
  {
  }

  /** After its timeout, a late frame carrying the id settles nothing and the outcome stays the timeout. */
  lemma {:induction false} LateFrameAfterTimeout(s: SessionState, id: string, now: int, later: int, m: Message)
    requires Inv(s)
    requires id in s.pending && now >= s.pending[id].deadline
    requires m.id == Some(StrId(id))
    ensures var t := RequestTimerFired(s, id, now);
      && t.outcomes[id] == Rejected(TimeoutMessage(s.pending[id].kind))
      && FrameReceived(t, Some(m), later).outcomes == t.outcomes
      && FrameReceived(t, Some(m), later).pending == t.pending
      && t.connected == s.connected
  {
    var t := RequestTimerFired(s, id, now);
    UnmatchedFrameSettlesNothing(t, m, later);
  }

  function Repeat(e: Event, k: nat): (r: seq<Event>)
    ensures |r| == k && forall i :: 0 <= i < k ==> r[i] == e
  {
    if k == 0 then [] else [e] + Repeat(e, k - 1)
  }

  /**
   * Consecutive errors of stream `j`: the attempt counter climbs to the
   * ceiling of 5 and stays there, the session is disconnected, the pending
   * table and outcomes are untouched, and a later stream's errors never
   * settle the handshake.
   */
  lemma {:induction false} ErrorsClimbToCeiling(s: SessionState, j: nat, k: nat)
    requires Inv(s) && IsStream(s, j)
    requires k > 0
    ensures var t := Run(s, Repeat(StreamErrored(j), k));
      && t.reconnectAttempts == (if s.reconnectAttempts + k < MaxReconnectAttempts then s.reconnectAttempts + k else MaxReconnectAttempts)
      && !t.connected
      && t.pending == s.pending
      && t.outcomes == s.outcomes
      && t.lastActivity == s.lastActivity
      && t.streams == s.streams
      && (j != 1 ==> t.handshake == s.handshake)
      && Inv(t)
    decreases k
  {
    ErrorFirst(s, j, k);
    if k > 1 {
      ErrorsClimbToCeiling(Errored(s, j), j, k - 1);
    }
  }

  /** The first of `k` errors of an opened stream is the error transition. */
  lemma ErrorFirst(s: SessionState, j: nat, k: nat)
    requires IsStream(s, j) && k > 0
    ensures Run(s, Repeat(StreamErrored(j), k)) == Run(Errored(s, j), Repeat(StreamErrored(j), k - 1))
    ensures k == 1 ==> Run(s, Repeat(StreamErrored(j), k)) == Errored(s, j)
  {
    var es := Repeat(StreamErrored(j), k);
    assert es[1..] == Repeat(StreamErrored(j), k - 1);
  }

  /** The five reconnection delays are 2000, 4000, 8000, 16000 and 30000 ms. */
  lemma BackoffSchedule()
    ensures [Backoff(1), Backoff(2), Backoff(3), Backoff(4), Backoff(5)] == [2000, 4000, 8000, 16000, 30000]
  {
    assert Pow2(5) == 32;
  }

  lemma {:induction false} Pow2AtLeast(n: nat)
    requires n >= 5
    ensures Pow2(n) >= 32
  {
    if n > 5 { Pow2AtLeast(n - 1); }
    else { assert Pow2(5) == 32; }
  }

  lemma {:induction false} Pow2Positive(n: nat)
    ensures Pow2(n) >= 1
  {
    if n > 0 { Pow2Positive(n - 1); }
  }

  /** Every delay lies between 1000 and 30000 ms, and from the fifth attempt on it is the cap. */
  lemma {:induction false} BackoffBounds(n: nat)
    ensures 1000 <= Backoff(n) <= MaxBackoff
    ensures n >= 5 ==> Backoff(n) == MaxBackoff
  {
    Pow2Positive(n);
    if n >= 5 { Pow2AtLeast(n); }
  }

  /**
   * While attempts remain, an error of stream `k` schedules a retry after the
   * backoff delay of the incremented counter; at the ceiling it schedules none
   * and the only other effect is that the first stream's error refuses a
   * still-awaited handshake. A later stream's error never touches it.
   */
  lemma ErrorSchedulesRetry(s: SessionState, k: nat)
    requires Inv(s) && IsStream(s, k)
    ensures s.reconnectAttempts < MaxReconnectAttempts ==>
      && RetryDelay(s) == Some(Backoff(Errored(s, k).reconnectAttempts))
      && Errored(s, k).handshake == s.handshake
    ensures s.reconnectAttempts == MaxReconnectAttempts ==>
      && RetryDelay(s) == None
      && Errored(s, k) == s.(connected := false,
           handshake := if k == 1 && s.handshake.Awaiting? then Refused(NoMoreAttempts) else s.handshake)
    ensures k != 1 ==> Errored(s, k).handshake == s.handshake
    ensures Errored(s, k).pending == s.pending && !Errored(s, k).connected
  {
  }

  /**
   * The handshake connectSession awaits is settled only by the first stream's
   * open or error or by its 10-second timer, only while still awaited, and
   * once settled it never changes.
   */
  lemma HandshakeSettledByFirstStream(s: SessionState, e: Event)
    ensures !s.handshake.Awaiting? ==> Step(s, e).handshake == s.handshake
    ensures Step(s, e).handshake != s.handshake ==>
      && s.handshake.Awaiting?
      && (match e
          case StreamOpened(k, _) => k == 1 && Step(s, e).handshake == Established
          case StreamErrored(k) => k == 1 && Step(s, e).handshake == Refused(NoMoreAttempts)
          case ConnectTimerFired(_) =>
            s.handshake.timerArmed
            && Step(s, e).handshake == (if s.connected then s.handshake.(timerArmed := false) else Refused(ConnectTimedOut))
          case _ => false)
  {
  }

  /**
   * After the first stream fails once, a retry stream that opens connects the
   * session, yet the handshake stays awaited, and the 10-second timer then
   * finds the session connected and is spent without refusing it:
   * connectSession does not return until the first stream itself opens or
   * runs out of attempts.
   */
  lemma {:induction false} RetryOpenLeavesHandshakeAwaiting(s: SessionState, openAt: int, timerAt: int)
    requires Inv(s) && s.handshake.Awaiting? && s.reconnectAttempts < MaxReconnectAttempts
    ensures var t := Run(s, [StreamErrored(1), ReconnectTimerFired, StreamOpened(s.streams + 1, openAt), ConnectTimerFired(timerAt)]);
      && t.connected && t.streams == s.streams + 1
      && t.handshake == (if s.handshake.timerArmed && timerAt >= s.handshake.deadline then s.handshake.(timerArmed := false) else s.handshake)
  {
    var es := [StreamErrored(1), ReconnectTimerFired, StreamOpened(s.streams + 1, openAt), ConnectTimerFired(timerAt)];
    var s1 := Errored(s, 1);
    var s2 := RetryFired(s1);
    var s3 := Opened(s2, s.streams + 1, openAt);
    assert s3.connected && s3.handshake == s.handshake;
    var s4 := HandshakeTimerFired(s3, timerAt);
    assert Run(s4, es[4..]) == s4;
    assert Run(s, es) == Run(s1, es[1..]) == Run(s2, es[2..]) == Run(s3, es[3..]) == Run(s4, es[4..]);
  }

  /** The handshake after the first stream's timer has fired without refusing it. */
  predicate TimerSpent(h: Handshake) {
    (h.Awaiting? && !h.timerArmed) || h.Established? || h == Refused(NoMoreAttempts)
  }

  /**
   * The 10-second timer fires once: once it is spent, no trace of events
   * (a retry stream that connects and drops again, further timer events)
   * refuses the handshake with the timeout.
   */
  lemma {:induction false} SpentTimerNeverRefuses(s: SessionState, es: seq<Event>)
    requires TimerSpent(s.handshake)
    ensures TimerSpent(Run(s, es).handshake)
    ensures Run(s, es).handshake != Refused(ConnectTimedOut)
    decreases |es|
  {
    if es != [] {
      HandshakeSettledByFirstStream(s, es[0]);
      SpentTimerNeverRefuses(Step(s, es[0]), es[1..]);
    }
  }
}
