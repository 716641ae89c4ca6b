/**
 * The MCP client's session objects and the process-wide registry of them.
 * A `Session` holds the fields the stream handlers reassign; each handler is
 * a method whose new state is the pure transition of module McpSession. The
 * `Registry` owns the map from session id to session object and implements
 * connect, reuse, call, list, disconnect, status and the idle reaper.
 */
module McpClient {
  import opened Wrappers
  import opened Json
  import opened McpSession

  class Session {
    const id: string
    var isConnected: bool
    var reconnectAttempts: nat
    var lastActivity: int
    var pendingRequests: map<string, Waiter>
    /** The settled promises of the waiters that have left `pendingRequests`. */
    var outcomes: map<string, Outcome>
    var handshake: Handshake
    /** How many event streams were opened for this session. */
    var streams: nat

    function State(): SessionState
      reads this
    {
      SessionState(isConnected, reconnectAttempts, lastActivity, pendingRequests, outcomes, handshake, streams)
    }

    predicate Valid()
      reads this
    {
      Inv(State())
    }

    /** The session literal of connectSession, with its first event stream opened. */
    constructor (id: string, now: int)
      ensures this.id == id && State() == NewSession(now) && Valid()
    {
      this.id := id;
      isConnected := false;
      reconnectAttempts := 0;
      lastActivity := now;
      pendingRequests := map[];
      outcomes := map[];
      handshake := Awaiting(now + ConnectTimeout, true);
      streams := 1;
    }

    /** `onopen` of the event stream numbered `stream`. */
    method OnOpen(stream: nat, now: int)
      requires Valid() && IsStream(State(), stream)
      modifies this
      ensures Valid() && State() == Opened(old(State()), stream, now)
    {
      isConnected := true;
      reconnectAttempts := 0;
      lastActivity := now;
      if stream == 1 && handshake.Awaiting? {
        handshake := Established;
      }
    }

    /** `onerror` of stream `stream`: returns the delay after which a reconnection is scheduled, if any. */
    method OnError(stream: nat) returns (retry: Option<nat>)
      requires Valid() && IsStream(State(), stream)
      modifies this
      ensures Valid() && State() == Errored(old(State()), stream) && retry == RetryDelay(old(State()))
    {
      isConnected := false;
      if reconnectAttempts < MaxReconnectAttempts {
        reconnectAttempts := reconnectAttempts + 1;
        retry := Some(Backoff(reconnectAttempts));
      } else {
        if stream == 1 && handshake.Awaiting? {
          handshake := Refused(NoMoreAttempts);
        }
        retry := None;
      }
    }

    /** The reconnection timer: establishSSEConnection opens a new stream over the old handle. */
    method OnReconnectTimer() returns (url: string)
      requires Valid()
      modifies this
      ensures Valid() && State() == RetryFired(old(State())) && url == StreamUrl(id)
    {
      streams := streams + 1;
      url := StreamUrl(id);
    }

    method OnConnectTimer(now: int)
      requires Valid()
      modifies this
      ensures Valid() && State() == HandshakeTimerFired(old(State()), now)
    {
      if handshake.Awaiting? && handshake.timerArmed && now >= handshake.deadline {
        if isConnected {
          handshake := handshake.(timerArmed := false);
        } else {
          handshake := Refused(ConnectTimedOut);
        }
      }
    }

    /** `onmessage` with the result of JSON.parse (`None` when it throws), then handleSSEMessage. */
    method OnMessage(frame: Option<Message>, now: int)
      requires Valid()
      modifies this
      ensures Valid() && State() == FrameReceived(old(State()), frame, now)
    {
      if frame.Some? {
        var m := frame.value;
        lastActivity := now;
        if m.id.Some? && m.id.value.StrId? && m.id.value.s in pendingRequests {
          var rid := m.id.value.s;
          pendingRequests := pendingRequests - {rid};
          if m.error.Some? {
            outcomes := outcomes[rid := Rejected(m.error.value.message)];
          } else {
            outcomes := outcomes[rid := Resolved(m.result)];
          }
        }
      }
    }

    method OnRequestTimer(reqId: string, now: int)
      requires Valid()
      modifies this
      ensures Valid() && State() == RequestTimerFired(old(State()), reqId, now)
    {
      if reqId in pendingRequests && now >= pendingRequests[reqId].deadline {
        var w := pendingRequests[reqId];
        pendingRequests := pendingRequests - {reqId};
        outcomes := outcomes[reqId := Rejected(TimeoutMessage(w.kind))];
      }
    }

    /** The `.catch` of the POST. */
    method OnSendFailed(reqId: string, error: string)
      requires Valid()
      modifies this
      ensures Valid() && State() == SendFailed(old(State()), reqId, error)
    {
      if reqId in pendingRequests {
        var w := pendingRequests[reqId];
        pendingRequests := pendingRequests - {reqId};
        outcomes := outcomes[reqId := Rejected(SendFailureMessage(w.kind, error))];
      }
    }

    method AddWaiter(reqId: string, kind: RequestKind, now: int)
      requires Valid() && isConnected
      requires reqId !in Issued(State())
      modifies this
      ensures Valid() && State() == Register(old(State()), reqId, kind, now)
    {
      pendingRequests := pendingRequests[reqId := Waiter(kind, now + RequestTimeout)];
    }

    /** The for-of loop of disconnectSession: reject every pending waiter. */
    method RejectPending()
      requires Valid()
      modifies this
      ensures Valid() && State() == RejectAll(old(State()))
    {
      var todo := pendingRequests.Keys;
      while todo != {}
        invariant todo <= pendingRequests.Keys
        invariant pendingRequests == old(pendingRequests)
        invariant outcomes.Keys == old(outcomes).Keys + (pendingRequests.Keys - todo)
        invariant forall k :: k in outcomes ==>
          outcomes[k] == if k in pendingRequests.Keys - todo then Rejected(DisconnectedMessage) else old(outcomes)[k]
        invariant State() == old(State()).(outcomes := outcomes)
        decreases todo
      {
        var k :| k in todo;
        outcomes := outcomes[k := Rejected(DisconnectedMessage)];
        todo := todo - {k};
      }
      assert outcomes == old(outcomes) + map k | k in pendingRequests :: Rejected(DisconnectedMessage);
      pendingRequests := map[];
    }
  }

  /** What getSessionStatus reports. */
  datatype SessionStatus = SessionStatus(connected: bool, lastActivity: int)

  /** `sessionId || generateSessionId()`: an empty or absent id is replaced by a generated one. */
  function ActualId(requested: Option<string>, generated: string): string {
    if requested.Some? && requested.value != "" then requested.value else generated
  }

  class Registry {
    var sessions: map<string, Session>

    ghost predicate Valid()
      reads this, sessions.Values
    {
      forall k :: k in sessions ==> sessions[k].id == k && sessions[k].Valid()
    }

    /** An explicitly constructed, empty registry. */
    constructor ()
      ensures Valid() && sessions == map[]
    {
      sessions := map[];
    }

    /** getSessionStatus: absent exactly for an unknown id. */
    function Status(sid: string): (r: Option<SessionStatus>)
      reads this, sessions.Values
      ensures r.None? <==> sid !in sessions
      ensures r.Some? ==> (r.value.connected == sessions[sid].isConnected
                        && r.value.lastActivity == sessions[sid].lastActivity)
    {
      if sid in sessions then Some(SessionStatus(sessions[sid].isConnected, sessions[sid].lastActivity)) else None
    }

    predicate IsConnected(sid: string)
      reads this, sessions.Values
    {
      sid in sessions && sessions[sid].isConnected
    }

    /**
     * The synchronous part of connectSession: reuse a connected session,
     * refreshing its activity, or register a new session object (replacing
     * any disconnected entry with that id) whose first stream is opened.
     * Returns the id and whether the session was reused.
     */
    method ConnectSession(requested: Option<string>, generated: string, now: int) returns (sid: string, reused: bool)
      requires Valid()
      modifies this, sessions.Values
      ensures Valid()
      ensures sid == ActualId(requested, generated)
      ensures reused == old(IsConnected(sid))
      ensures reused ==> (sessions == old(sessions)
                      && sessions[sid].State() == old(sessions[sid].State()).(lastActivity := now))
      ensures !reused ==> (sid in sessions && fresh(sessions[sid])
                       && sessions[sid].State() == NewSession(now)
                       && sessions == old(sessions)[sid := sessions[sid]])
      ensures forall k :: k in old(sessions) && k != sid ==> unchanged(old(sessions[k]))
      ensures !reused && sid in old(sessions) ==> unchanged(old(sessions[sid]))
    {
      sid := ActualId(requested, generated);
      if sid in sessions && sessions[sid].isConnected {
        sessions[sid].lastActivity := now;
        reused := true;
        return;
      }
      var s := new Session(sid, now);
      sessions := sessions[sid := s];
      reused := false;
    }

    /**
     * The end of connectSession for the session object `s` it created: `None`
     * while the first stream's promise is still awaited (the call has not
     * returned yet); once it is settled, the id, or on refusal the entry under
     * that id is deleted and the call fails.
     */
    method FinishConnect(sid: string, s: Session) returns (r: Option<Result<string>>)
      requires Valid()
      modifies this
      ensures Valid()
      ensures s.handshake.Awaiting? ==> r == None && sessions == old(sessions)
      ensures s.handshake.Established? ==> r == Some(Success(sid)) && sessions == old(sessions)
      ensures s.handshake.Refused? ==>
        && r == Some(Failure("Failed to establish MCP connection: Error: " + s.handshake.reason))
        && sessions == old(sessions) - {sid}
    {
      match s.handshake
      case Awaiting(_, _) =>
        r := None;
      case Established =>
        r := Some(Success(sid));
      case Refused(reason) =>
        sessions := sessions - {sid};
        r := Some(Failure("Failed to establish MCP connection: Error: " + reason));
    }

    /** ensureConnection: reuse a connected session under a given id, else connectSession with that id. */
    method EnsureConnection(requested: Option<string>, generated: string, now: int) returns (sid: string, reused: bool)
      requires Valid()
      modifies this, sessions.Values
      ensures Valid()
      ensures sid == ActualId(requested, generated)
      ensures reused == old(IsConnected(sid))
      ensures reused ==> (sessions == old(sessions)
                      && sessions[sid].State() == old(sessions[sid].State()).(lastActivity := now))
      ensures !reused ==> (sid in sessions && fresh(sessions[sid])
                       && sessions[sid].State() == NewSession(now)
                       && sessions == old(sessions)[sid := sessions[sid]])
      ensures forall k :: k in old(sessions) && k != sid ==> unchanged(old(sessions[k]))
      ensures !reused && sid in old(sessions) ==> unchanged(old(sessions[sid]))
    {
      if requested.Some? && requested.value != "" && IsConnected(requested.value) {
        sid := requested.value;
        sessions[sid].lastActivity := now;
        reused := true;
        return;
      }
      sid, reused := ConnectSession(requested, generated, now);
    }

    /**
     * callTool: on a missing or disconnected session it fails without
     * registering anything; otherwise it registers the waiter and returns the
     * `tools/call` POST to send. `reqId` comes from the request-id generator.
     */
    method CallTool(sid: string, tool: string, args: Json, reqId: string, now: int) returns (r: Result<Post>)
      requires Valid()
      requires sid in sessions ==> reqId !in Issued(sessions[sid].State())
      modifies if sid in sessions then {sessions[sid]} else {}
      ensures Valid() && sessions == old(sessions)
      ensures !old(IsConnected(sid)) ==>
        r == Failure("No active MCP session found: " + sid) && (sid in sessions ==> unchanged(sessions[sid]))
      ensures old(IsConnected(sid)) ==>
        && r == Success(RequestPost(sid, ToolCallRequest(reqId, tool, args)))
        && sessions[sid].State() == Register(old(sessions[sid].State()), reqId, ToolCall(tool), now)
    {
      if !IsConnected(sid) {
        return Failure("No active MCP session found: " + sid);
      }
      sessions[sid].AddWaiter(reqId, ToolCall(tool), now);
      r := Success(RequestPost(sid, ToolCallRequest(reqId, tool, args)));
    }

    /** listTools: as callTool, with method `tools/list` and no params. */
    method ListTools(sid: string, reqId: string, now: int) returns (r: Result<Post>)
      requires Valid()
      requires sid in sessions ==> reqId !in Issued(sessions[sid].State())
      modifies if sid in sessions then {sessions[sid]} else {}
      ensures Valid() && sessions == old(sessions)
      ensures !old(IsConnected(sid)) ==>
        r == Failure("No active MCP session found: " + sid) && (sid in sessions ==> unchanged(sessions[sid]))
      ensures old(IsConnected(sid)) ==>
        && r == Success(RequestPost(sid, ToolListRequest(reqId)))
        && sessions[sid].State() == Register(old(sessions[sid].State()), reqId, ToolList, now)
    {
      if !IsConnected(sid) {
        return Failure("No active MCP session found: " + sid);
      }
      sessions[sid].AddWaiter(reqId, ToolList, now);
      r := Success(RequestPost(sid, ToolListRequest(reqId)));
    }

    /** disconnectSession: reject every waiter and drop the entry; a no-op on an unknown id. */
    method Disconnect(sid: string)
      requires Valid()
      modifies this, if sid in sessions then {sessions[sid]} else {}
      ensures Valid()
      ensures sessions == old(sessions) - {sid}
      ensures Status(sid) == None
      ensures sid in old(sessions) ==> old(sessions[sid]).State() == RejectAll(old(sessions[sid].State()))
    {
      if sid in sessions {
        sessions[sid].RejectPending();
        sessions := sessions - {sid};
      }
    }

    /**
     * How far cleanupInactiveSessions has got: the sessions under the keys
     * still in `todo` are as they were (`states`); every other one has been
     * swept, and dropped from the registry if it was idle.
     */
    ghost predicate Swept(before: map<string, Session>, states: map<string, SessionState>, todo: set<string>, now: int)
      reads this, before.Values
    {
      && todo <= before.Keys
      && before.Keys == states.Keys
      && (forall k :: k in before ==> before[k].id == k)
      && (forall k :: k in sessions <==> k in before && (k in todo || !Idle(states[k], now)))
      && (forall k :: k in sessions ==> sessions[k] == before[k])
      && (forall k :: k in before ==> before[k].State() == if k in todo then states[k] else Sweep(states[k], now))
    }

    /** One step of cleanupInactiveSessions: disconnect the session under `k` if it is idle. */
    method ReapOne(k: string, now: int, ghost before: map<string, Session>, ghost states: map<string, SessionState>, ghost todo: set<string>)
      requires Valid() && Swept(before, states, todo, now) && k in todo
      modifies this, before[k]
      ensures Valid() && Swept(before, states, todo - {k}, now)
    {
      if Idle(sessions[k].State(), now) {
        ReapIdle(k, now, before, states, todo);
      }
    }

    /** The step for an idle session: it is disconnected and leaves the registry. */
    method ReapIdle(k: string, now: int, ghost before: map<string, Session>, ghost states: map<string, SessionState>, ghost todo: set<string>)
      requires Valid() && Swept(before, states, todo, now) && k in todo && Idle(states[k], now)
      modifies this, before[k]
      ensures Valid() && Swept(before, states, todo - {k}, now)
    {
      assert sessions[k] == before[k];
      Disconnect(k);
      forall j | j in before
        ensures before[j].State() == if j in todo - {k} then states[j] else Sweep(states[j], now)
      {
        if j != k {
          assert before[j].id != before[k].id;
          assert before[j].State() == old(before[j].State());
        }
      }
    }

    /**
     * cleanupInactiveSessions: disconnects exactly the sessions idle for more
     * than five minutes at `now`; the others stay, unchanged.
     */
    method Reap(now: int)
      requires Valid()
      modifies this, sessions.Values
      ensures Valid()
      ensures forall k :: k in sessions <==> k in old(sessions) && !Idle(old(sessions[k].State()), now)
      ensures forall k :: k in sessions ==> sessions[k] == old(sessions[k])
      ensures forall k :: k in old(sessions) ==> old(sessions[k]).State() == Sweep(old(sessions[k].State()), now)
    {
      ghost var before := sessions;
      ghost var states := map k | k in sessions :: sessions[k].State();
      var todo := sessions.Keys;
      while todo != {}
        invariant Valid() && Swept(before, states, todo, now)
        decreases todo
      {
        var k :| k in todo;
        ReapOne(k, now, before, states, todo);
        todo := todo - {k};
      }
    }
  }
}
