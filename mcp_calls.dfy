/**
 * How the two tool layers see the MCP client: each call they make is recorded
 * in a log, and the asynchronous answer to the n-th call of the log is given
 * by an environment function. Only the field of the answer that matches the
 * kind of call is read.
 */
module McpCalls {
  import opened Wrappers
  import opened Json

  datatype ClientCall =
    | GetStatus(sid: string)
    | EnsureConnection(requested: Option<string>)
    | ConnectSession(requested: Option<string>)
    | CallTool(sid: string, tool: string, args: Json)
    | DisconnectSession(sid: string)

  /**
   * `connected`: whether getSessionStatus reported the session connected (a
   * null status reads as false); `session`: how ensureConnection or
   * connectSession settled; `result`: how callTool settled, with the
   * message of the rejection's Error.
   */
  datatype Answer = Answer(connected: bool, session: Result<string>, result: Result<Option<Json>>)

  type Env = nat -> Answer

  /** `if (id)` for a cached `string | null`. */
  predicate IsSet(id: Option<string>) {
    id.Some? && id.value != ""
  }

  function ToolCalls(calls: seq<ClientCall>): (r: nat)
    ensures r <= |calls|
  {
    if calls == [] then 0
    else ToolCalls(calls[..|calls| - 1]) + (if calls[|calls| - 1].CallTool? then 1 else 0)
  }

  lemma {:induction false} ToolCallsAppend(a: seq<ClientCall>, b: seq<ClientCall>)
    ensures ToolCalls(a + b) == ToolCalls(a) + ToolCalls(b)
    decreases |b|
  {
    if b == [] {
      assert a + b == a;
    } else {
      assert (a + b)[..|a + b| - 1] == a + b[..|b| - 1];
      ToolCallsAppend(a, b[..|b| - 1]);
    }
  }

  /**
   * `after` extends `before` by at most `extra` tool calls, all with the
   * given tool and arguments.
   */
  predicate LogGrows(before: seq<ClientCall>, after: seq<ClientCall>, tool: string, args: Json, extra: nat) {
    && |before| <= |after| && after[..|before|] == before
    && ToolCalls(after) <= ToolCalls(before) + extra
    && forall c :: c in after[|before|..] && c.CallTool? ==> c.tool == tool && c.args == args
  }

  lemma LogGrowsTrans(a: seq<ClientCall>, b: seq<ClientCall>, c: seq<ClientCall>, tool: string, args: Json, k1: nat, k2: nat)
    requires LogGrows(a, b, tool, args, k1) && LogGrows(b, c, tool, args, k2)
    ensures LogGrows(a, c, tool, args, k1 + k2)
  {
    assert c[|a|..] == b[|a|..] + c[|b|..];
  }

  lemma AppendOne(a: seq<ClientCall>, call: ClientCall, tool: string, args: Json)
    requires call.CallTool? ==> call.tool == tool && call.args == args
    ensures LogGrows(a, a + [call], tool, args, 1)
    ensures !call.CallTool? ==> LogGrows(a, a + [call], tool, args, 0)
  {
    ToolCallsAppend(a, [call]);
    assert (a + [call])[|a|..] == [call];
  }
}
