/**
 * The DeepSeek provider wrapper (lib/ai/deepseek-provider.ts): a loop that
 * reads stream parts, fills in missing tool-call fields and forwards every
 * part, then closes the output or passes on the read error; and the result
 * object whose `stream` is replaced by the fixed stream.
 */
module DeepSeekProvider {
  import opened Wrappers
  import opened Json

  /** A stream part is a plain object. */
  type Part = seq<Field>

  /** What one `reader.read()` gives: a part, the end of the stream, or a rejection. */
  datatype Read = Chunk(part: Part) | Done | ReadError(error: string)

  datatype Status = Open | Closed | Errored(error: string)

  /** The output stream's controller: the parts enqueued so far and whether it ended. */
  class Controller {
    var enqueued: seq<Part>
    var status: Status

    constructor ()
      ensures enqueued == [] && status == Open
    {
      enqueued := [];
      status := Open;
    }

    method Enqueue(p: Part)
      requires status.Open?
      modifies this
      ensures enqueued == old(enqueued) + [p] && status == old(status)
    {
      enqueued := enqueued + [p];
    }

    method Close()
      requires status.Open?
      modifies this
      ensures enqueued == old(enqueued) && status == Closed
    {
      status := Closed;
    }

    method Error(e: string)
      requires status.Open?
      modifies this
      ensures enqueued == old(enqueued) && status == Errored(e)
    {
      status := Errored(e);
    }
  }

  /**
   * The fix-ups of one part. `tool-call-delta` parts get a type and an id only
   * where those are exactly null; `tool-call` parts wherever they are falsy
   * (also '' and undefined); other parts are untouched. `id` is the generated
   * `call_<time>_<random>` for this part.
   */
  function FixPart(p: Part, id: string): (r: Part)
    ensures Get(p, "type") == Some(JStr("tool-call-delta")) ==>
      && Get(r, "toolCallType") == (if Get(p, "toolCallType") == Some(JNull) then Some(JStr("function")) else Get(p, "toolCallType"))
      && Get(r, "toolCallId") == (if Get(p, "toolCallId") == Some(JNull) then Some(JStr(id)) else Get(p, "toolCallId"))
    ensures Get(p, "type") == Some(JStr("tool-call")) ==>
      && Get(r, "toolCallType") == (if Truthy(Get(p, "toolCallType")) then Get(p, "toolCallType") else Some(JStr("function")))
      && Get(r, "toolCallId") == (if Truthy(Get(p, "toolCallId")) then Get(p, "toolCallId") else Some(JStr(id)))
    ensures Get(p, "type") != Some(JStr("tool-call-delta")) && Get(p, "type") != Some(JStr("tool-call")) ==> r == p
    ensures forall k :: k != "toolCallType" && k != "toolCallId" ==> Get(r, k) == Get(p, k)
  {
    if Get(p, "type") == Some(JStr("tool-call-delta")) then
      var p1 := if Get(p, "toolCallType") == Some(JNull) then Set(p, "toolCallType", JStr("function")) else p;
      if Get(p1, "toolCallId") == Some(JNull) then Set(p1, "toolCallId", JStr(id)) else p1
    else if Get(p, "type") == Some(JStr("tool-call")) then
      var p1 := if !Truthy(Get(p, "toolCallType")) then Set(p, "toolCallType", JStr("function")) else p;
      if !Truthy(Get(p1, "toolCallId")) then Set(p1, "toolCallId", JStr(id)) else p1
    else p
  }

  /** How many reads succeed with a part before the first end or error. */
  function LeadingChunks(input: seq<Read>): (n: nat)
    ensures n <= |input|
    ensures forall k :: 0 <= k < n ==> input[k].Chunk?
    ensures n < |input| ==> !input[n].Chunk?
  {
    if input == [] || !input[0].Chunk? then 0
    else
      var n := LeadingChunks(input[1..]);
      assert forall k :: 1 <= k < 1 + n ==> input[k] == input[1..][k - 1];
      1 + n
  }

  /** The parts forwarded for the first `n` reads, each fixed with its own generated id. */
  function Forwarded(input: seq<Read>, n: nat, genId: nat -> string): (r: seq<Part>)
    requires n <= LeadingChunks(input)
    ensures |r| == n
  {
    seq(n, k requires 0 <= k < n => FixPart(input[k].part, genId(k)))
  }

  /** How the output stream ends after the reads: still open if the reads run out before an end. */
  function Ending(input: seq<Read>): Status {
    var n := LeadingChunks(input);
    if n == |input| then Open
    else match input[n]
      case Done => Closed
      case ReadError(e) => Errored(e)
      case Chunk(_) => Open
  }

  /**
   * processStream: every part read before the end is enqueued once, fixed, in
   * read order, and the output is closed at the end or errored with the read
   * error; later reads are never made.
   */
  method ProcessStream(input: seq<Read>, genId: nat -> string, controller: Controller)
    requires controller.enqueued == [] && controller.status.Open?
    modifies controller
    ensures controller.enqueued == Forwarded(input, LeadingChunks(input), genId)
    ensures controller.status == Ending(input)
  {
    var i := 0;
    while i < |input|
      invariant 0 <= i <= LeadingChunks(input)
      invariant controller.enqueued == Forwarded(input, i, genId)
      invariant controller.status.Open?
      decreases |input| - i
    {
      match input[i] {
        case Done =>
          StopsAt(input, i);
          controller.Close();
          return;
        case ReadError(e) =>
          StopsAt(input, i);
          controller.Error(e);
          return;
        case Chunk(value) =>
          ForwardedPush(input, i, genId);
          controller.Enqueue(FixPart(value, genId(i)));
          i := i + 1;
      }
    }
  }

  /** The first read that is not a part ends the leading run of parts. */
  lemma StopsAt(input: seq<Read>, i: nat)
    requires i <= LeadingChunks(input) && i < |input| && !input[i].Chunk?
    ensures LeadingChunks(input) == i
  {
  }

  lemma ForwardedPush(input: seq<Read>, i: nat, genId: nat -> string)
    requires i < LeadingChunks(input)
    ensures Forwarded(input, i + 1, genId) == Forwarded(input, i, genId) + [FixPart(input[i].part, genId(i))]
  {
    var a := Forwarded(input, i + 1, genId);
    var c := Forwarded(input, i, genId) + [FixPart(input[i].part, genId(i))];
    forall k | 0 <= k < i + 1
      ensures a[k] == c[k]
    {
    }
    assert |a| == |c|;
  }

  /** `{...result, stream: transformedStream}`: only `stream` changes, keeping its position. */
  function WithStream(result: seq<Field>, stream: Json): (r: seq<Field>)
    ensures Get(r, "stream") == Some(stream)
    ensures forall k :: k != "stream" ==> Get(r, k) == Get(result, k)
    ensures Get(result, "stream").Some? ==> |r| == |result|
  {
    Set(result, "stream", stream)
  }

  /** Fixing a fixed part again, with any other id, changes nothing (generated ids are never empty). */
  lemma FixPartIdempotent(p: Part, id: string, other: string)
    requires id != ""
    ensures FixPart(FixPart(p, id), other) == FixPart(p, id)
  {
    var r := FixPart(p, id);
    assert Get(r, "type") == Get(p, "type");
    if Get(p, "type") == Some(JStr("tool-call-delta")) {
      assert Get(r, "toolCallType") != Some(JNull) && Get(r, "toolCallId") != Some(JNull);
    } else if Get(p, "type") == Some(JStr("tool-call")) {
      assert Truthy(Get(r, "toolCallType")) && Truthy(Get(r, "toolCallId"));
    }
  }
}
