/**
 * The DeepSeek compatibility pass over server-sent-event text
 * (lib/ai/stream-transform.ts): every `data: ` line of a chunk whose JSON
 * parses is re-serialised after its tool calls are repaired in place; every
 * other line, and every line whose parse or repair throws, passes unchanged.
 * Property assignment on a primitive throws, as in strict-mode modules.
 */
module StreamTransform {
  import opened Wrappers
  import opened Text
  import opened Json

  const DataPrefix: string := "data: "
  const DoneLine: string := "data: [DONE]"

  /** `call_${Date.now()}_${index}`, with the clock reading as a parameter. */
  function ToolCallId(now: int, index: nat): string {
    "call_" + IntToString(now) + "_" + NatToString(index)
  }

  const EmptyFunction: Json := JObj([Field("name", JStr("")), Field("arguments", JStr(""))])

  /** `if (o.type == null) o.type = 'function'`, and so on: one field filled when nullish. */
  function FillNullish(fs: seq<Field>, key: string, v: Json): (r: seq<Field>)
    ensures Get(r, key) == if Nullish(Get(fs, key)) then Some(v) else Get(fs, key)
    ensures forall k :: k != key ==> Get(r, k) == Get(fs, k)
  {
    if Nullish(Get(fs, key)) then Set(fs, key, v) else fs
  }

  /** `if (!o.key) o.key = v` */
  function FillFalsy(fs: seq<Field>, key: string, v: Json): (r: seq<Field>)
    ensures Get(r, key) == if Truthy(Get(fs, key)) then Get(fs, key) else Some(v)
    ensures forall k :: k != key ==> Get(r, k) == Get(fs, k)
  {
    if Truthy(Get(fs, key)) then fs else Set(fs, key, v)
  }

  /** The `name` and `arguments` repairs of a streamed tool call's function object. */
  function RepairFunction(f: seq<Field>): (r: seq<Field>)
    ensures var n := Get(r, "name"); n == Some(JStr("")) || Truthy(n)
    ensures !Nullish(Get(r, "arguments"))
    ensures Truthy(Get(f, "name")) ==> Get(r, "name") == Get(f, "name")
    ensures !Nullish(Get(f, "arguments")) ==> Get(r, "arguments") == Get(f, "arguments")
  {
    FillNullish(FillFalsy(f, "name", JStr("")), "arguments", JStr(""))
  }

  /** type, id and function of a tool call object, the repairs both forEach bodies make. */
  function RepairHead(fs: seq<Field>, index: nat, now: int): (r: seq<Field>)
    ensures Get(r, "type") == if Nullish(Get(fs, "type")) then Some(JStr("function")) else Get(fs, "type")
    ensures Get(r, "id") == if Nullish(Get(fs, "id")) then Some(JStr(ToolCallId(now, index))) else Get(fs, "id")
    ensures Get(r, "function") == if Truthy(Get(fs, "function")) then Get(fs, "function") else Some(EmptyFunction)
  {
    FillFalsy(FillNullish(FillNullish(fs, "type", JStr("function")), "id", JStr(ToolCallId(now, index))), "function", EmptyFunction)
  }

  /**
   * The body of one forEach over tool calls: `full` for `delta.tool_calls`
   * (also name and arguments), not for `message.tool_calls`. `None` when it
   * throws: a null tool call, a primitive one, or (in full mode) a primitive
   * `function`. An array takes the assignments as invisible named properties.
   */
  function RepairToolCall(tc: Json, index: nat, now: int, full: bool): (r: Option<Json>)
  {
    match tc
    case JObj(fs) => FinishToolCall(RepairHead(fs, index, now), full)
    case JArr(_) => Some(tc)
    case _ => None
  }

  /** What the body does after the head repairs: in full mode, the repairs of an object `function`. */
  function FinishToolCall(h: seq<Field>, full: bool): Option<Json> {
    if !full then Some(JObj(h))
    else
      match Get(h, "function")
      case Some(JObj(g)) => Some(JObj(Set(h, "function", JObj(RepairFunction(g)))))
      case Some(JArr(_)) => Some(JObj(h))
      case _ => None
  }

  /**
   * forEach over an array of tool calls; `None` if the body throws on any of
   * them (the exception then abandons the whole line).
   */
  function RepairToolCalls(tcs: seq<Json>, now: int, full: bool): (r: Option<seq<Json>>)
    ensures r.Some? <==> forall i :: 0 <= i < |tcs| ==> RepairToolCall(tcs[i], i, now, full).Some?
    ensures r.Some? ==> |r.value| == |tcs|
    ensures r.Some? ==> forall i :: 0 <= i < |tcs| ==> Some(r.value[i]) == RepairToolCall(tcs[i], i, now, full)
  {
    if forall i :: 0 <= i < |tcs| ==> RepairToolCall(tcs[i], i, now, full).Some? then
      Some(seq(|tcs|, i requires 0 <= i < |tcs| => RepairToolCall(tcs[i], i, now, full).value))
    else None
  }

  /** `if (o.key?.tool_calls && Array.isArray(...)) forEach(...)` on one of a choice's fields. */
  function RepairNested(fs: seq<Field>, key: string, now: int, full: bool): Option<seq<Field>> {
    var d := Get(fs, key);
    if d.Some? && d.value.JObj? && Get(d.value.fields, "tool_calls").Some? && Get(d.value.fields, "tool_calls").value.JArr? then
      (match RepairToolCalls(Get(d.value.fields, "tool_calls").value.items, now, full)
       case None => None
       case Some(tcs) => Some(Set(fs, key, JObj(Set(d.value.fields, "tool_calls", JArr(tcs))))))
    else Some(fs)
  }

  /** One choice: the delta's tool calls, then the message's. A null choice throws. */
  function RepairChoice(choice: Json, now: int): Option<Json> {
    match choice
    case JNull => None
    case JObj(fs) =>
      (match RepairNested(fs, "delta", now, true)
       case None => None
       case Some(fs1) =>
         (match RepairNested(fs1, "message", now, false)
          case None => None
          case Some(fs2) => Some(JObj(fs2))))
    case _ => Some(choice)
  }

  /** forEach over the choices; `None` if any of them throws. */
  function RepairChoices(cs: seq<Json>, now: int): (r: Option<seq<Json>>)
    ensures r.Some? <==> forall i :: 0 <= i < |cs| ==> RepairChoice(cs[i], now).Some?
    ensures r.Some? ==> |r.value| == |cs|
    ensures r.Some? ==> forall i :: 0 <= i < |cs| ==> Some(r.value[i]) == RepairChoice(cs[i], now)
  {
    if forall i :: 0 <= i < |cs| ==> RepairChoice(cs[i], now).Some? then
      Some(seq(|cs|, i requires 0 <= i < |cs| => RepairChoice(cs[i], now).value))
    else None
  }

  /** The repair of a parsed payload; `None` when it throws (a null payload, choice or tool call). */
  function Repair(data: Json, now: int): Option<Json> {
    match data
    case JNull => None
    case JObj(fs) =>
      var c := Get(fs, "choices");
      if c.Some? && c.value.JArr? then
        (match RepairChoices(c.value.items, now)
         case None => None
         case Some(cs) => Some(JObj(Set(fs, "choices", JArr(cs)))))
      else Some(data)
    case _ => Some(data)
  }

  /** The map callback over one line; `parse` is JSON.parse, `None` where it throws. */
  function FixLine(line: string, parse: string -> Option<Json>, now: int): (r: string)
    ensures !StartsWith(line, DataPrefix) || line == DoneLine ==> r == line
    ensures StartsWith(line, DataPrefix) && parse(line[|DataPrefix|..]).None? ==> r == line
    ensures r != line ==> StartsWith(r, DataPrefix) && '\n' !in r[|DataPrefix|..]
  {
    if !StartsWith(line, DataPrefix) || line == DoneLine then line
    else match parse(line[|DataPrefix|..])
      case None => line
      case Some(data) =>
        match Repair(data, now)
        case None => line
        case Some(fixed) =>
          StringifyOneLine(fixed);
          assert (DataPrefix + Stringify(fixed))[|DataPrefix|..] == Stringify(fixed);
          DataPrefix + Stringify(fixed)
  }

  function FixLines(lines: seq<string>, parse: string -> Option<Json>, now: int): (r: seq<string>)
    ensures |r| == |lines|
    ensures forall i :: 0 <= i < |lines| ==> r[i] == FixLine(lines[i], parse, now)
  {
    seq(|lines|, i requires 0 <= i < |lines| => FixLine(lines[i], parse, now))
  }

  /** The transform of one chunk: split on '\n', fix each line, join with '\n'. */
  function TransformChunk(chunk: string, parse: string -> Option<Json>, now: int): string {
    Join(FixLines(Split(chunk, '\n'), parse, now), "\n")
  }

  // ------------------------------------------------------------ lemmas

  /** The output has exactly the input's lines, in order, each fixed on its own. */
  lemma SameLines(chunk: string, parse: string -> Option<Json>, now: int)
    ensures var inLines := Split(chunk, '\n');
      var outLines := Split(TransformChunk(chunk, parse, now), '\n');
      && |outLines| == |inLines|
      && forall i :: 0 <= i < |inLines| ==> outLines[i] == FixLine(inLines[i], parse, now)
  {
    var inLines := Split(chunk, '\n');
    var out := FixLines(inLines, parse, now);
    forall i | 0 <= i < |out|
      ensures '\n' !in out[i]
    {
      if out[i] != inLines[i] {
        assert out[i] == out[i][..|DataPrefix|] + out[i][|DataPrefix|..];
        assert '\n' !in out[i][..|DataPrefix|];
      }
    }
    SplitJoin(out, '\n');
  }

  /** A chunk without any data line passes through unchanged. */
  lemma NoDataUnchanged(chunk: string, parse: string -> Option<Json>, now: int)
    requires forall l :: l in Split(chunk, '\n') ==> !StartsWith(l, DataPrefix)
    ensures TransformChunk(chunk, parse, now) == chunk
  {
    var lines := Split(chunk, '\n');
    assert FixLines(lines, parse, now) == lines;
    JoinSplit(chunk, '\n');
  }

  /**
   * A streamed (`delta`) tool call object comes out with a type, an id and a
   * function; a missing type becomes 'function' and a missing id the
   * generated one; present values stay.
   */
  lemma DeltaToolCallRepaired(fs: seq<Field>, index: nat, now: int)
    requires RepairToolCall(JObj(fs), index, now, true).Some?
    ensures var r := RepairToolCall(JObj(fs), index, now, true).value;
      && r.JObj?
      && Get(r.fields, "type") == (if Nullish(Get(fs, "type")) then Some(JStr("function")) else Get(fs, "type"))
      && Get(r.fields, "id") == (if Nullish(Get(fs, "id")) then Some(JStr(ToolCallId(now, index))) else Get(fs, "id"))
      && Truthy(Get(r.fields, "function"))
  {
    FullKeepsHead(fs, index, now);
  }

  /** The full repair agrees with the head repairs on type and id, and keeps a truthy function. */
  lemma FullKeepsHead(fs: seq<Field>, index: nat, now: int)
    requires RepairToolCall(JObj(fs), index, now, true).Some?
    ensures var r := RepairToolCall(JObj(fs), index, now, true).value;
      var h := RepairHead(fs, index, now);
      && r.JObj?
      && Get(r.fields, "type") == Get(h, "type")
      && Get(r.fields, "id") == Get(h, "id")
      && Truthy(Get(r.fields, "function"))
  {
    var h := RepairHead(fs, index, now);
    var f := Get(h, "function").value;
    if f.JObj? {
      var rs := Set(h, "function", JObj(RepairFunction(f.fields)));
      assert RepairToolCall(JObj(fs), index, now, true) == Some(JObj(rs));
      assert "type" != "function" && "id" != "function";
    } else {
      assert RepairToolCall(JObj(fs), index, now, true) == Some(JObj(h));
    }
  }

  /** A falsy function of a streamed tool call becomes `{name: '', arguments: ''}`. */
  lemma DeltaMissingFunction(fs: seq<Field>, index: nat, now: int)
    requires !Truthy(Get(fs, "function"))
    ensures RepairToolCall(JObj(fs), index, now, true).Some?
    ensures Get(RepairToolCall(JObj(fs), index, now, true).value.fields, "function") == Some(EmptyFunction)
  {
    var h := RepairHead(fs, index, now);
    assert Get(h, "function") == Some(EmptyFunction);
    EmptyFunctionRepaired();
  }

  lemma EmptyFunctionRepaired()
    ensures RepairFunction(EmptyFunction.fields) == EmptyFunction.fields
  {
    var e := EmptyFunction.fields;
    assert Get(e, "name") == Some(JStr(""));
    assert Get(e[1..], "arguments") == Some(JStr(""));
    SetSame(e, "name", JStr(""));
  }

  /** In a streamed tool call whose function is an object, name and arguments are filled in. */
  lemma DeltaFunctionRepaired(fs: seq<Field>, index: nat, now: int)
    requires Get(RepairHead(fs, index, now), "function").value.JObj?
    ensures var f := Get(RepairToolCall(JObj(fs), index, now, true).value.fields, "function");
      && f.Some? && f.value.JObj?
      && (Get(f.value.fields, "name") == Some(JStr("")) || Truthy(Get(f.value.fields, "name")))
      && !Nullish(Get(f.value.fields, "arguments"))
  {
    var h := RepairHead(fs, index, now);
    var g := RepairFunction(Get(h, "function").value.fields);
    assert RepairToolCall(JObj(fs), index, now, true) == Some(JObj(Set(h, "function", JObj(g))));
  }

  /** A finished (`message`) tool call gets type, id and function only; an existing function is untouched. */
  lemma MessageToolCallRepaired(fs: seq<Field>, index: nat, now: int)
    ensures var r := RepairToolCall(JObj(fs), index, now, false);
      && r.Some? && r.value.JObj?
      && !Nullish(Get(r.value.fields, "type")) && !Nullish(Get(r.value.fields, "id"))
      && (Truthy(Get(fs, "function")) ==> Get(r.value.fields, "function") == Get(fs, "function"))
      && (!Truthy(Get(fs, "function")) ==> Get(r.value.fields, "function") == Some(EmptyFunction))
  {
  }

  lemma FillNullishSame(fs: seq<Field>, key: string, v: Json)
    requires !Nullish(Get(fs, key))
    ensures FillNullish(fs, key, v) == fs
  {
  }

  lemma FillFalsySame(fs: seq<Field>, key: string, v: Json)
    requires Truthy(Get(fs, key))
    ensures FillFalsy(fs, key, v) == fs
  {
  }

  /** The head repairs find nothing left to do on their own output. */
  lemma HeadIdempotent(fs: seq<Field>, index: nat, now: int, later: int)
    requires !Nullish(Get(fs, "type")) && !Nullish(Get(fs, "id")) && Truthy(Get(fs, "function"))
    ensures RepairHead(fs, index, later) == fs
  {
    FillNullishSame(fs, "type", JStr("function"));
    FillNullishSame(fs, "id", JStr(ToolCallId(later, index)));
    FillFalsySame(fs, "function", EmptyFunction);
  }

  lemma FunctionIdempotent(g: seq<Field>)
    ensures RepairFunction(RepairFunction(g)) == RepairFunction(g)
  {
    var r := RepairFunction(g);
    if !Truthy(Get(r, "name")) {
      SetSame(r, "name", JStr(""));
    }
    FillNullishSame(FillFalsy(r, "name", JStr("")), "arguments", JStr(""));
  }

  /** Repairing a repaired tool call changes nothing, whatever the clock says. */
  lemma ToolCallIdempotent(tc: Json, index: nat, now: int, later: int, full: bool)
    requires RepairToolCall(tc, index, now, full).Some?
    ensures RepairToolCall(RepairToolCall(tc, index, now, full).value, index, later, full)
         == RepairToolCall(tc, index, now, full)
  {
    if tc.JObj? {
      var h := RepairHead(tc.fields, index, now);
      if full && Get(h, "function").value.JObj? {
        FunctionObjectIdempotent(tc.fields, index, now, later);
      } else {
        assert RepairToolCall(tc, index, now, full) == Some(JObj(h));
        HeadIdempotent(h, index, now, later);
        HeadOnlyIdempotent(h, index, later, full);
      }
    }
  }

  /** A tool call the head repairs leave alone and whose function is not an object is itself repaired. */
  lemma HeadOnlyIdempotent(h: seq<Field>, index: nat, later: int, full: bool)
    requires RepairHead(h, index, later) == h
    requires full ==> Get(h, "function").value.JArr?
    requires Truthy(Get(h, "function"))
    ensures RepairToolCall(JObj(h), index, later, full) == Some(JObj(h))
  {
  }

  /** The full repair of a tool call whose function is an object, applied twice. */
  lemma FunctionObjectIdempotent(fs: seq<Field>, index: nat, now: int, later: int)
    requires Get(RepairHead(fs, index, now), "function").value.JObj?
    ensures RepairToolCall(JObj(fs), index, now, true).Some?
    ensures RepairToolCall(RepairToolCall(JObj(fs), index, now, true).value, index, later, true)
         == RepairToolCall(JObj(fs), index, now, true)
  {
    var h := RepairHead(fs, index, now);
    var f := Get(h, "function").value;
    var g := RepairFunction(f.fields);
    var rs := Set(h, "function", JObj(g));
    assert RepairToolCall(JObj(fs), index, now, true) == Some(JObj(rs));
    SetFunctionKeepsHead(h, JObj(g));
    HeadIdempotent(rs, index, now, later);
    FunctionIdempotent(f.fields);
    FunctionObjectFixed(rs, g);
  }

  /** Setting `function` leaves type and id alone. */
  lemma SetFunctionKeepsHead(h: seq<Field>, v: Json)
    ensures Get(Set(h, "function", v), "type") == Get(h, "type")
    ensures Get(Set(h, "function", v), "id") == Get(h, "id")
  {
    assert "type" != "function" && "id" != "function";
  }

  /** A call whose function object is already repaired comes out of FinishToolCall as it went in. */
  lemma FunctionObjectFixed(rs: seq<Field>, g: seq<Field>)
    requires Get(rs, "function") == Some(JObj(g))
    requires RepairFunction(g) == g
    ensures FinishToolCall(rs, true) == Some(JObj(rs))
  {
    SetSame(rs, "function", JObj(g));
  }

  lemma ToolCallsIdempotent(tcs: seq<Json>, now: int, later: int, full: bool)
    requires RepairToolCalls(tcs, now, full).Some?
    ensures RepairToolCalls(RepairToolCalls(tcs, now, full).value, later, full)
         == RepairToolCalls(tcs, now, full)
  {
    var r := RepairToolCalls(tcs, now, full).value;
    forall i | 0 <= i < |tcs|
      ensures RepairToolCall(r[i], i, later, full) == Some(r[i])
    {
      ToolCallIdempotent(tcs[i], i, now, later, full);
    }
    assert RepairToolCalls(r, later, full).value == r;
  }

  lemma NestedIdempotent(fs: seq<Field>, key: string, now: int, later: int, full: bool)
    requires RepairNested(fs, key, now, full).Some?
    ensures RepairNested(RepairNested(fs, key, now, full).value, key, later, full) == RepairNested(fs, key, now, full)
  {
    var d := Get(fs, key);
    if d.Some? && d.value.JObj? && Get(d.value.fields, "tool_calls").Some? && Get(d.value.fields, "tool_calls").value.JArr? {
      var tcs := Get(d.value.fields, "tool_calls").value.items;
      ToolCallsIdempotent(tcs, now, later, full);
      var tcs' := RepairToolCalls(tcs, now, full).value;
      var inner := Set(d.value.fields, "tool_calls", JArr(tcs'));
      var fs' := Set(fs, key, JObj(inner));
      SetSame(inner, "tool_calls", JArr(tcs'));
      SetSame(fs', key, JObj(inner));
    }
  }

  lemma ChoiceIdempotent(choice: Json, now: int, later: int)
    requires RepairChoice(choice, now).Some?
    ensures RepairChoice(RepairChoice(choice, now).value, later) == RepairChoice(choice, now)
  {
    if choice.JObj? {
      var fs1 := RepairNested(choice.fields, "delta", now, true).value;
      var fs2 := RepairNested(fs1, "message", now, false).value;
      NestedIdempotent(choice.fields, "delta", now, later, true);
      NestedIdempotent(fs1, "message", now, later, false);
      NestedOther(fs1, "message", now, "delta");
      assert RepairNested(fs2, "delta", later, true) == Some(fs2) by {
        NestedIdempotentOther(fs1, fs2, now, later);
      }
    }
  }

  /** Repairing one key leaves the other keys' values alone. */
  lemma NestedOther(fs: seq<Field>, key: string, now: int, other: string)
    requires key != other
    requires RepairNested(fs, key, now, false).Some?
    ensures Get(RepairNested(fs, key, now, false).value, other) == Get(fs, other)
  {
  }

  /** The delta of a choice whose delta is already repaired is repaired to itself. */
  lemma NestedIdempotentOther(fs1: seq<Field>, fs2: seq<Field>, now: int, later: int)
    requires RepairNested(fs1, "message", now, false) == Some(fs2)
    requires Get(fs2, "delta") == Get(fs1, "delta")
    requires RepairNested(fs1, "delta", later, true) == Some(fs1)
    ensures RepairNested(fs2, "delta", later, true) == Some(fs2)
  {
    var d := Get(fs1, "delta");
    if d.Some? && d.value.JObj? && Get(d.value.fields, "tool_calls").Some? && Get(d.value.fields, "tool_calls").value.JArr? {
      var tcs := Get(d.value.fields, "tool_calls").value.items;
      var tcs' := RepairToolCalls(tcs, later, true).value;
      assert Set(fs1, "delta", JObj(Set(d.value.fields, "tool_calls", JArr(tcs')))) == fs1;
      assert Get(fs1, "delta") == Some(JObj(Set(d.value.fields, "tool_calls", JArr(tcs'))));
      SetSame(fs2, "delta", JObj(Set(d.value.fields, "tool_calls", JArr(tcs'))));
    }
  }

  lemma ChoicesIdempotent(cs: seq<Json>, now: int, later: int)
    requires RepairChoices(cs, now).Some?
    ensures RepairChoices(RepairChoices(cs, now).value, later) == RepairChoices(cs, now)
  {
    var r := RepairChoices(cs, now).value;
    forall i | 0 <= i < |cs|
      ensures RepairChoice(r[i], later) == Some(r[i])
    {
      ChoiceIdempotent(cs[i], now, later);
    }
    assert RepairChoices(r, later).value == r;
  }

  /**
   * Fields that are already present are left alone, so repairing a repaired
   * payload again, at any later time, gives the same payload.
   */
  lemma RepairIdempotent(data: Json, now: int, later: int)
    requires Repair(data, now).Some?
    ensures Repair(Repair(data, now).value, later) == Repair(data, now)
  {
    if data.JObj? {
      var c := Get(data.fields, "choices");
      if c.Some? && c.value.JArr? {
        ChoicesIdempotent(c.value.items, now, later);
        var cs := RepairChoices(c.value.items, now).value;
        SetSame(Set(data.fields, "choices", JArr(cs)), "choices", JArr(cs));
      }
    }
  }

  /** A payload without a `choices` array is re-serialised as it was parsed. */
  lemma NoChoicesUnchanged(data: Json, now: int)
    requires data != JNull
    requires data.JObj? ==> !(Get(data.fields, "choices").Some? && Get(data.fields, "choices").value.JArr?)
    ensures Repair(data, now) == Some(data)
  {
  }
}
