/**
 * An abstract JSON value standing for the parsed objects the code inspects and
 * mutates, with JavaScript's property lookup, property assignment, truthiness,
 * `String(x)` and compact `JSON.stringify`. Numbers are integers here.
 */
module Json {
  import opened Wrappers
  import opened Text

  datatype Json =
    | JNull
    | JBool(b: bool)
    | JNum(n: int)
    | JStr(s: string)
    | JArr(items: seq<Json>)
    | JObj(fields: seq<Field>)

  /** One own property of an object, in insertion order. */
  datatype Field = Field(key: string, value: Json)

  /** `o[key]` on an object's fields: the first field with that key, `None` for undefined. */
  function Get(fields: seq<Field>, key: string): Option<Json> {
    if fields == [] then None
    else if fields[0].key == key then Some(fields[0].value)
    else Get(fields[1..], key)
  }

  /** A property is defined exactly when some field has its key, and it is that field's value. */
  lemma {:induction false} GetFound(fields: seq<Field>, key: string)
    ensures Get(fields, key).Some? <==> exists i :: 0 <= i < |fields| && fields[i].key == key
    ensures Get(fields, key).Some? ==> exists i :: 0 <= i < |fields| && fields[i] == Field(key, Get(fields, key).value)
  {
    if fields != [] && fields[0].key != key {
      GetFound(fields[1..], key);
      assert forall i :: 0 <= i < |fields[1..]| ==> fields[1..][i] == fields[i + 1];
    }
  }

  /** `v[key]` for any value: only objects have the properties modelled here. */
  function Member(v: Json, key: string): Option<Json> {
    if v.JObj? then Get(v.fields, key) else None
  }

  /**
   * `o[key] = v`: an existing property keeps its position and takes the new
   * value; a new property is appended, as in JavaScript's insertion order.
   */
  function Set(fields: seq<Field>, key: string, v: Json): (r: seq<Field>)
    ensures Get(r, key) == Some(v)
    ensures forall k :: k != key ==> Get(r, k) == Get(fields, k)
    ensures Get(fields, key).Some? ==> |r| == |fields|
    ensures Get(fields, key).None? ==> r == fields + [Field(key, v)]
  {
    if fields == [] then [Field(key, v)]
    else if fields[0].key == key then [Field(key, v)] + fields[1..]
    else [fields[0]] + Set(fields[1..], key, v)
  }

  /** Assigning a property the value it already has changes nothing. */
  lemma {:induction false} SetSame(fields: seq<Field>, key: string, v: Json)
    requires Get(fields, key) == Some(v)
    ensures Set(fields, key, v) == fields
  {
    if fields[0].key != key {
      SetSame(fields[1..], key, v);
    }
  }

  /** JavaScript truthiness of a property value; `None` is `undefined`. */
  predicate Truthy(v: Option<Json>) {
    match v
    case None => false
    case Some(JNull) => false
    case Some(JBool(b)) => b
    case Some(JNum(n)) => n != 0
    case Some(JStr(s)) => s != ""
    case Some(_) => true
  }

  /** `x === null || x === undefined` */
  predicate Nullish(v: Option<Json>) {
    v == None || v == Some(JNull)
  }

  /** `String(x)`: arrays join their elements with ',' (null elements give ''). */
  function ToJsString(v: Json): string
    decreases v, 1
  {
    match v
    case JNull => "null"
    case JBool(b) => if b then "true" else "false"
    case JNum(n) => IntToString(n)
    case JStr(s) => s
    case JArr(items) => ElementsToString(items)
    case JObj(_) => "[object Object]"
  }

  function ElementsToString(items: seq<Json>): string
    decreases items, 0
  {
    if items == [] then ""
    else
      var first := if items[0] == JNull then "" else ToJsString(items[0]);
      if |items| == 1 then first else first + "," + ElementsToString(items[1..])
  }

  function HexDigit(d: nat): char
    requires d < 16
  {
    if d < 10 then DigitChar(d) else ('a' as int + d - 10) as char
  }

  /** The escaped form of one character inside a JSON string literal. */
  function EscapeChar(ch: char): (r: string)
    ensures '\n' !in r
  {
    if ch == '"' then "\\\""
    else if ch == '\\' then "\\\\"
    else if ch == '\n' then "\\n"
    else if ch == '\r' then "\\r"
    else if ch == '\t' then "\\t"
    else if ch == '\U{0008}' then "\\b"
    else if ch == '\U{000C}' then "\\f"
    else if (ch as int) < 0x20 then "\\u00" + [HexDigit((ch as int) / 16), HexDigit((ch as int) % 16)]
    else [ch]
  }

  function Escape(s: string): (r: string)
    ensures '\n' !in r
  {
    if s == [] then "" else EscapeChar(s[0]) + Escape(s[1..])
  }

  function Quote(s: string): (r: string)
    ensures '\n' !in r
  {
    "\"" + Escape(s) + "\""
  }

  /** `JSON.stringify(v)` without indentation. */
  function Stringify(v: Json): string
    decreases v, 1
  {
    match v
    case JNull => "null"
    case JBool(b) => if b then "true" else "false"
    case JNum(n) => IntToString(n)
    case JStr(s) => Quote(s)
    case JArr(items) => "[" + StringifyItems(items) + "]"
    case JObj(fields) => "{" + StringifyFields(fields) + "}"
  }

  function StringifyItems(items: seq<Json>): string
    decreases items, 0
  {
    if items == [] then ""
    else if |items| == 1 then Stringify(items[0])
    else Stringify(items[0]) + "," + StringifyItems(items[1..])
  }

  function StringifyFields(fields: seq<Field>): string
    decreases fields, 0
  {
    if fields == [] then ""
    else
      var first := Quote(fields[0].key) + ":" + Stringify(fields[0].value);
      if |fields| == 1 then first else first + "," + StringifyFields(fields[1..])
  }

  /** Compact JSON text never contains a raw line feed: string contents are escaped. */
  lemma {:induction false} StringifyOneLine(v: Json)
    ensures '\n' !in Stringify(v)
    decreases v, 1
  {
    match v
    case JArr(items) => StringifyItemsOneLine(items);
    case JObj(fields) => StringifyFieldsOneLine(fields);
    case _ =>
  }

  lemma {:induction false} StringifyItemsOneLine(items: seq<Json>)
    ensures '\n' !in StringifyItems(items)
    decreases items, 0
  {
    if items != [] {
      StringifyOneLine(items[0]);
      StringifyItemsOneLine(items[1..]);
    }
  }

  lemma {:induction false} StringifyFieldsOneLine(fields: seq<Field>)
    ensures '\n' !in StringifyFields(fields)
    decreases fields, 0
  {
    if fields != [] {
      StringifyOneLine(fields[0].value);
      StringifyFieldsOneLine(fields[1..]);
    }
  }
}
