/**
 * The JavaScript values that the source passes around as parsed JSON,
 * request bodies and messages, with the parts of JavaScript's semantics the
 * source relies on: truthiness, property access, `in`, `Array.isArray`,
 * `String(v)` and `JSON.stringify`.
 *
 * Numbers are integers: the fractional numbers of JavaScript are not part of
 * this model. An object is its list of own properties in enumeration order;
 * keys are taken to be distinct.
 */
module JsValues {
  import opened Text

  datatype Json =
    | Undefined
    | Null
    | Bool(b: bool)
    | Num(n: int)
    | Str(s: string)
    | Arr(items: seq<Json>)
    | Obj(fields: seq<(string, Json)>)

  /** JavaScript truthiness: `undefined`, `null`, `false`, `0` and `""` are falsy. */
  predicate Truthy(v: Json)
  {
    match v
    case Undefined => false
    case Null => false
    case Bool(b) => b
    case Num(n) => n != 0
    case Str(s) => s != ""
    case Arr(_) => true
    case Obj(_) => true
  }

  /** `a || b`. */
  function Or(a: Json, b: Json): (r: Json)
    ensures Truthy(r) <==> Truthy(a) || Truthy(b)
  {
    if Truthy(a) then a else b
  }

  function Lookup(fields: seq<(string, Json)>, key: string): Json
  {
    if |fields| == 0 then Undefined
    else if fields[0].0 == key then fields[0].1
    else Lookup(fields[1..], key)
  }

  function HasKey(fields: seq<(string, Json)>, key: string): bool
  {
    exists i :: 0 <= i < |fields| && fields[i].0 == key
  }

  /** `v.key` (and `v?.key`) for a value that is not `null` or `undefined`; primitives and arrays carry none of the keys the source reads. */
  function Get(v: Json, key: string): Json
  {
    if v.Obj? then Lookup(v.fields, key) else Undefined
  }

  /** `key in v` for an object. */
  predicate Has(v: Json, key: string)
  {
    v.Obj? && HasKey(v.fields, key)
  }

  predicate IsNullish(v: Json)
  {
    v.Undefined? || v.Null?
  }

  /** `typeof v === "object"`; true of `null` as in JavaScript. */
  predicate IsObjectType(v: Json)
  {
    v.Null? || v.Arr? || v.Obj?
  }

  /** `String(v)`. */
  function ToString(v: Json): string
  {
    match v
    case Undefined => "undefined"
    case Null => "null"
    case Bool(b) => if b then "true" else "false"
    case Num(n) => IntToDecimal(n)
    case Str(s) => s
    case Arr(items) =>
      Join(seq(|items|, i requires 0 <= i < |items| =>
        if IsNullish(items[i]) then "" else ToString(items[i])), ",")
    case Obj(_) => "[object Object]"
  }

  function HexDigit(d: nat): char
    requires d < 16
  {
    if d < 10 then DigitChar(d) else ('a' as int + d - 10) as char
  }

  /** One character inside a JSON string literal, escaped as `JSON.stringify` does. */
  function EscapeChar(c: char): string
  {
    if c == '"' then "\\\""
    else if c == '\\' then "\\\\"
    else if c == '\U{0008}' then "\\b"
    else if c == '\U{000C}' then "\\f"
    else if c == '\n' then "\\n"
    else if c == '\r' then "\\r"
    else if c == '\t' then "\\t"
    else if (c as int) < 0x20 then "\\u00" + [HexDigit(c as int / 16), HexDigit(c as int % 16)]
    else [c]
  }

  function Escape(s: string): string
  {
    if |s| == 0 then "" else EscapeChar(s[0]) + Escape(s[1..])
  }

  function Quote(s: string): string
  {
    "\"" + Escape(s) + "\""
  }

  function DefinedFields(fields: seq<(string, Json)>): (r: seq<(string, Json)>)
    ensures forall i :: 0 <= i < |r| ==> !r[i].1.Undefined? && r[i] in fields
  {
    if |fields| == 0 then []
    else if fields[0].1.Undefined? then DefinedFields(fields[1..])
    else [fields[0]] + DefinedFields(fields[1..])
  }

  /**
   * `JSON.stringify(v)` for a value other than `undefined`: `undefined`
   * array elements print as `null` and `undefined` properties are left out.
   */
  function Stringify(v: Json): string
    requires !v.Undefined?
  {
    match v
    case Null => "null"
    case Bool(b) => if b then "true" else "false"
    case Num(n) => IntToDecimal(n)
    case Str(s) => Quote(s)
    case Arr(items) =>
      "[" + Join(seq(|items|, i requires 0 <= i < |items| =>
        if items[i].Undefined? then "null" else Stringify(items[i])), ",") + "]"
    case Obj(fields) =>
      var kept := DefinedFields(fields);
      "{" + Join(seq(|kept|, i requires 0 <= i < |kept| =>
        Quote(kept[i].0) + ":" + Stringify(kept[i].1)), ",") + "}"
  }
}
