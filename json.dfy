/**
 * `JSON.stringify` for the values the query builder serialises: the objects
 * and arrays `setValues` binds and `where` inlines.
 */
module Json {
  import opened Wrappers
  import opened JsStrings
  import opened JsValues

  function HexDigit(d: nat): char
    requires d < 16
  {
    "0123456789abcdef"[d]
  }

  /** The JSON form of one character inside a string literal (QuoteJSONString). */
  function EscapeChar(c: char): (r: string)
    ensures |r| >= 1
    ensures forall i :: 0 <= i < |r| ==> r[i] as int >= 0x20
  {
    var n := c as int;
    if c == '"' then "\\\""
    else if c == '\\' then "\\\\"
    else if n == 0x08 then "\\b"
    else if n == 0x09 then "\\t"
    else if n == 0x0A then "\\n"
    else if n == 0x0C then "\\f"
    else if n == 0x0D then "\\r"
    else if n < 0x20 then "\\u00" + [HexDigit(n / 16), HexDigit(n % 16)]
    else [c]
  }

  /** The escaped body of a JSON string literal: it never holds a raw control character. */
  function Escape(s: string): (r: string)
    ensures forall i :: 0 <= i < |r| ==> r[i] as int >= 0x20
    ensures |r| >= |s|
  {
    if |s| == 0 then ""
    else Escape(s[..|s| - 1]) + EscapeChar(s[|s| - 1])
  }

  /** A JSON string literal. */
  function Quote(s: string): string
  {
    "\"" + Escape(s) + "\""
  }

  /** The text of an object member, absent when its value serialises to nothing. */
  function Member(key: string, value: Option<string>): Option<string>
  {
    if value.None? then None else Some(Quote(key) + ":" + value.value)
  }

  /** The present entries of a sequence of optional texts, in order. */
  function Present(xs: seq<Option<string>>): (r: seq<string>)
    ensures |r| <= |xs|
  {
    if |xs| == 0 then []
    else Present(xs[..|xs| - 1]) + (if xs[|xs| - 1].Some? then [xs[|xs| - 1].value] else [])
  }

  /**
   * `JSON.stringify(v)`; `None` is the `undefined` it returns for `undefined`.
   * Inside an array `undefined` becomes `null`; inside an object a member
   * whose value is `undefined` is left out.
   */
  function Stringify(v: JsValue): (r: Option<string>)
    ensures r.None? <==> v.Undefined?
  {
    match v
    case Undefined => None
    case Null => Some("null")
    case Bool(b) => Some(if b then "true" else "false")
    case Num(n) => Some(IntToString(n))
    case Str(s) => Some(Quote(s))
    case Arr(xs) =>
      Some("[" + Join(seq(|xs|, i requires 0 <= i < |xs| => Stringify(xs[i]).GetOr("null")), ",") + "]")
    case Obj(ps) =>
      Some("{" + Join(Present(seq(|ps|, i requires 0 <= i < |ps| => Member(ps[i].0, Stringify(ps[i].1)))), ",") + "}")
  }
}
