/**
 * The JavaScript values the query builder receives from its callers, and the
 * two ways it turns them into text: `String(v)` (template literals, `+=`,
 * array-to-string coercion) and the integer case of `Number.prototype.toString`.
 */
module JsValues {
  import opened JsStrings

  /**
   * A JavaScript value. Numbers are integers; `Obj` is a plain object whose
   * own enumerable properties are listed in their enumeration order.
   */
  datatype JsValue =
    | Null
    | Undefined
    | Bool(b: bool)
    | Num(n: int)
    | Str(s: string)
    | Arr(elems: seq<JsValue>)
    | Obj(props: seq<(string, JsValue)>)

  predicate IsDigit(c: char)
  {
    '0' <= c <= '9'
  }

  predicate AllDigits(s: string)
  {
    forall i :: 0 <= i < |s| ==> IsDigit(s[i])
  }

  /** The text of an integer: decimal digits, with a leading `-` for a negative one. */
  predicate IsIntText(s: string)
  {
    (|s| >= 1 && AllDigits(s)) || (|s| >= 2 && s[0] == '-' && AllDigits(s[1..]))
  }

  function DigitChar(d: nat): (c: char)
    requires d < 10
    ensures IsDigit(c)
  {
    ('0' as int + d) as char
  }

  function DigitValue(c: char): nat
    requires IsDigit(c)
  {
    c as int - '0' as int
  }

  /** The decimal digits of a natural number, most significant first, without leading zeros. */
  function NatToString(n: nat): (r: string)
    ensures |r| >= 1 && AllDigits(r)
    ensures |r| > 1 ==> r[0] != '0'
  {
    if n < 10 then [DigitChar(n)]
    else NatToString(n / 10) + [DigitChar(n % 10)]
  }

  /** The value of a string of decimal digits. */
  function ParseNat(s: string): nat
    requires AllDigits(s)
  {
    if |s| == 0 then 0
    else ParseNat(s[..|s| - 1]) * 10 + DigitValue(s[|s| - 1])
  }

  /** `${n}` for an integer `n` (exact for safe integers, |n| <= 2^53). */
  function IntToString(n: int): (r: string)
    ensures IsIntText(r)
  {
    if n < 0 then "-" + NatToString(-n) else NatToString(n)
  }

  /** The integer an integer text denotes: the inverse of IntToString. */
  function ParseInt(s: string): int
    requires IsIntText(s)
  {
    if s[0] == '-' then -(ParseNat(s[1..]) as int) else ParseNat(s)
  }

  lemma {:induction false} ParseNatToString(n: nat)
    ensures ParseNat(NatToString(n)) == n
  {
    if n >= 10 {
      ParseNatToString(n / 10);
      var s := NatToString(n);
      assert s[..|s| - 1] == NatToString(n / 10);
    }
  }

  /** Reading back the text of an integer gives the integer. */
  lemma IntToStringRoundTrip(n: int)
    ensures ParseInt(IntToString(n)) == n
  {
    if n < 0 {
      ParseNatToString(-n);
      assert IntToString(n)[1..] == NatToString(-n);
    } else {
      ParseNatToString(n);
    }
  }

  /**
   * `String(v)`, the conversion template literals and string concatenation
   * apply. An array converts as `join(',')`, with `null` and `undefined`
   * elements contributing the empty string.
   */
  function ToJsString(v: JsValue): string
  {
    match v
    case Null => "null"
    case Undefined => "undefined"
    case Bool(b) => if b then "true" else "false"
    case Num(n) => IntToString(n)
    case Str(s) => s
    case Arr(xs) =>
      Join(seq(|xs|, i requires 0 <= i < |xs| =>
             if xs[i].Null? || xs[i].Undefined? then "" else ToJsString(xs[i])), ",")
    case Obj(_) => "[object Object]"
  }

  /** An array of strings converts to their comma-joined text. */
  lemma {:induction false} StringArrayText(xs: seq<string>)
    ensures ToJsString(Arr(seq(|xs|, i requires 0 <= i < |xs| => Str(xs[i])))) == Join(xs, ",")
  {
    var vs := seq(|xs|, i requires 0 <= i < |xs| => Str(xs[i]));
    var texts := seq(|vs|, i requires 0 <= i < |vs| =>
                   if vs[i].Null? || vs[i].Undefined? then "" else ToJsString(vs[i]));
    assert texts == xs;
  }
}
