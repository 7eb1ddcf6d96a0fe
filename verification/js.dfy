/**
  The slice of JavaScript's value semantics the proxy relies on: the values a caller
  can pass, `String(v)` conversion, truthiness, and property keys.
  Numbers are modelled as integers only.
*/
module Js {
  import opened Results

  /** A JavaScript value. Functions are identified by an id and carry their source text. */
  datatype Value =
    | Undefined
    | Null
    | Bool(b: bool)
    | Num(n: int)
    | Str(s: string)
    | Fn(id: nat, source: string)
    | Obj(props: map<string, Value>)

  /** A property key: a string name or a symbol (identified by an id). */
  datatype Key = Name(s: string) | Symbol(id: nat)

  /** JavaScript's ToBoolean. */
  predicate Truthy(v: Value)
  {
    match v
    case Undefined => false
    case Null => false
    case Bool(b) => b
    case Num(n) => n != 0
    case Str(s) => s != ""
    case Fn(_, _) => true
    case Obj(_) => true
  }

  /** The value of own property `k` of a plain object map, `undefined` when absent. */
  function Lookup(m: map<string, Value>, k: string): Value
  {
    if k in m then m[k] else Undefined
  }

  predicate IsDigit(c: char)
  {
    '0' <= c <= '9'
  }

  function DigitChar(d: nat): (c: char)
    requires d < 10
    ensures IsDigit(c)
  {
    "0123456789"[d]
  }

  function DigitValue(c: char): nat
    requires IsDigit(c)
  {
    (c - '0') as nat
  }

  /** Decimal digits of a natural number, most significant first, without leading zeros. */
  function NatToDecimal(n: nat): (r: string)
    ensures |r| > 0
    ensures forall i :: 0 <= i < |r| ==> IsDigit(r[i])
    ensures |r| > 1 ==> r[0] != '0'
    decreases n
  {
    if n < 10 then [DigitChar(n)] else NatToDecimal(n / 10) + [DigitChar(n % 10)]
  }

  /** `String(n)` for an integer-valued number. */
  function Decimal(n: int): string
  {
    if n < 0 then "-" + NatToDecimal(-n) else NatToDecimal(n)
  }

  /** The number a non-empty run of decimal digits denotes. */
  function DigitsValue(s: string): nat
    requires forall i :: 0 <= i < |s| ==> IsDigit(s[i])
    decreases |s|
  {
    if |s| == 0 then 0 else DigitsValue(s[..|s| - 1]) * 10 + DigitValue(s[|s| - 1])
  }

  /** Reads back an optionally signed decimal integer; the reference inverse of `Decimal`. */
  function ParseDecimal(s: string): Option<int>
  {
    if |s| > 1 && s[0] == '-' && forall i :: 1 <= i < |s| ==> IsDigit(s[i]) then
      var magnitude: int := DigitsValue(s[1..]);
      Some(-magnitude)
    else if |s| > 0 && forall i :: 0 <= i < |s| ==> IsDigit(s[i]) then
      Some(DigitsValue(s))
    else
      None
  }

  lemma {:induction false} NatToDecimalValue(n: nat)
    ensures DigitsValue(NatToDecimal(n)) == n
    decreases n
  {
    if n >= 10 {
      var p := NatToDecimal(n / 10);
      var r := p + [DigitChar(n % 10)];
      assert r[..|r| - 1] == p;
      NatToDecimalValue(n / 10);
    }
  }

  /** Number-to-string conversion loses nothing: the integer can be read back. */
  lemma DecimalRoundTrip(n: int)
    ensures ParseDecimal(Decimal(n)) == Some(n)
  {
    var m: nat := if n < 0 then -n else n;
    var d := NatToDecimal(m);
    NatToDecimalValue(m);
    assert IsDigit(d[0]);
    if n < 0 {
      var s := "-" + d;
      assert s[1..] == d;
      forall i | 1 <= i < |s|
        ensures IsDigit(s[i])
      {
        assert s[i] == d[i - 1];
      }
      assert ParseDecimal(s) == Some(n);
    } else {
      assert ParseDecimal(d) == Some(DigitsValue(d));
    }
  }

  /** JavaScript's `String(v)`; objects use the default `Object.prototype.toString`. */
  function ToString(v: Value): string
  {
    match v
    case Undefined => "undefined"
    case Null => "null"
    case Bool(b) => if b then "true" else "false"
    case Num(n) => Decimal(n)
    case Str(s) => s
    case Fn(_, source) => source
    case Obj(_) => "[object Object]"
  }

  /** `params.map(p => String(p))`. */
  function Strings(vs: seq<Value>): (r: seq<string>)
    ensures |r| == |vs|
    ensures forall i :: 0 <= i < |vs| ==> r[i] == ToString(vs[i])
  {
    seq(|vs|, i requires 0 <= i < |vs| => ToString(vs[i]))
  }
}
