/**
  JavaScript-level vocabulary shared by the whole model: absent values,
  thrown errors, truthiness of `||` defaults, `Array.prototype.map`,
  template-string rendering of page numbers, and HTTP responses as data.
 */
module Js {

  /** `undefined`/`null` (None) or a present value (Some). */
  datatype Option<+T> = None | Some(value: T)

  /** A value or a thrown `Error` whose `message` is carried. */
  datatype Result<+T> = Ok(value: T) | Err(message: string)

  /** What a `catch` clause receives: an `Error` object or any other thrown value. */
  datatype Thrown = ErrorObject(message: string) | OtherValue

  /** `err instanceof Error ? err.message : fallback` */
  function MessageOr(t: Thrown, fallback: string): (text: string)
    ensures t.ErrorObject? ==> text == t.message
    ensures t.OtherValue? ==> text == fallback
  {
    match t
    case ErrorObject(message) => message
    case OtherValue => fallback
  }

  /** A loosely typed JSON scalar, used where the code stores a string into a numeric field. */
  datatype Value = Undefined | Num(n: int) | Str(s: string)

  /** An HTTP response as seen by the code: `response.ok`, `response.statusText` and the JSON body. */
  datatype Http<T> = Http(ok: bool, statusText: string, body: T)

  /** A JSON body where a list is expected: an array, or any other JSON value. */
  datatype ListBody<T> = ArrayBody(items: seq<T>) | NotAnArray

  predicate TruthyString(o: Option<string>) {
    o.Some? && o.value != ""
  }

  predicate TruthyInt(o: Option<int>) {
    o.Some? && o.value != 0
  }

  predicate TruthyReal(o: Option<real>) {
    o.Some? && o.value != 0.0
  }

  predicate Truthy(v: Value) {
    match v
    case Undefined => false
    case Num(n) => n != 0
    case Str(s) => s != ""
  }

  /** `a || b` on two possibly absent strings. */
  function OrString(a: Option<string>, b: Option<string>): (r: Option<string>)
    ensures TruthyString(r) <==> TruthyString(a) || TruthyString(b)
    ensures TruthyString(a) ==> r == a
    ensures !TruthyString(a) ==> r == b
  {
    if TruthyString(a) then a else b
  }

  /** `a || d` where `d` is a string literal default. */
  function StringOr(a: Option<string>, d: string): (r: string)
    ensures TruthyString(a) ==> r == a.value
    ensures !TruthyString(a) ==> r == d
  {
    if TruthyString(a) then a.value else d
  }

  /** `Array.prototype.map`: one image per element, same length, same order. */
  function MapSeq<A, B>(s: seq<A>, f: A -> B): (r: seq<B>)
    ensures |r| == |s|
    ensures forall i :: 0 <= i < |s| ==> r[i] == f(s[i])
  {
    if s == [] then [] else [f(s[0])] + MapSeq(s[1..], f)
  }

  predicate IsDigit(c: char) {
    '0' <= c <= '9'
  }

  function DigitChar(d: nat): (c: char)
    requires d < 10
    ensures IsDigit(c) && c as int - '0' as int == d
  {
    (d + '0' as int) as char
  }

  /** `${n}` for a non-negative integer: its decimal digits without leading zeros. */
  function NatToString(n: nat): (s: string)
    ensures |s| > 0
    ensures forall i :: 0 <= i < |s| ==> IsDigit(s[i])
    ensures |s| > 1 ==> s[0] != '0'
    decreases n
  {
    if n < 10 then [DigitChar(n)] else NatToString(n / 10) + [DigitChar(n % 10)]
  }

  /** Reads a string of decimal digits back as a number. */
  function ParseDecimal(s: string): (n: nat)
    requires forall i :: 0 <= i < |s| ==> IsDigit(s[i])
  {
    if s == [] then 0
    else
      assert IsDigit(s[|s| - 1]);
      10 * ParseDecimal(s[..|s| - 1]) + (s[|s| - 1] as int - '0' as int)
  }

  /** The rendered page number reads back as the same number. */
  lemma {:induction false} ParseNatToString(n: nat)
    ensures ParseDecimal(NatToString(n)) == n
    decreases n
  {
    var s := NatToString(n);
    if n >= 10 {
      assert s[..|s| - 1] == NatToString(n / 10);
      ParseNatToString(n / 10);
    }
  }

  lemma NatToStringInjective(a: nat, b: nat)
    requires NatToString(a) == NatToString(b)
    ensures a == b
  {
    ParseNatToString(a);
    ParseNatToString(b);
  }

  predicate StartsWith(s: string, prefix: string) {
    |prefix| <= |s| && s[..|prefix|] == prefix
  }
}
