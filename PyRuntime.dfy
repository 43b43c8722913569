/** The small part of Python's runtime that the client relies on: the
    exceptions it can raise, decoded JSON values, subscripting with `x[k]`,
    `str.lower`, `str.isspace` and the decimal formatting of integers in
    f-strings. */
module PyRuntime {

  datatype Option<+T> = None | Some(value: T)

  /** The exceptions the client raises, as far as the model reaches them. */
  datatype Error =
    | EnvNotSet(env: string)   // the TypeError raised by `get_env`
    | KeyError(key: Json)      // a dict lookup of a missing key
    | IndexError               // a list or str index out of range
    | TypeError                // subscripting or iterating a value that does not support it
    | AttributeError           // a string method called on a value that is not a string
    | OSError(path: string)    // `open` or `os.listdir` on a path that is not there

  datatype Result<+T> = Ok(value: T) | Err(error: Error) {
    predicate IsFailure() { Err? }
    function PropagateFailure<U>(): Result<U> requires Err? { Err(error) }
    function Extract(): T requires Ok? { value }
  }

  /** A value as `response.json()` decodes it. */
  datatype Json =
    | JNull
    | JBool(b: bool)
    | JInt(i: int)
    | JFloat(f: real)
    | JStr(s: string)
    | JArr(items: seq<Json>)
    | JObj(fields: map<string, Json>)

  /** The position `xs[i]` denotes in a sequence of length `n`, if any:
      a negative index counts from the end. */
  function PyIndex(i: int, n: nat): (r: Option<nat>)
    ensures r.Some? <==> -(n as int) <= i < n
    ensures r.Some? ==> r.value < n && (r.value == i || r.value == i + n)
  {
    if 0 <= i < n then Some(i)
    else if -(n as int) <= i < 0 then Some(i + n)
    else None
  }

  /** A key usable as a list index: an int, or a bool, which Python treats as 0 or 1. */
  function AsIndex(k: Json): (r: Option<int>)
    ensures k.JInt? ==> r == Some(k.i)
    ensures k.JBool? ==> r == Some(if k.b then 1 else 0)
    ensures !k.JInt? && !k.JBool? ==> r == None
  {
    match k
    case JInt(i) => Some(i)
    case JBool(b) => Some(if b then 1 else 0)
    case _ => None
  }

  /** Python's `c[k]` on a decoded JSON value. */
  function Subscript(c: Json, k: Json): (r: Result<Json>)
    ensures c.JObj? && k.JStr? ==>
      (r.Ok? <==> k.s in c.fields) &&
      (r.Ok? ==> r.value == c.fields[k.s]) &&
      (r.Err? ==> r.error == KeyError(k))
    ensures c.JObj? && (k.JArr? || k.JObj?) ==> r == Err(TypeError)
    ensures c.JObj? && !k.JStr? && !k.JArr? && !k.JObj? ==> r == Err(KeyError(k))
    ensures (c.JArr? || c.JStr?) && AsIndex(k).None? ==> r == Err(TypeError)
    ensures c.JArr? && AsIndex(k).Some? ==>
      var i := AsIndex(k).value;
      (r.Ok? <==> -|c.items| <= i < |c.items|) &&
      (r.Ok? ==> r.value == c.items[if i < 0 then i + |c.items| else i]) &&
      (r.Err? ==> r.error == IndexError)
    ensures c.JStr? && AsIndex(k).Some? ==>
      var i := AsIndex(k).value;
      (r.Ok? <==> -|c.s| <= i < |c.s|) &&
      (r.Ok? ==> r.value == JStr([c.s[if i < 0 then i + |c.s| else i]])) &&
      (r.Err? ==> r.error == IndexError)
    ensures c.JNull? || c.JBool? || c.JInt? || c.JFloat? ==> r == Err(TypeError)
  {
    match c
    case JObj(m) =>
      (match k
       case JStr(s) => if s in m then Ok(m[s]) else Err(KeyError(k))
       case JArr(_) => Err(TypeError)   // unhashable key
       case JObj(_) => Err(TypeError)   // unhashable key
       case _ => Err(KeyError(k)))      // JSON object keys are always strings
    case JArr(xs) =>
      (match AsIndex(k)
       case None => Err(TypeError)
       case Some(i) =>
         match PyIndex(i, |xs|)
         case None => Err(IndexError)
         case Some(j) => Ok(xs[j]))
    case JStr(s) =>
      (match AsIndex(k)
       case None => Err(TypeError)
       case Some(i) =>
         match PyIndex(i, |s|)
         case None => Err(IndexError)
         case Some(j) => Ok(JStr([s[j]])))
    case _ => Err(TypeError)
  }

  /** Indexing from the end reaches the same element as indexing from the start. */
  lemma NegativeIndexFromEnd(xs: seq<Json>, i: int)
    requires 0 <= i < |xs|
    ensures Subscript(JArr(xs), JInt(i - |xs|)) == Subscript(JArr(xs), JInt(i)) == Ok(xs[i])
  {
  }

  /** `str.lower` restricted to what decides a comparison with an all-ASCII word:
      A-Z map to a-z, and the Kelvin sign, the one other character that Python
      lowers to a single ASCII letter, maps to 'k'. */
  function LowerChar(c: char): (r: char)
    ensures 'A' <= c <= 'Z' ==> r as int == c as int + 32
    ensures !('A' <= c <= 'Z') && c != '\U{212A}' ==> r == c
  {
    if 'A' <= c <= 'Z' then (c as int + 32) as char
    else if c == '\U{212A}' then 'k'
    else c
  }

  function Lower(s: string): (r: string)
    ensures |r| == |s|
    ensures forall i :: 0 <= i < |s| ==> r[i] == LowerChar(s[i])
  {
    seq(|s|, i requires 0 <= i < |s| => LowerChar(s[i]))
  }

  /** The characters for which Python's `str.isspace` holds. */
  predicate IsSpace(c: char)
    ensures c == ' ' || c == '\t' || c == '\n' || c == '\r' ==> IsSpace(c)
    ensures '0' <= c <= '9' || 'a' <= c <= 'z' || 'A' <= c <= 'Z' || c == '_' || c == '-' ==> !IsSpace(c)
  {
    c == ' ' || '\t' <= c <= '\r' || '\U{1C}' <= c <= '\U{1F}' ||
    c == '\U{85}' || c == '\U{A0}' || c == '\U{1680}' ||
    '\U{2000}' <= c <= '\U{200A}' || c == '\U{2028}' || c == '\U{2029}' ||
    c == '\U{202F}' || c == '\U{205F}' || c == '\U{3000}'
  }

  /** The string is empty or holds nothing but whitespace. */
  predicate Blank(s: string)
    ensures Blank(s) <==> |s| == 0 || (|s| > 0 && forall i :: 0 <= i < |s| ==> IsSpace(s[i]))
  {
    forall i :: 0 <= i < |s| ==> IsSpace(s[i])
  }

  function Digit(d: nat): (c: char)
    requires d < 10
    ensures '0' <= c <= '9' && c as int - '0' as int == d
  {
    (d + '0' as int) as char
  }

  /** The decimal digits of a natural number, as `f"{n}"` writes them. */
  function NatDecimal(n: nat): (r: string)
    ensures |r| > 0
    ensures forall i :: 0 <= i < |r| ==> '0' <= r[i] <= '9'
    ensures r[0] == '0' ==> n == 0
  {
    if n < 10 then [Digit(n)] else NatDecimal(n / 10) + [Digit(n % 10)]
  }

  /** `f"{n}"` for an int. */
  function Decimal(n: int): (r: string)
    ensures |r| > 0
    ensures n < 0 <==> r[0] == '-'
  {
    if n < 0 then "-" + NatDecimal(-n) else NatDecimal(n)
  }

  /** The value of a string of decimal digits (what `int(s)` gives for one). */
  function DigitsValue(s: string): int
    requires forall i :: 0 <= i < |s| ==> '0' <= s[i] <= '9'
  {
    if s == [] then 0 else 10 * DigitsValue(s[..|s| - 1]) + (s[|s| - 1] as int - '0' as int)
  }

  /** `int(s)` for a string `Decimal` produced. */
  function ParseDecimal(s: string): int
    requires |s| > 0
    requires forall i :: 0 < i < |s| ==> '0' <= s[i] <= '9'
    requires s[0] == '-' || '0' <= s[0] <= '9'
  {
    if s[0] == '-' then -DigitsValue(s[1..]) else DigitsValue(s)
  }

  lemma {:induction false} NatDecimalRoundTrip(n: nat)
    ensures DigitsValue(NatDecimal(n)) == n
  {
    if n >= 10 {
      NatDecimalRoundTrip(n / 10);
      var r := NatDecimal(n);
      assert r[..|r| - 1] == NatDecimal(n / 10);
    }
  }

  /** The number written into a URL by `f"{n}"` reads back as `n`. */
  lemma DecimalRoundTrip(n: int)
    ensures ParseDecimal(Decimal(n)) == n
  {
    NatDecimalRoundTrip(if n < 0 then -n else n);
    if n < 0 {
      assert Decimal(n)[1..] == NatDecimal(-n);
    }
  }
}
