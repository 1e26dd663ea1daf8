/**
 * Python values as the adapter sees them: NetworkX node ids, attribute values of
 * documents and node/edge data, the exceptions the adapter raises or lets through,
 * and Python's `str()` on those values.
 */
module PyValues {

  /** A Python value: None, a bool, an int, a str or a tuple of values. */
  datatype PyValue =
    | PyNone
    | PyBool(b: bool)
    | PyInt(i: int)
    | PyStr(s: string)
    | PyTuple(items: seq<PyValue>)

  /** A NetworkX node id (int, bool, str or tuple; None is what a prepare hook that
      returns nothing yields). */
  type NxId = PyValue

  /** A document or a node/edge attribute dictionary. */
  type Json = map<string, PyValue>

  /** The exceptions raised by the modelled code. */
  datatype Error =
    | ValueError(context: string, missing: set<string>)  // "Missing {type} attributes: {missing}"
    | KeyError(key: PyValue)                             // a dict subscript or a set pop that failed
    | IndexError                                         // `split("/")[1]` on a string without "/"
    | AttributeError                                     // `.split` on a value that is not a str
    | TypeError                                          // a call with the wrong arity, or `None[...]`
    | NotImplementedError                                // a controller hook that must be overridden
    | UnboundLocalError                                  // `return g` where g was never assigned

  datatype Option<+T> = None | Some(value: T)

  /** A result or the exception that aborted the computation. */
  datatype Result<+T> = Ok(value: T) | Err(error: Error) {
    predicate IsFailure() { Err? }
    function PropagateFailure<U>(): Result<U> requires Err? { Err(error) }
    function Extract(): T requires Ok? { value }
  }

  /** Completion of an operation whose return value is not modelled. */
  datatype Outcome = Pass | Fail(error: Error)

  /** No element occurs twice. */
  predicate Distinct<T(==)>(s: seq<T>) {
    forall i, j :: 0 <= i < j < |s| ==> s[i] != s[j]
  }

  /** Python truthiness of an optional string (`x or y` takes y when x is None or ""). */
  predicate Truthy(x: Option<string>) {
    x.Some? && x.value != ""
  }

  /** Dictionary lookup `d[k]` of a string key. */
  function Get(d: Json, k: string): (r: Result<PyValue>)
    ensures r.Ok? <==> k in d
    ensures r.Ok? ==> r.value == d[k]
    ensures r.Err? ==> r.error == KeyError(PyStr(k))
  {
    if k in d then Ok(d[k]) else Err(KeyError(PyStr(k)))
  }

  // ---------------------------------------------------------------------------
  // Decimal notation, as produced by `str(n)` for an int n.

  predicate IsDigit(c: char) { '0' <= c <= '9' }

  function DigitChar(d: nat): (c: char)
    requires d < 10
    ensures IsDigit(c)
  {
    (48 + d) as char
  }

  function DigitValue(c: char): (d: nat)
    requires IsDigit(c)
    ensures d < 10
  {
    (c as int) - 48
  }

  /** `str(n)` for a natural number n. */
  function NatToDecimal(n: nat): (s: string)
    ensures |s| >= 1
    ensures forall k :: 0 <= k < |s| ==> IsDigit(s[k])
    decreases n
  {
    if n < 10 then [DigitChar(n)] else NatToDecimal(n / 10) + [DigitChar(n % 10)]
  }

  /** The number a string of decimal digits denotes. */
  function DecimalValue(s: string): nat
    requires forall k :: 0 <= k < |s| ==> IsDigit(s[k])
  {
    if s == [] then 0 else DecimalValue(s[..|s| - 1]) * 10 + DigitValue(s[|s| - 1])
  }

  /** Reading back the decimal notation of n gives n. */
  lemma {:induction false} DecimalRoundTrip(n: nat)
    ensures DecimalValue(NatToDecimal(n)) == n
    decreases n
  {
    var s := NatToDecimal(n);
    if n < 10 {
      assert s[..0] == [];
    } else {
      DecimalRoundTrip(n / 10);
      assert s[..|s| - 1] == NatToDecimal(n / 10);
      assert DigitValue(s[|s| - 1]) == n % 10;
    }
  }

  /** Distinct numbers have distinct decimal notations. */
  lemma NatToDecimalInjective(m: nat, n: nat)
    ensures NatToDecimal(m) == NatToDecimal(n) ==> m == n
  {
    DecimalRoundTrip(m);
    DecimalRoundTrip(n);
  }

  /** `str(i)` for an int i. */
  function IntToStr(i: int): string {
    if i < 0 then "-" + NatToDecimal(-i) else NatToDecimal(i)
  }

  // ---------------------------------------------------------------------------
  // Joining strings.

  /** `sep.join(parts)`. */
  function Join(sep: string, parts: seq<string>): string
    decreases |parts|
  {
    if |parts| == 0 then ""
    else if |parts| == 1 then parts[0]
    else parts[0] + sep + Join(sep, parts[1..])
  }

  /** `"".join(parts)`. */
  function Concat(parts: seq<string>): (r: string)
    ensures |parts| > 0 ==> r == parts[0] + Concat(parts[1..])
    decreases |parts|
  {
    if |parts| == 0 then "" else parts[0] + Concat(parts[1..])
  }

  // ---------------------------------------------------------------------------
  // Python's str() and repr().

  /** `repr(v)`: like `str(v)` except that strings are quoted (always with single
      quotes and without escaping). */
  function Repr(v: PyValue): string
    decreases v, 1
  {
    if v.PyStr? then "'" + v.s + "'" else Str(v)
  }

  /** `str(v)`. */
  function Str(v: PyValue): string
    decreases v, 0
  {
    match v
    case PyNone => "None"
    case PyBool(b) => if b then "True" else "False"
    case PyInt(i) => IntToStr(i)
    case PyStr(s) => s
    case PyTuple(items) =>
      "(" + Join(", ", seq(|items|, k requires 0 <= k < |items| => Repr(items[k])))
      + (if |items| == 1 then "," else "") + ")"
  }
}
