/**
 * JSON values as the Python code sees them once a body has been parsed,
 * together with the few pieces of Python semantics the code relies on:
 * `dict.get` with a default, truthiness (`if x:`), dictionary keys
 * (hashability, and `True == 1`), and `str()` of scalar values.
 */
module PyJson {
  import opened Wrappers

  /** A parsed JSON value. Floating-point numbers are not modelled. */
  datatype Json =
    | JNull
    | JBool(b: bool)
    | JInt(i: int)
    | JString(s: string)
    | JArray(items: seq<Json>)
    | JObject(fields: map<string, Json>)

  /** `d.get(key, default)` on a dictionary. */
  function Get(d: map<string, Json>, key: string, default: Json): Json
  {
    if key in d then d[key] else default
  }

  /** Python truthiness of a JSON value. */
  predicate Truthy(j: Json)
  {
    match j
    case JNull => false
    case JBool(b) => b
    case JInt(i) => i != 0
    case JString(s) => s != ""
    case JArray(xs) => xs != []
    case JObject(m) => m != map[]
  }

  /**
   * A value usable as a dictionary key. Python hashes `True` and `1` (and
   * `False` and `0`) to the same key, so booleans become integers.
   */
  datatype Key = KNone | KInt(n: int) | KStr(s: string)

  /** The dictionary key of a value; None when the value is unhashable (a list or a dict). */
  function KeyOf(j: Json): (k: Option<Key>)
    ensures k.Some? <==> !j.JArray? && !j.JObject?
  {
    match j
    case JNull => Some(KNone)
    case JBool(b) => Some(KInt(if b then 1 else 0))
    case JInt(i) => Some(KInt(i))
    case JString(s) => Some(KStr(s))
    case JArray(_) => None
    case JObject(_) => None
  }

  function DigitChar(d: nat): char
    requires d < 10
  {
    "0123456789"[d]
  }

  /** `str(n)` for a non-negative integer: its decimal digits, without leading zeros. */
  function NatToString(n: nat): (s: string)
    ensures |s| >= 1
    ensures |s| == 1 <==> n < 10
    ensures forall i :: 0 <= i < |s| ==> '0' <= s[i] <= '9'
    ensures s[0] == '0' ==> n == 0
  {
    if n < 10 then [DigitChar(n)] else NatToString(n / 10) + [DigitChar(n % 10)]
  }

  lemma DigitCharInjective(a: nat, b: nat)
    requires a < 10 && b < 10 && DigitChar(a) == DigitChar(b)
    ensures a == b
  {
  }

  /** Distinct indices have distinct decimal strings. */
  lemma {:induction false} NatToStringInjective(a: nat, b: nat)
    requires NatToString(a) == NatToString(b)
    ensures a == b
  {
    var s := NatToString(a);
    if a < 10 {
      assert b < 10;
      DigitCharInjective(a, b);
    } else {
      assert b >= 10;
      assert s[|s| - 1] == DigitChar(a % 10) == DigitChar(b % 10);
      DigitCharInjective(a % 10, b % 10);
      assert s[..|s| - 1] == NatToString(a / 10) == NatToString(b / 10);
      NatToStringInjective(a / 10, b / 10);
    }
  }

  /** The digit a decimal character stands for; any other character reads as 0. */
  function DigitValue(c: char): (d: nat)
    ensures d < 10
    ensures '0' <= c <= '9' ==> DigitChar(d) == c
  {
    if '0' <= c <= '9' then (c as int - '0' as int) else 0
  }

  /** The number a string of decimal digits denotes, most significant digit first. */
  function DecimalValue(s: string): nat
  {
    if s == [] then 0 else 10 * DecimalValue(s[..|s| - 1]) + DigitValue(s[|s| - 1])
  }

  /** `str(n)` reads back as n: its digits are those of n in base 10. */
  lemma {:induction false} NatToStringValue(n: nat)
    ensures DecimalValue(NatToString(n)) == n
  {
    var s := NatToString(n);
    if n < 10 {
      assert s[..0] == [];
      assert DigitValue(DigitChar(n)) == n;
    } else {
      assert s[..|s| - 1] == NatToString(n / 10);
      NatToStringValue(n / 10);
      assert DigitValue(DigitChar(n % 10)) == n % 10;
    }
  }

  /** `str(i)` for any integer. */
  function IntToString(i: int): string
  {
    if i < 0 then "-" + NatToString(-i) else NatToString(i)
  }

  /** `str(j)` for a scalar value; None for lists and dicts, whose text is not modelled. */
  function ScalarText(j: Json): Option<string>
  {
    match j
    case JNull => Some("None")
    case JBool(b) => Some(if b then "True" else "False")
    case JInt(i) => Some(IntToString(i))
    case JString(s) => Some(s)
    case JArray(_) => None
    case JObject(_) => None
  }

  /** Every hashable value has a text. */
  lemma HashableHasText(j: Json)
    requires KeyOf(j).Some?
    ensures ScalarText(j).Some?
  {
  }
}
