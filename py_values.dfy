/** The Python values the poller handles: JSON documents as `json` decodes
    them, Python truthiness, `dict.get` and the `str()` rendering used by
    f-strings. */
module PyValues {

  datatype Option<+T> = None | Some(value: T)

  /** A decoded JSON document. Objects are Python dicts, keyed by strings. */
  datatype Json =
    | JNull
    | JBool(b: bool)
    | JInt(i: int)
    | JStr(s: string)
    | JList(items: seq<Json>)
    | JObject(fields: map<string, Json>)

  /** Python's `bool(x)`: None, False, 0 and empty containers are falsy. */
  predicate Truthy(j: Json)
  {
    match j
    case JNull => false
    case JBool(b) => b
    case JInt(i) => i != 0
    case JStr(s) => s != ""
    case JList(items) => items != []
    case JObject(fields) => fields != map[]
  }

  /** `bool(x)` is False exactly on the six empty values of a JSON document. */
  lemma FalsyValues(j: Json)
    ensures !Truthy(j) <==>
      j == JNull || j == JBool(false) || j == JInt(0) || j == JStr("") ||
      j == JList([]) || j == JObject(map[])
  {
  }

  /** `d.get(key)`: the value under `key`, or None when the key is absent. */
  function Get(fields: map<string, Json>, key: string): Json
  {
    if key in fields then fields[key] else JNull
  }

  function Digit(d: nat): (c: char)
    requires d < 10
    ensures '0' <= c <= '9'
    ensures c == '0' <==> d == 0
  {
    "0123456789"[d]
  }

  /** The decimal digits of `n`, most significant first, as `str(n)` writes them. */
  function NatDigits(n: nat): (r: string)
    ensures |r| > 0
    ensures forall k :: 0 <= k < |r| ==> '0' <= r[k] <= '9'
    // no leading zero: only 0 itself is written as "0"
    ensures r[0] == '0' <==> n == 0
    ensures |r| > 1 ==> r[0] != '0'
    decreases n
  {
    if n < 10 then [Digit(n)] else NatDigits(n / 10) + [Digit(n % 10)]
  }

  /** The number a string of decimal digits denotes. */
  function DecimalValue(digits: string): nat
    requires forall k :: 0 <= k < |digits| ==> '0' <= digits[k] <= '9'
  {
    if digits == [] then 0
    else 10 * DecimalValue(digits[..|digits| - 1]) + (digits[|digits| - 1] - '0') as nat
  }

  /** Reading the digits back gives the number that was written. */
  lemma {:induction false} NatDigitsRoundTrip(n: nat)
    ensures DecimalValue(NatDigits(n)) == n
    decreases n
  {
    var r := NatDigits(n);
    if n < 10 {
      assert r[..|r| - 1] == [];
    } else {
      NatDigitsRoundTrip(n / 10);
      assert r[..|r| - 1] == NatDigits(n / 10);
    }
  }

  /** `str(i)` for a Python int. */
  function IntToDecimal(i: int): string
  {
    if i < 0 then "-" + NatDigits(-i) else NatDigits(i)
  }

  /** `str(x)` (what an f-string inserts) for a decoded JSON value. Exact for
      None, booleans, integers and strings; lists and dicts are rendered by a
      fixed placeholder. */
  function PyStr(j: Json): string
  {
    match j
    case JNull => "None"
    case JBool(b) => if b then "True" else "False"
    case JInt(i) => IntToDecimal(i)
    case JStr(s) => s
    case JList(_) => "[...]"
    case JObject(_) => "{...}"
  }
}
