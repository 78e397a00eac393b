/**
 * PHP values as the core sees them: decoded JSON (`json_decode(..., true)`),
 * request value bags and attribute arrays, together with the PHP notions the
 * core relies on — `empty()`, `isset()` / `??` lookups, truthiness and the
 * conversion of a scalar to a string when it is interpolated or imploded.
 */
module PhpValues {

  datatype Option<+T> = None | Some(value: T)

  /** A PHP value decoded from JSON. Lists are arrays with keys 0..n-1,
      objects are arrays with string keys. Floats are not modelled. */
  datatype Json =
    | JNull
    | JBool(b: bool)
    | JInt(i: int)
    | JStr(s: string)
    | JList(items: seq<Json>)
    | JObj(fields: map<string, Json>)

  /** PHP `empty()` on a string: true for "" and for "0". */
  predicate EmptyString(s: string)
    ensures EmptyString(s) <==> |s| < 2 && forall k :: 0 <= k < |s| ==> s[k] == '0'
  {
    s == "" || s == "0"
  }

  /** PHP `empty()`: null, false, 0, "", "0" and the empty array. */
  predicate Empty(v: Json)
    ensures Empty(v) <==> v in {JNull, JBool(false), JInt(0), JStr(""), JStr("0"), JList([]), JObj(map[])}
  {
    match v
    case JNull => true
    case JBool(b) => !b
    case JInt(i) => i == 0
    case JStr(s) => EmptyString(s)
    case JList(items) => |items| == 0
    case JObj(fields) => |fields| == 0
  }

  predicate IsArray(v: Json) {
    v.JList? || v.JObj?
  }

  /** `isset($v[key])` for a non-numeric string key: the key is present and
      its value is not null. Lists have only integer keys, and `isset` on a
      scalar's string offset is false. */
  function Lookup(v: Json, key: string): (r: Option<Json>)
    ensures r.Some? <==> v.JObj? && key in v.fields && v.fields[key] != JNull
    ensures r.Some? ==> r.value == v.fields[key]
  {
    if v.JObj? && key in v.fields && v.fields[key] != JNull then Some(v.fields[key]) else None
  }

  /** `$v[key] ?? $default`. */
  function LookupOr(v: Json, key: string, default: Json): (r: Json)
    ensures Lookup(v, key).None? ==> r == default
    ensures Lookup(v, key).Some? ==> r == v.fields[key] && r != JNull
  {
    match Lookup(v, key)
    case Some(x) => x
    case None => default
  }

  /** The characters of a decimal digit. */
  function DigitChar(d: nat): (c: char)
    requires d < 10
    ensures '0' <= c <= '9'
  {
    (d + '0' as int) as char
  }

  /** PHP's decimal rendering of a non-negative integer. */
  function NatToString(n: nat): (r: string)
    ensures 1 <= |r|
    ensures forall k :: 0 <= k < |r| ==> '0' <= r[k] <= '9'
    ensures (n < 10) == (|r| == 1)
    decreases n
  {
    if n < 10 then [DigitChar(n)] else NatToString(n / 10) + [DigitChar(n % 10)]
  }

  /** PHP's decimal rendering of an integer (`"{$i}"`, `(string) $i`). */
  function IntToString(i: int): (r: string)
    ensures 1 <= |r|
    ensures (i < 0) == (r[0] == '-')
  {
    if i < 0 then "-" + NatToString(-i) else NatToString(i)
  }

  lemma {:induction false} NatToStringInjective(a: nat, b: nat)
    requires NatToString(a) == NatToString(b)
    ensures a == b
    decreases a
  {
    var sa, sb := NatToString(a), NatToString(b);
    if a < 10 && b < 10 {
      assert DigitChar(a) == sa[0] == sb[0] == DigitChar(b);
    } else if 10 <= a && 10 <= b {
      var n := |sa| - 1;
      assert sa[..n] == NatToString(a / 10);
      assert sb[..n] == NatToString(b / 10);
      NatToStringInjective(a / 10, b / 10);
      assert DigitChar(a % 10) == sa[n] == sb[n] == DigitChar(b % 10);
    }
  }

  /** Distinct integers render as distinct strings, so a rendered integer
      can be read back. */
  lemma IntToStringInjective(a: int, b: int)
    requires IntToString(a) == IntToString(b)
    ensures a == b
  {
    var s := IntToString(a);
    if a < 0 {
      assert s[1..] == NatToString(-a) == NatToString(-b);
      NatToStringInjective(-a, -b);
    } else {
      NatToStringInjective(a, b);
    }
  }
}
