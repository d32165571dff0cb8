/**
  The few JavaScript value rules the extension's scripts rely on: truthiness,
  `typeof v === "number"`, the "fall back to a default duration" rule, and the
  string operations `substring(0, n)` and `startsWith`.
*/
module JsValues {

  /**
    A value read back from `chrome.storage.local` or from a message field.
    Numbers are integers here (fractional seconds are not modelled); `NaN`
    is kept apart because the scripts test for it with `isNaN`.
  */
  datatype Value = Undefined | Null | Bool(b: bool) | Number(n: int) | NaN | Str(s: string)

  /** A snapshot of `chrome.storage.local`; a missing key reads as `undefined`. */
  type Storage = map<string, Value>

  function Read(st: Storage, key: string): (v: Value)
    ensures key !in st ==> v == Undefined
  {
    if key in st then st[key] else Undefined
  }

  /** JavaScript truthiness: `undefined`, `null`, `false`, `0`, `NaN` and `""` are falsy. */
  predicate Truthy(v: Value) {
    match v
    case Undefined => false
    case Null => false
    case Bool(b) => b
    case Number(n) => n != 0
    case NaN => false
    case Str(s) => s != ""
  }

  /** `typeof v === "number"` holds for every number, `NaN` included. */
  predicate IsNumber(v: Value) {
    v.Number? || v.NaN?
  }

  /**
    The duration rule of background.js (drift alarm) and content.js (pause
    timer): a stored value that is not a number, is `NaN` or is below one
    second is replaced by `default`; any other stored number is used as is.
  */
  function SecondsOrDefault(v: Value, default: int): (d: int)
    ensures v.Number? && v.n >= 1 ==> d == v.n
    ensures !IsNumber(v) || v.NaN? || v.n < 1 ==> d == default
    ensures d >= 1 || d == default
  {
    if !IsNumber(v) || v.NaN? || v.n < 1 then default else v.n
  }

  /** `s.substring(0, n)` for `n >= 0`: the first `n` characters, or all of `s` when it is shorter. */
  function Prefix(s: string, n: nat): (p: string)
    ensures |p| <= n && |p| <= |s|
    ensures |s| <= n ==> p == s
    ensures |s| > n ==> |p| == n
    ensures p <= s
  {
    if |s| <= n then s else s[..n]
  }

  /** `s.startsWith(p)`. */
  predicate StartsWith(s: string, p: string) {
    |p| <= |s| && s[..|p|] == p
  }
}
