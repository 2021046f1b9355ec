/**
 * The few JavaScript value semantics the handlers depend on: truthiness (the
 * `!x`, `x || y` and `if (x)` tests), `String(x)` and template-literal
 * interpolation, strict equality, and `String.prototype.includes`.
 */
module Js {

  /**
   * A scalar as it arrives in a parsed JSON body, a query string or the
   * process environment. A number is kept as the text JavaScript prints for
   * it, so both zeros are `Number("0")` and not-a-number is `Number("NaN")`.
   */
  datatype JsValue = Undefined | Null | Bool(b: bool) | Number(text: string) | Str(s: string)

  /** The truth value JavaScript gives `v` in a condition. */
  predicate Truthy(v: JsValue) {
    match v
    case Undefined => false
    case Null => false
    case Bool(b) => b
    case Number(t) => t != "0" && t != "NaN"
    case Str(s) => s != ""
  }

  /** `a || b`: the first operand when it is truthy, otherwise the second. */
  function Or(a: JsValue, b: JsValue): JsValue {
    if Truthy(a) then a else b
  }

  /** `String(v)`, which is also what `${v}` inserts into a template literal. */
  function ToStr(v: JsValue): string {
    match v
    case Undefined => "undefined"
    case Null => "null"
    case Bool(b) => if b then "true" else "false"
    case Number(t) => t
    case Str(s) => s
  }

  /** `a === b`: same kind and same value, except that NaN equals nothing. */
  predicate StrictEquals(a: JsValue, b: JsValue) {
    a == b && a != Number("NaN")
  }

  /** `s.includes(needle)`: `needle` occurs in `s` at some position. */
  predicate Includes(s: string, needle: string) {
    exists i :: 0 <= i <= |s| && needle <= s[i..]
  }

  lemma IncludesAt(s: string, needle: string, i: nat)
    requires i + |needle| <= |s| && s[i..i + |needle|] == needle
    ensures Includes(s, needle)
  {
    assert needle <= s[i..];
  }

  /** A string includes any part it was concatenated from. */
  lemma IncludesPart(prefix: string, needle: string, suffix: string)
    ensures Includes(prefix + needle + suffix, needle)
  {
    var s := prefix + needle + suffix;
    assert s[|prefix|..|prefix| + |needle|] == needle;
    IncludesAt(s, needle, |prefix|);
  }

  /** A string includes its prefix. */
  lemma IncludesPrefix(needle: string, rest: string)
    ensures Includes(needle + rest, needle)
  {
    assert needle <= (needle + rest)[0..];
  }

  /** A string includes its suffix. */
  lemma IncludesSuffix(prefix: string, needle: string)
    ensures Includes(prefix + needle, needle)
  {
    assert needle <= (prefix + needle)[|prefix|..];
  }

  /** Inclusion carries over to any string that contains the including one. */
  lemma IncludesTransitive(s: string, mid: string, needle: string)
    requires Includes(s, mid) && Includes(mid, needle)
    ensures Includes(s, needle)
  {
    var i :| 0 <= i <= |s| && mid <= s[i..];
    var j :| 0 <= j <= |mid| && needle <= mid[j..];
    assert forall t :: 0 <= t < |mid| ==> s[i + t] == mid[t];
    assert forall t :: 0 <= t < |needle| ==> mid[j + t] == needle[t];
    assert needle <= s[i + j..];
  }

  /** Every string includes the empty string. */
  lemma IncludesEmpty(s: string)
    ensures Includes(s, "")
  {
    assert "" <= s[0..];
  }
}
