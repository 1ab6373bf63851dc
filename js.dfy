/**
 * The few JavaScript value rules the handlers and the chat widget depend on:
 * truthiness, `||` on numbers and strings, `Math.min`, comparisons against a
 * number that may be NaN, and the string test `includes`. `EndsWith` is not
 * called by the handlers or the widget; it is vocabulary for stating what
 * `replace(/\/$/, '')` in `getApiUrl` produces.
 */
module Js {

  datatype Option<T> = None | Some(value: T)

  /**
   * A number as the code sees it after `parseInt` or after reading a JSON
   * property: a missing property (`undefined`), `NaN`, or an integer.
   */
  datatype Num = Undefined | NaN | Int(value: int)

  /**
   * A property of a parsed JSON object: missing, a string, or some other
   * value of which only its truthiness matters.
   */
  datatype Field = Absent | Str(s: string) | Other(truthy: bool)

  /** JavaScript truthiness of a number: neither undefined, NaN nor 0. */
  predicate NumTruthy(n: Num) {
    n.Int? && n.value != 0
  }

  /** JavaScript truthiness of a property value; the empty string is falsy. */
  predicate Truthy(f: Field) {
    match f
    case Absent => false
    case Str(s) => s != ""
    case Other(t) => t
  }

  /** `a || b` on numbers: the left operand when it is truthy, else the right one. */
  function NumOr(a: Num, b: Num): (r: Num)
    ensures NumTruthy(a) ==> r == a
    ensures !NumTruthy(a) ==> r == b
    ensures NumTruthy(r) <==> NumTruthy(a) || NumTruthy(b)
  {
    if NumTruthy(a) then a else b
  }

  /** `a || b` on property values. */
  function FieldOr(a: Field, b: Field): (r: Field)
    ensures Truthy(a) ==> r == a
    ensures !Truthy(a) ==> r == b
    ensures Truthy(r) <==> Truthy(a) || Truthy(b)
  {
    if Truthy(a) then a else b
  }

  function MinInt(a: int, b: int): (m: int)
    ensures m <= a && m <= b && (m == a || m == b)
  {
    if a <= b then a else b
  }

  /** `Math.min(x, n)`: NaN unless `n` is a number. */
  function Min(x: int, n: Num): (r: Num)
    ensures r.Int? <==> n.Int?
    ensures n.Int? ==> r.value <= x && r.value <= n.value && (r.value == x || r.value == n.value)
  {
    if n.Int? then Int(MinInt(x, n.value)) else NaN
  }

  /** `k <= n`, which is false when `n` is NaN or undefined. */
  predicate AtMost(k: int, n: Num) {
    n.Int? && k <= n.value
  }

  /** `k < n`, which is false when `n` is NaN or undefined. */
  predicate Below(k: int, n: Num) {
    n.Int? && k < n.value
  }

  /** `s.includes(sub)`: `sub` occurs in `s` at some position. */
  function Includes(s: string, sub: string): (found: bool)
    decreases |s|
  {
    sub <= s || (|s| > 0 && Includes(s[1..], sub))
  }

  /** `sub` occurs in `s` starting at index `i`. */
  predicate OccursAt(s: string, sub: string, i: int) {
    0 <= i <= |s| - |sub| && s[i..i + |sub|] == sub
  }

  /** `Includes` agrees with "occurs at some index". */
  lemma {:induction false} IncludesAt(s: string, sub: string)
    ensures Includes(s, sub) <==> exists i :: OccursAt(s, sub, i)
    decreases |s|
  {
    if sub <= s {
      assert OccursAt(s, sub, 0);
    } else if |s| == 0 {
    } else {
      IncludesAt(s[1..], sub);
      if Includes(s[1..], sub) {
        var i :| OccursAt(s[1..], sub, i);
        assert s[1..][i..i + |sub|] == s[i + 1..i + 1 + |sub|];
        assert OccursAt(s, sub, i + 1);
      }
      if exists i :: OccursAt(s, sub, i) {
        var i :| OccursAt(s, sub, i);
        // i == 0 would make sub a prefix of s
        if i > 0 {
          assert s[1..][i - 1..i - 1 + |sub|] == s[i..i + |sub|];
          assert OccursAt(s[1..], sub, i - 1);
        }
      }
    }
  }

  /** `s.endsWith(suffix)`. */
  predicate EndsWith(s: string, suffix: string) {
    |suffix| <= |s| && s[|s| - |suffix|..] == suffix
  }
}
