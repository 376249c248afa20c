/** Values shared by every handler: optional JSON fields, JavaScript truthiness,
    parsed numbers and the two string tests the handlers use. */
module Common {

  /** A JSON field that may be absent: `None` stands for both `undefined` and `null`. */
  datatype Option<+T> = None | Some(value: T)

  /** The value `Number.parseFloat` produced. The finite value is kept abstract
      (an integer count of some unit); no rounding rule is claimed. */
  datatype Num = Finite(v: int) | NaN | PosInf | NegInf

  /** JavaScript truthiness of an optional text: `undefined`, `null` and `""` are falsy. */
  predicate Filled(s: Option<string>) {
    s.Some? && s.value != ""
  }

  /** JavaScript truthiness of a number: `0` and `NaN` are falsy. */
  predicate NumTruthy(n: Num) {
    match n
    case Finite(v) => v != 0
    case NaN => false
    case PosInf => true
    case NegInf => true
  }

  /** `a || d` where `d` is a plain text default. */
  function TextOr(a: Option<string>, d: string): string {
    if Filled(a) then a.value else d
  }

  /** `a || b` on optional texts. */
  function OrElse(a: Option<string>, b: Option<string>): Option<string> {
    if Filled(a) then a else b
  }

  /** `s.startsWith(p)`, also what SQL `LIKE 'p%'` tests when `p` holds no wildcard. */
  predicate StartsWith(s: string, p: string) {
    |p| <= |s| && s[..|p|] == p
  }

  /** `s.includes(p)` */
  predicate Contains(s: string, p: string)
    decreases |s|
  {
    StartsWith(s, p) || (|s| > 0 && Contains(s[1..], p))
  }
}
