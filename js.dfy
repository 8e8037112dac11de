/**
 * The fragments of JavaScript value semantics that the lock code relies on:
 * the `lockStats` fields hold `null`, `undefined`, `NaN` or a number, are
 * combined with `-`, and are tested for truthiness with `!`.
 */
module Js {
  import opened Wrappers

  /** A statistics value: `undefined` (never assigned), `null`, `NaN` or an integral number of milliseconds. */
  datatype Num = Undefined | Null | NaN | Val(v: int)

  /** JavaScript's ToNumber on these values: `null` becomes 0 and `undefined` becomes `NaN`. */
  function ToNumber(n: Num): (r: Num)
    ensures r.Val? || r.NaN?
    ensures n.Val? ==> r == n
    ensures n.Null? ==> r == Val(0)
  {
    match n
    case Undefined => NaN
    case Null => Val(0)
    case NaN => NaN
    case Val(v) => Val(v)
  }

  /** JavaScript's binary `-`: a number exactly when both operands convert to numbers. */
  function Minus(a: Num, b: Num): (r: Num)
    ensures r.Val? <==> ToNumber(a).Val? && ToNumber(b).Val?
    ensures r.Val? ==> r.v == ToNumber(a).v - ToNumber(b).v
    ensures !r.Val? ==> r.NaN?
  {
    match (ToNumber(a), ToNumber(b))
    case (Val(x), Val(y)) => Val(x - y)
    case _ => NaN
  }

  /** `!!n` on a statistics value: `undefined`, `null`, `NaN` and 0 are falsy. */
  predicate TruthyNum(n: Num)
  {
    n.Val? && n.v != 0
  }

  /** `!!s` on a string-or-null: `null` and the empty string are falsy. */
  predicate TruthyStr(s: Option<string>)
  {
    s.Some? && s.value != ""
  }
}
