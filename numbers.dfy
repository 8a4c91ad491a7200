/** Numeric conventions of the JavaScript engines, stated over exact reals. */
module JsNumbers {

  datatype Option<T> = None | Some(value: T)

  /** The value of the JavaScript expression `(a / b) || 0` when `a` and `b` are
      exact reals: a finite quotient, `0` for `0 / 0` (NaN is falsy), and a
      non-finite value (an Infinity, which is truthy) for a nonzero `a / 0`. */
  datatype Quotient = Finite(value: real) | NonFinite

  function GuardedDiv(a: real, b: real): (q: Quotient)
    ensures q.Finite? <==> (b != 0.0 || a == 0.0)
    ensures q.Finite? && b != 0.0 ==> q.value * b == a
    ensures b == 0.0 && a == 0.0 ==> q == Finite(0.0)
  {
    if b != 0.0 then Finite(a / b)
    else if a == 0.0 then Finite(0.0)
    else NonFinite
  }

  /** `Math.round(x)`: the integer nearest to `x`, halves rounded up, i.e. `floor(x + 1/2)`. */
  function JsRound(x: real): (r: int)
    ensures r as real <= x + 0.5 < r as real + 1.0
    ensures x - 0.5 < r as real <= x + 0.5
  {
    (x + 0.5).Floor
  }

  /** The two module-level constants that both allocation engines hard-code. */
  datatype Constants = Constants(hardTurnawayProp: real, docDelCostPerUse: real)

  /** The values the engines use: 10% of non-free use would be a hard turnaway,
      and a document-delivery transaction costs 25. */
  const EngineDefaults: Constants := Constants(0.1, 25.0)
}
