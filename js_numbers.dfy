/**
 * The JavaScript numbers the waste log can produce: NaN (what `parseFloat`
 * yields for a cleared quantity field) or a finite value. Finite values are
 * kept exact, as reals; IEEE rounding is not modelled.
 */
module JsNumbers {
  datatype JsNumber = NaN | Finite(value: real)

  /** JavaScript `+` on two numbers: NaN absorbs everything, finite values add. */
  function Add(a: JsNumber, b: JsNumber): JsNumber
  {
    if a.NaN? || b.NaN? then NaN else Finite(a.value + b.value)
  }

  const Zero: JsNumber := Finite(0.0)

  lemma AddZeroLeft(b: JsNumber)
    ensures Add(Zero, b) == b
  {
  }

  lemma AddAssociative(a: JsNumber, b: JsNumber, c: JsNumber)
    ensures Add(Add(a, b), c) == Add(a, Add(b, c))
  {
  }

  lemma AddCommutative(a: JsNumber, b: JsNumber)
    ensures Add(a, b) == Add(b, a)
  {
  }
}
