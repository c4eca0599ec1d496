/** float64 values with exact arithmetic: NaN and the infinities are explicit,
    rounding is not modelled. Comparisons follow section 5.11 of IEEE 754-2008:
    every one with a NaN operand is false. */
module Floats {
  datatype F64 = NaN | NegInf | Fin(r: real) | PosInf

  predicate Less(a: F64, b: F64) {
    if a.Fin? && b.Fin? then a.r < b.r
    else (a.NegInf? && (b.Fin? || b.PosInf?)) || (a.Fin? && b.PosInf?)
  }

  predicate AtLeast(a: F64, b: F64) { !a.NaN? && !b.NaN? && !Less(a, b) }

  const ZERO := Fin(0.0)
  const ONE := Fin(1.0)
}
