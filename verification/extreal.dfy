/**
  The numbers the meter works with. Decibel levels in the meter are JavaScript
  numbers: stored levels start at minus infinity, and callers may hand in NaN
  or either infinity. IEEE rounding is not modelled; a finite value is a
  mathematical real.
 */
module ExtendedReal {

  datatype ExtReal = NegInf | PosInf | NaN | Fin(v: real)

  /** JavaScript `a < b`: false whenever NaN is involved. */
  predicate Less(a: ExtReal, b: ExtReal) {
    if a.NaN? || b.NaN? || a == b then false
    else if a.NegInf? || b.PosInf? then true
    else if a.PosInf? || b.NegInf? then false
    else a.v < b.v
  }

  /** JavaScript `a <= b`: also false whenever NaN is involved. */
  predicate AtMost(a: ExtReal, b: ExtReal) {
    !a.NaN? && !b.NaN? && !Less(b, a)
  }

  /**
    JavaScript `a - d` for a finite `d`: infinities and NaN absorb it, so
    subtracting a positive amount lowers exactly the finite values.
   */
  function Minus(a: ExtReal, d: real): (r: ExtReal)
    ensures a.Fin? <==> r.Fin?
    ensures a.Fin? ==> r.v == a.v - d
    ensures !a.Fin? ==> r == a
    ensures 0.0 <= d && !a.NaN? ==> AtMost(r, a)
    ensures 0.0 < d ==> (Less(r, a) <==> a.Fin?)
  {
    match a
    case Fin(x) => Fin(x - d)
    case _ => a
  }

  /** JavaScript `Math.max(a, m)` for a finite `m`. */
  function MaxWith(a: ExtReal, m: real): (r: ExtReal)
    ensures a.NaN? <==> r.NaN?
    ensures a.PosInf? <==> r.PosInf?
    ensures !a.NaN? && !a.PosInf? ==> r.Fin? && m <= r.v
    ensures a.Fin? ==> r.v == (if a.v < m then m else a.v)
    ensures a.NegInf? ==> r == Fin(m)
  {
    match a
    case NaN => NaN
    case PosInf => PosInf
    case NegInf => Fin(m)
    case Fin(x) => Fin(if x < m then m else x)
  }

  /** On everything but NaN, `<` is a strict total order and `<=` is its reflexive closure. */
  lemma LessIsStrictTotalOrder(a: ExtReal, b: ExtReal, c: ExtReal)
    requires !a.NaN? && !b.NaN? && !c.NaN?
    ensures !Less(a, a)
    ensures Less(a, b) ==> !Less(b, a)
    ensures Less(a, b) && Less(b, c) ==> Less(a, c)
    ensures a == b || Less(a, b) || Less(b, a)
    ensures AtMost(a, b) <==> (Less(a, b) || a == b)
  {
  }

  /** NaN is the one value for which `a <= b` is not `!(b < a)`. */
  lemma NaNBreaksComplement(b: ExtReal)
    ensures !AtMost(NaN, b) && !Less(b, NaN)
  {
  }
}
