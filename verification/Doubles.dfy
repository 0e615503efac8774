// IEEE 754 doubles as far as the driver's checks can tell them apart: finite values are exact
// reals, and the ordered comparisons of section 5.11 of IEEE 754-2019 are false on NaN.
module Doubles {

  datatype Double = NaN | PosInf | NegInf | Fin(value: real)

  predicate IsFinite(x: Double) {
    x.Fin?
  }

  predicate Less(x: Double, y: Double) {
    match (x, y)
    case (NaN, _) => false
    case (_, NaN) => false
    case (NegInf, b) => b != NegInf
    case (PosInf, _) => false
    case (Fin(_), NegInf) => false
    case (Fin(_), PosInf) => true
    case (Fin(a), Fin(b)) => a < b
  }

  predicate LessEq(x: Double, y: Double) {
    x != NaN && (Less(x, y) || x == y)
  }

  // Finite values compare as reals, the infinities lie outside them, NaN compares with nothing.
  lemma ComparisonsOrder(x: Double, y: Double)
    ensures x.Fin? && y.Fin? ==> (Less(x, y) <==> x.value < y.value) && (LessEq(x, y) <==> x.value <= y.value)
    ensures x.NaN? || y.NaN? ==> !Less(x, y) && !LessEq(x, y)
    ensures x.NegInf? && !y.NaN? ==> LessEq(x, y) && (Less(x, y) <==> !y.NegInf?)
    ensures x.PosInf? && !y.NaN? ==> !Less(x, y) && (LessEq(x, y) <==> y.PosInf?)
    ensures x.Fin? && y.PosInf? ==> Less(x, y) && LessEq(x, y)
    ensures x.Fin? && y.NegInf? ==> !Less(x, y) && !LessEq(x, y)
  {
  }

  const ZERO := Fin(0.0)
  const ONE := Fin(1.0)

  predicate AllFinite(xs: seq<Double>) {
    forall i :: 0 <= i < |xs| ==> IsFinite(xs[i])
  }

  // A pose as the SDK takes it: x, y, z, roll, pitch, yaw.
  type Pose = p: seq<Double> | |p| == 6 witness [ZERO, ZERO, ZERO, ZERO, ZERO, ZERO]

  type Vector3 = v: seq<Double> | |v| == 3 witness [ZERO, ZERO, ZERO]
}
