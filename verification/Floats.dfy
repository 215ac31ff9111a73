/**
  64-bit floats. Finite floats are reals, so rounding and the sign of zero are outside the model.
 */
module Floats {
  import opened Wrappers

  datatype F64 = Finite(value: real) | NotANumber | PosInf | NegInf

  /** The three outcomes of a comparison that has an outcome. */
  datatype Ordering = Less | Equal | Greater

  /** The partial order on floats: it has no answer when either side is not a number. */
  function PartialCmp(a: F64, b: F64): Option<Ordering> {
    if a.NotANumber? || b.NotANumber? then None
    else if a == b then Some(Equal)
    else if a.NegInf? || b.PosInf? then Some(Less)
    else if a.PosInf? || b.NegInf? then Some(Greater)
    else if a.value < b.value then Some(Less)
    else Some(Greater)
  }

  /** Only what is not a number cannot be compared; finite floats compare as their values, between the
      two infinities; and swapping the sides swaps the outcome. */
  lemma ComparisonsAre(a: F64, b: F64)
    ensures PartialCmp(a, b) == None <==> a.NotANumber? || b.NotANumber?
    ensures a.Finite? && b.Finite? ==> (PartialCmp(a, b) == Some(Less) <==> a.value < b.value)
    ensures a.NegInf? && (b.Finite? || b.PosInf?) ==> PartialCmp(a, b) == Some(Less)
    ensures b.PosInf? && (a.Finite? || a.NegInf?) ==> PartialCmp(a, b) == Some(Less)
    ensures PartialCmp(a, b) == Some(Greater) <==> PartialCmp(b, a) == Some(Less)
    ensures PartialCmp(a, b) == Some(Equal) <==> a == b && !a.NotANumber?
  {
  }
}
