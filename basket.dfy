/** The cell encoder of the basket table (`encode_units` in src/seanlib.py): a
    summed quantity becomes 0 when it is not positive and 1 when it is at least
    one; a strictly fractional quantity falls through every branch and the
    source returns Python `None`, modelled here as `None`. */
module Basket {
  import opened Wrappers

  function EncodeUnits(x: real): (r: Option<int>)
    ensures r.Some? ==> r.value == 0 || r.value == 1
  {
    if x <= 0.0 then Some(0)
    else if x >= 1.0 then Some(1)
    else None
  }

  /** The three pieces: 0 exactly for x <= 0, 1 exactly for x >= 1, and no
      value exactly for 0 < x < 1. */
  lemma EncodeUnitsCases(x: real)
    ensures EncodeUnits(x) == Some(0) <==> x <= 0.0
    ensures EncodeUnits(x) == Some(1) <==> x >= 1.0
    ensures EncodeUnits(x) == None <==> 0.0 < x < 1.0
  {
  }

  /** Whole quantities are always encoded: no integer lies strictly between 0 and 1. */
  lemma EncodeUnitsWholeQuantities(n: int)
    ensures EncodeUnits(n as real).Some?
    ensures EncodeUnits(n as real).value == (if n > 0 then 1 else 0)
  {
  }

  /** Encoding is monotone where it is defined. The second clause is a fact
      about the model only (the loader never encodes a cell twice): the
      encoded values 0 and 1 are fixed points of the encoder. */
  lemma EncodeUnitsMonotoneAndIdempotent(x: real, y: real)
    requires x <= y && EncodeUnits(x).Some? && EncodeUnits(y).Some?
    ensures EncodeUnits(x).value <= EncodeUnits(y).value
    ensures EncodeUnits(EncodeUnits(x).value as real) == EncodeUnits(x)
  {
  }
}
