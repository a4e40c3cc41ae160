/** The sign-and-magnitude difference of two unsigned amounts. */
module SignedIntegers {

  datatype SignedInt = SignedInt(magnitude: nat, negative: bool) {

    function Value(): int {
      if negative then 0 - magnitude as int else magnitude
    }
  }

  /** The difference as a signed number; zero is never negative. */
  function FromSubtraction(minuend: nat, subtrahend: nat): (r: SignedInt)
    ensures r.Value() == minuend - subtrahend
    ensures r.negative <==> minuend < subtrahend
  {
    if minuend >= subtrahend then
      SignedInt(minuend - subtrahend, false)
    else
      SignedInt(subtrahend - minuend, true)
  }
}
