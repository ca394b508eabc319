/** Integer facts shared by the cart totals and the report figures. */
module Arith {
  /** One more copy of v adds v, on either side of the product. */
  lemma MulSucc(q: int, v: int)
    ensures (q + 1) * v == q * v + v
    ensures v * (q + 1) == v * q + v
  {
  }
}
