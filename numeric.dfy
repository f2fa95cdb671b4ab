/** Small integer helpers shared by the compositor and the chat front end. */
module Numeric {
  function Min(a: int, b: int): (m: int)
    ensures m <= a && m <= b && (m == a || m == b)
  {
    if a <= b then a else b
  }

  function Max(a: int, b: int): (m: int)
    ensures a <= m && b <= m && (m == a || m == b)
  {
    if a <= b then b else a
  }

  /** Multiplying by a natural number keeps order. */
  lemma MulLeq(a: nat, b: nat, c: nat)
    ensures a <= b ==> a * c <= b * c
  {
  }
}
