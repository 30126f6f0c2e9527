/** Powers of two, for delays that double. */
module Powers {
  function Pow2(n: nat): (p: nat)
    ensures p >= 1
  {
    if n == 0 then 1 else 2 * Pow2(n - 1)
  }

  lemma {:induction false} PowGrows(n: nat, m: nat)
    requires n <= m
    ensures Pow2(n) <= Pow2(m) && (n < m ==> 2 * Pow2(n) <= Pow2(m))
    decreases m - n
  {
    if n < m {
      PowGrows(n, m - 1);
    }
  }
}
