/** Powers of two. */
module Powers {

  function Pow2(t: nat): nat
  {
    if t == 0 then 1 else 2 * Pow2(t - 1)
  }

  lemma {:induction false} Pow2Monotone(s: nat, t: nat)
    requires s <= t
    ensures 1 <= Pow2(s) <= Pow2(t)
  {
    if s > 0 {
      Pow2Monotone(s - 1, t - 1);
    } else if t > 0 {
      Pow2Monotone(0, t - 1);
    }
  }
}
