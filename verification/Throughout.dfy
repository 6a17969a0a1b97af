/** What holds in every state of a run, when each step says whether it goes on holding. */
module Throughout {

  /**
   * If P holds at first, and after every state in which it holds step i keeps it exactly when Q
   * holds of i, then P holds throughout exactly when Q holds of every step.
   */
  lemma {:induction false} HoldsThroughoutIff(p: nat -> bool, q: nat -> bool, n: nat)
    requires p(0) && forall i: nat :: i < n && p(i) ==> (p(i + 1) <==> q(i))
    ensures (forall i: nat :: i <= n ==> p(i)) <==> (forall i: nat :: i < n ==> q(i))
  {
    if n > 0 {
      HoldsThroughoutIff(p, q, n - 1);
      if forall i: nat :: i <= n ==> p(i) {
        forall i: nat | i < n ensures q(i) {
          assert p(i) && p(i + 1);
        }
      }
      if forall i: nat :: i < n ==> q(i) {
        assert p(n - 1) && q(n - 1);
        forall i: nat | i <= n ensures p(i) {
          assert i == n || i <= n - 1;
        }
      }
    }
  }
}
