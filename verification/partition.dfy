/** The offset arithmetic shared by both partitioning loops of StyleProvider
    (DiscoGlobe/ViewController.swift:175 and 223): group k starts at
    groupSize * k. The product is defined by repeated addition, so proofs
    about the groups reason about sums only. */
module Partition {

  /** size * k, the first position of group k. */
  function Offset(size: nat, k: nat): nat {
    if k == 0 then 0 else Offset(size, k - 1) + size
  }

  /** The offset is the product the source computes. */
  lemma {:induction false} OffsetIsProduct(size: nat, k: nat)
    ensures Offset(size, k) == size * k
  {
    if k > 0 {
      OffsetIsProduct(size, k - 1);
      assert size * k == size * (k - 1) + size;
    }
  }

  /** Later groups start later: group i ends (at Offset(size, i) + size)
      no later than group j starts, for every j after i. */
  lemma {:induction false} OffsetMonotone(size: nat, i: nat, j: nat)
    requires i < j
    ensures Offset(size, i) + size <= Offset(size, j)
    decreases j
  {
    if i + 1 < j {
      OffsetMonotone(size, i, j - 1);
    }
  }

  /** Positions inside two different groups of width `size` never coincide. */
  lemma GroupsDisjoint(size: nat, i: nat, a: nat, j: nat, b: nat)
    requires a < size && b < size && i != j
    ensures Offset(size, i) + a != Offset(size, j) + b
  {
    if i < j {
      OffsetMonotone(size, i, j);
    } else {
      OffsetMonotone(size, j, i);
    }
  }
}
