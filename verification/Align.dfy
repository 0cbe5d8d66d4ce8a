/** The alignment every shared-memory allocation keeps (that of max_align_t). */
module Align {
  const ALIGN: nat := 16

  predicate IsAligned(x: nat) { x % ALIGN == 0 }

  lemma AlignedSum(x: nat, y: nat)
    requires IsAligned(x) && IsAligned(y)
    ensures IsAligned(x + y)
  {
  }
}
