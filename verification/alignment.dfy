/**
 Word-count alignment used when shader data is packed into the store of
 generic 4-byte words. `round_up_to_multiple` lives in a private utility
 header that is not part of this model; it is defined here by what it has
 to compute: the least multiple of the alignment that is not below `v`.
 */
module Alignment {

  /** True iff `r` is a whole number of `alignment`-sized blocks. */
  ghost predicate IsMultiple(r: nat, alignment: nat)
  {
    exists q: nat :: r == alignment * q
  }

  /** The least multiple of `alignment` that is at least `v`. */
  function RoundUpToMultiple(v: nat, alignment: nat): (r: nat)
    requires alignment > 0
    ensures IsMultiple(r, alignment)
    ensures v <= r < v + alignment
  {
    var q := (v + alignment - 1) / alignment;
    assert alignment * q == (v + alignment - 1) - (v + alignment - 1) % alignment;
    alignment * q
  }

  /** No multiple of `alignment` lies in `[v, RoundUpToMultiple(v, alignment))`:
      the rounded value is the least admissible one. */
  lemma RoundUpIsLeast(v: nat, alignment: nat, m: nat)
    requires alignment > 0
    requires IsMultiple(m, alignment) && v <= m
    ensures RoundUpToMultiple(v, alignment) <= m
  {
    var r := RoundUpToMultiple(v, alignment);
    if m < r {
      // m and r are both multiples and differ by less than one block
      var k: nat :| m == alignment * k;
      var j: nat :| r == alignment * j;
      MultipleGap(alignment, k, j);
    }
  }

  /** Distinct multiples of a block size are at least one block apart. */
  lemma MultipleGap(a: nat, k: nat, j: nat)
    requires a * k < a * j
    ensures a * k + a <= a * j
  {
    if j <= k {
      MulMonotone(a, j, k);
    } else {
      MulMonotone(a, k + 1, j);
    }
  }

  lemma MulMonotone(a: nat, x: nat, y: nat)
    requires x <= y
    ensures a * x <= a * y
  {
  }

  /** Rounding an already aligned value changes nothing. */
  lemma RoundUpOfMultiple(v: nat, alignment: nat)
    requires alignment > 0
    requires IsMultiple(v, alignment)
    ensures RoundUpToMultiple(v, alignment) == v
  {
    RoundUpIsLeast(v, alignment, v);
  }

  /** Rounding is monotone in the value rounded. */
  lemma RoundUpMonotone(v: nat, w: nat, alignment: nat)
    requires alignment > 0
    requires v <= w
    ensures RoundUpToMultiple(v, alignment) <= RoundUpToMultiple(w, alignment)
  {
    RoundUpIsLeast(v, alignment, RoundUpToMultiple(w, alignment));
  }
}
