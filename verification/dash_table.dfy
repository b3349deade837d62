/**
 The packed form of a dash pattern: a table of cumulative lengths followed
 by an end-of-pattern sentinel. Entry `2i` is the length through the end of
 draw `i`, entry `2i+1` the length through the end of space `i`, and every
 word after the table holds `(total + 1) * 2`.
 */
module DashTable {
  import opened DashPattern

  /** The value written into every padding word after the table. */
  function Sentinel(p: seq<DashElement>): real
  {
    (Length(p) + 1.0) * 2.0
  }

  /** Length of the pattern through the end of draw `i`. */
  function DrawEnd(p: seq<DashElement>, i: nat): real
    requires i < |p|
  {
    Length(p[..i]) + p[i].draw
  }

  /** Length of the pattern through the end of space `i`. */
  function SpaceEnd(p: seq<DashElement>, i: nat): real
    requires i < |p|
  {
    Length(p[..i + 1])
  }

  /** `words[start..]` begins with the cumulative-length table of `p`. */
  ghost predicate TableAt(p: seq<DashElement>, start: nat, words: seq<real>)
  {
    && start + 2 * |p| <= |words|
    && (forall i :: 0 <= i < |p| ==>
          words[start + 2 * i] == DrawEnd(p, i) && words[start + 2 * i + 1] == SpaceEnd(p, i))
  }

  /** Every word of `words` from `from` on holds the sentinel of `p`. */
  ghost predicate PaddedFrom(p: seq<DashElement>, from: nat, words: seq<real>)
  {
    forall k :: from <= k < |words| ==> words[k] == Sentinel(p)
  }

  // ---------------------------------------------------------------------
  // Prefix lengths

  lemma PrefixLengthStep(p: seq<DashElement>, i: nat)
    requires i < |p|
    ensures Length(p[..i + 1]) == Length(p[..i]) + p[i].draw + p[i].space
  {
    assert p[..i + 1][..i] == p[..i];
  }

  lemma {:induction false} PrefixLengthMonotone(p: seq<DashElement>, i: nat, j: nat)
    requires NonNegative(p) && i <= j <= |p|
    ensures Length(p[..i]) <= Length(p[..j])
    decreases j - i
  {
    if i < j {
      PrefixLengthStep(p, i);
      PrefixLengthMonotone(p, i + 1, j);
    }
  }

  lemma NonNegativeLength(p: seq<DashElement>)
    requires NonNegative(p)
    ensures Length(p) >= 0.0
  {
    PrefixLengthMonotone(p, 0, |p|);
    assert p[..0] == [] && p[..|p|] == p;
  }

  // ---------------------------------------------------------------------
  // Reading the table back

  /** The pattern a consumer recovers from the first `n` pairs of a table at
      `start`: each length is the difference of consecutive entries. */
  function UnpackPattern(words: seq<real>, start: nat, n: nat): (r: seq<DashElement>)
    requires start + 2 * n <= |words|
    ensures |r| == n
  {
    if n == 0 then []
    else
      var j := start + 2 * (n - 1);
      var before := if n == 1 then 0.0 else words[j - 1];
      UnpackPattern(words, start, n - 1) + [DashElement(words[j] - before, words[j + 1] - words[j])]
  }

  /** The table determines the pattern: differencing its entries gives back
      every pair of `p`. */
  lemma {:induction false} UnpackTablePrefix(p: seq<DashElement>, start: nat, words: seq<real>, n: nat)
    requires TableAt(p, start, words) && n <= |p|
    ensures UnpackPattern(words, start, n) == p[..n]
  {
    if n > 0 {
      UnpackTablePrefix(p, start, words, n - 1);
      var j := start + 2 * (n - 1);
      assert words[j] == DrawEnd(p, n - 1);
      assert words[j + 1] == SpaceEnd(p, n - 1);
      var before := if n == 1 then 0.0 else words[j - 1];
      assert before == Length(p[..n - 1]) by {
        if n > 1 {
          assert words[start + 2 * (n - 2) + 1] == SpaceEnd(p, n - 2);
        } else {
          assert p[..0] == [];
        }
      }
      PrefixLengthStep(p, n - 1);
      assert UnpackPattern(words, start, n)
          == UnpackPattern(words, start, n - 1) + [DashElement(words[j] - before, words[j + 1] - words[j])];
      assert p[..n] == p[..n - 1] + [p[n - 1]];
    }
  }

  lemma UnpackTable(p: seq<DashElement>, start: nat, words: seq<real>)
    requires TableAt(p, start, words)
    ensures UnpackPattern(words, start, |p|) == p
  {
    UnpackTablePrefix(p, start, words, |p|);
    assert p[..|p|] == p;
  }

  // ---------------------------------------------------------------------
  // Ordering of the packed region

  /** Every table entry lies between 0 and the total length. */
  lemma TableEntryBounded(p: seq<DashElement>, start: nat, words: seq<real>, k: nat)
    requires NonNegative(p) && TableAt(p, start, words)
    requires start <= k < start + 2 * |p|
    ensures words[k] <= Length(p)
  {
    var n := |p|;
    var i := (k - start) / 2;
    assert words[k] == DrawEnd(p, i) || words[k] == SpaceEnd(p, i);
    PrefixLengthStep(p, i);
    PrefixLengthMonotone(p, i + 1, n);
    assert p[..n] == p;
  }

  /** Consecutive table entries do not decrease. */
  lemma TableStepOrdered(p: seq<DashElement>, start: nat, words: seq<real>, k: nat)
    requires NonNegative(p) && TableAt(p, start, words)
    requires start <= k && k + 1 < start + 2 * |p|
    ensures words[k] <= words[k + 1]
  {
    var i := (k - start) / 2;
    PrefixLengthStep(p, i);
    if k == start + 2 * i {
      assert words[k + 1] == SpaceEnd(p, i);
    } else {
      assert k == start + 2 * i + 1;
      assert words[k] == SpaceEnd(p, i);
      assert words[k + 1] == words[start + 2 * (i + 1)] == DrawEnd(p, i + 1);
    }
  }

  /** For a pattern of non-negative lengths the packed region from `start` on
      is non-decreasing, its last table entry is the total length, and the
      sentinel is strictly greater than every table entry. */
  lemma PackedRegionOrdered(p: seq<DashElement>, start: nat, words: seq<real>)
    requires NonNegative(p) && |p| > 0
    requires TableAt(p, start, words) && PaddedFrom(p, start + 2 * |p|, words)
    ensures words[start + 2 * |p| - 1] == Length(p)
    ensures forall k :: start <= k < start + 2 * |p| ==> words[k] <= Length(p) < Sentinel(p)
    ensures forall k, l :: start <= k <= l < |words| ==> words[k] <= words[l]
  {
    var n := |p|;
    assert p[..n] == p;
    assert words[start + 2 * (n - 1) + 1] == SpaceEnd(p, n - 1);
    NonNegativeLength(p);
    forall k | start <= k < start + 2 * n
      ensures words[k] <= Length(p)
    {
      TableEntryBounded(p, start, words, k);
    }
    forall k | start <= k < |words| - 1
      ensures words[k] <= words[k + 1]
    {
      if k + 1 < start + 2 * n {
        TableStepOrdered(p, start, words, k);
      }
    }
    forall k, l | start <= k <= l < |words|
      ensures words[k] <= words[l]
    {
      ChainOrdered(words, start, k, l);
    }
  }

  /** Words that do not decrease from one to the next do not decrease over
      any distance. */
  lemma {:induction false} ChainOrdered(words: seq<real>, start: nat, k: nat, l: nat)
    requires forall j :: start <= j < |words| - 1 ==> words[j] <= words[j + 1]
    requires start <= k <= l < |words|
    ensures words[k] <= words[l]
    decreases l - k
  {
    if k < l {
      ChainOrdered(words, start, k + 1, l);
    }
  }
}
