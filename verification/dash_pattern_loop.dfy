/**
 The `dash_pattern` setter written as the source writes it: a scan past the
 leading blank elements, an output array sized to the retained input, one
 pass that either merges into the pair being written or starts a new one,
 and a final truncation to the pairs actually written. The vector is a
 sequence value here.
 */
module DashPatternLoop {
  import opened DashPattern

  /** Skips to the first element of `f` that is not blank. The source's loop
      has no bound here; this one stops at the end of the input. */
  method SkipBlanks(f: seq<DashElement>) returns (g: seq<DashElement>)
    ensures g == SkipLeadingBlanks(f)
  {
    var k := 0;
    while k < |f| && IsBlank(f[k])
      invariant 0 <= k <= |f|
      invariant SkipLeadingBlanks(f[k..]) == SkipLeadingBlanks(f)
    {
      assert f[k..][1..] == f[k + 1..];
      k := k + 1;
    }
    g := f[k..];
  }

  /** The merge pass over the retained input `g`, writing into a vector of
      `|g|` pairs and keeping the first `current + 1` of them. */
  method MergePass(g: seq<DashElement>) returns (stored: seq<DashElement>)
    requires |g| > 0
    ensures stored == Merged(g)
  {
    var pattern := seq(|g|, _ => DashElement(0.0, 0.0));
    var current := 0;
    pattern := pattern[current := Clamp(g[0])];
    assert g[..1] == [g[0]];
    var i := 1;
    while i < |g|
      invariant 1 <= i <= |g| && |pattern| == |g|
      invariant 0 <= current < i
      invariant pattern[..current + 1] == Merged(g[..i])
    {
      MergedStep(g, i);
      pattern, current := MergeOne(pattern, current, g[i]);
      i := i + 1;
    }
    assert g[..i] == g;
    stored := pattern[..current + 1];
  }

  /** One iteration of the merge loop on the vector: join `e` into the pair
      at `current`, or start a new pair after it. */
  method MergeOne(pattern: seq<DashElement>, current: nat, e: DashElement)
    returns (pattern': seq<DashElement>, current': nat)
    requires current + 1 < |pattern|
    ensures |pattern'| == |pattern| && current <= current' <= current + 1
    ensures pattern'[..current' + 1] == Step(pattern[..current + 1], e)
  {
    var cur := pattern[current];
    if cur.space <= 0.0 {
      current' := current;
      pattern' := pattern[current := DashElement(cur.draw + Max0(e.draw), Max0(e.space))];
      assert pattern'[..current + 1] == pattern[..current + 1][current := pattern'[current]];
    } else if e.draw <= 0.0 {
      current' := current;
      pattern' := pattern[current := DashElement(cur.draw, cur.space + Max0(e.space))];
      assert pattern'[..current + 1] == pattern[..current + 1][current := pattern'[current]];
    } else {
      current' := current + 1;
      pattern' := pattern[current' := Clamp(e)];
      assert pattern'[..current' + 1] == pattern[..current + 1] + [Clamp(e)];
    }
  }

  lemma MergedStep(g: seq<DashElement>, i: nat)
    requires 1 <= i < |g|
    ensures Merged(g[..i + 1]) == Step(Merged(g[..i]), g[i])
  {
    assert g[..i + 1][..i] == g[..i];
  }

  /** Stores the normalised form of `f`, computed with the source's loops. */
  method StoreDashPattern(f: seq<DashElement>) returns (stored: seq<DashElement>)
    ensures stored == Normalize(f)
  {
    var g := SkipBlanks(f);
    if |g| == 0 {
      return [];
    }
    stored := MergePass(g);
  }
}
