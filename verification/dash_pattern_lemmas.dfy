/**
 Properties of dash-pattern normalisation: the stored pattern has the
 normalised shape, keeps the clamped draw and space totals of its input,
 starts from the first retained input pair, draws exactly the positions the
 clamped input draws, and normalising it again changes nothing.
 */
module DashPatternLemmas {
  import opened DashPattern

  // ---------------------------------------------------------------------
  // Sums over concatenations and updates of the last element

  lemma {:induction false} ClampedTotalsConcat(a: seq<DashElement>, b: seq<DashElement>)
    ensures ClampedDrawTotal(a + b) == ClampedDrawTotal(a) + ClampedDrawTotal(b)
    ensures ClampedSpaceTotal(a + b) == ClampedSpaceTotal(a) + ClampedSpaceTotal(b)
    decreases |b|
  {
    if |b| > 0 {
      var b' := b[..|b| - 1];
      assert (a + b)[..|a + b| - 1] == a + b';
      ClampedTotalsConcat(a, b');
    } else {
      assert a + b == a;
    }
  }

  /** Blank elements contribute nothing once clamped. */
  lemma {:induction false} BlankClampedTotals(a: seq<DashElement>)
    requires forall j :: 0 <= j < |a| ==> IsBlank(a[j])
    ensures ClampedDrawTotal(a) == 0.0 && ClampedSpaceTotal(a) == 0.0
  {
    if |a| > 0 {
      BlankClampedTotals(a[..|a| - 1]);
    }
  }

  /** Dropping the leading blanks does not change the clamped totals. */
  lemma SkipKeepsClampedTotals(f: seq<DashElement>)
    ensures ClampedDrawTotal(SkipLeadingBlanks(f)) == ClampedDrawTotal(f)
    ensures ClampedSpaceTotal(SkipLeadingBlanks(f)) == ClampedSpaceTotal(f)
  {
    var g := SkipLeadingBlanks(f);
    var k := |f| - |g|;
    var blanks := f[..k];
    assert f == blanks + g;
    assert forall j :: 0 <= j < k ==> blanks[j] == f[j];
    ClampedTotalsConcat(blanks, g);
    BlankClampedTotals(blanks);
  }

  lemma ReplaceLastTotals(acc: seq<DashElement>, x: DashElement)
    requires |acc| > 0
    ensures DrawTotal(acc[|acc| - 1 := x]) == DrawTotal(acc) - acc[|acc| - 1].draw + x.draw
    ensures SpaceTotal(acc[|acc| - 1 := x]) == SpaceTotal(acc) - acc[|acc| - 1].space + x.space
  {
    assert acc[|acc| - 1 := x][..|acc| - 1] == acc[..|acc| - 1];
  }

  lemma AppendTotals(acc: seq<DashElement>, x: DashElement)
    ensures DrawTotal(acc + [x]) == DrawTotal(acc) + x.draw
    ensures SpaceTotal(acc + [x]) == SpaceTotal(acc) + x.space
  {
    assert (acc + [x])[..|acc|] == acc;
  }

  // ---------------------------------------------------------------------
  // One step of the merge loop

  /** A merge step adds exactly the clamped lengths of the element merged. */
  lemma StepTotals(acc: seq<DashElement>, e: DashElement)
    requires |acc| > 0 && NonNegative(acc)
    ensures DrawTotal(Step(acc, e)) == DrawTotal(acc) + Max0(e.draw)
    ensures SpaceTotal(Step(acc, e)) == SpaceTotal(acc) + Max0(e.space)
  {
    var last := |acc| - 1;
    var cur := acc[last];
    if cur.space <= 0.0 {
      ReplaceLastTotals(acc, DashElement(cur.draw + Max0(e.draw), Max0(e.space)));
    } else if e.draw <= 0.0 {
      ReplaceLastTotals(acc, DashElement(cur.draw, cur.space + Max0(e.space)));
    } else {
      AppendTotals(acc, Clamp(e));
    }
  }

  lemma StepNormalized(acc: seq<DashElement>, e: DashElement)
    requires |acc| > 0 && Normalized(acc)
    ensures Normalized(Step(acc, e))
    ensures Step(acc, e)[0].draw >= acc[0].draw && Step(acc, e)[0].space >= acc[0].space
    ensures acc[0].space > 0.0 ==> Step(acc, e)[0].draw == acc[0].draw
  {
  }

  lemma StepNonNegative(acc: seq<DashElement>, e: DashElement)
    requires |acc| > 0 && NonNegative(acc)
    ensures NonNegative(Step(acc, e))
  {
  }

  // ---------------------------------------------------------------------
  // The whole merge loop

  lemma {:induction false} MergedNonNegative(g: seq<DashElement>)
    requires |g| > 0
    ensures NonNegative(Merged(g))
  {
    if |g| > 1 {
      MergedNonNegative(g[..|g| - 1]);
      StepNonNegative(Merged(g[..|g| - 1]), g[|g| - 1]);
    }
  }

  /** Merging keeps the draw total and the space total of the clamped input. */
  lemma {:induction false} MergedTotals(g: seq<DashElement>)
    requires |g| > 0
    ensures DrawTotal(Merged(g)) == ClampedDrawTotal(g)
    ensures SpaceTotal(Merged(g)) == ClampedSpaceTotal(g)
  {
    if |g| == 1 {
      assert g[..0] == [];
      assert [Clamp(g[0])][..0] == [];
    } else {
      var g' := g[..|g| - 1];
      MergedTotals(g');
      MergedNonNegative(g');
      StepTotals(Merged(g'), g[|g| - 1]);
    }
  }

  /** Started on a non-blank element, merging yields a normalised pattern whose
      first pair only grows from the clamped first input, and whose first
      draw stays the clamped first draw when that input already had space. */
  lemma {:induction false} MergedShape(g: seq<DashElement>)
    requires |g| > 0 && !IsBlank(g[0])
    ensures Normalized(Merged(g))
    ensures Merged(g)[0].draw >= Max0(g[0].draw) && Merged(g)[0].space >= Max0(g[0].space)
    ensures g[0].space > 0.0 ==> Merged(g)[0].draw == Max0(g[0].draw)
  {
    if |g| > 1 {
      var g' := g[..|g| - 1];
      MergedShape(g');
      StepNormalized(Merged(g'), g[|g| - 1]);
    }
  }

  // ---------------------------------------------------------------------
  // Properties of the setter

  /** Every stored pattern has the normalised shape: lengths non-negative,
      space positive but in the last pair, draw positive but in the first. */
  lemma NormalizeIsNormalized(f: seq<DashElement>)
    ensures Normalized(Normalize(f))
  {
    var g := SkipLeadingBlanks(f);
    if |g| > 0 {
      MergedShape(g);
    }
  }

  /** The first stored pair comes from the first non-blank input pair: both of
      its lengths are at least that pair's clamped lengths, and its draw is
      exactly that pair's clamped draw when that pair had a positive space. */
  lemma NormalizeFirstPair(f: seq<DashElement>, k: nat)
    requires k < |f| && !IsBlank(f[k])
    requires forall j :: 0 <= j < k ==> IsBlank(f[j])
    ensures |Normalize(f)| > 0
    ensures Normalize(f)[0].draw >= Max0(f[k].draw)
    ensures Normalize(f)[0].space >= Max0(f[k].space)
    ensures f[k].space > 0.0 ==> Normalize(f)[0].draw == Max0(f[k].draw)
  {
    var g := SkipLeadingBlanks(f);
    var m := |f| - |g|;
    assert m <= k;
    assert |g| > 0 && g[0] == f[m];
    assert m == k;
    MergedShape(g);
  }

  /** Normalisation keeps the draw total and the space total of the input,
      each counted with negative lengths clamped to zero; hence it keeps the
      pattern's total length. */
  lemma NormalizeKeepsTotals(f: seq<DashElement>)
    ensures DrawTotal(Normalize(f)) == ClampedDrawTotal(f)
    ensures SpaceTotal(Normalize(f)) == ClampedSpaceTotal(f)
    ensures Length(Normalize(f)) == ClampedDrawTotal(f) + ClampedSpaceTotal(f)
  {
    var g := SkipLeadingBlanks(f);
    SkipKeepsClampedTotals(f);
    if |g| > 0 {
      MergedTotals(g);
    } else {
      assert ClampedDrawTotal(g) == 0.0 && ClampedSpaceTotal(g) == 0.0;
    }
  }

  /** Merging a normalised pattern reproduces each of its prefixes. */
  lemma {:induction false} MergedOfNormalizedPrefix(p: seq<DashElement>, k: nat)
    requires Normalized(p) && 1 <= k <= |p|
    ensures Merged(p[..k]) == p[..k]
  {
    if k > 1 {
      MergedOfNormalizedPrefix(p, k - 1);
      var prefix := p[..k - 1];
      assert p[..k] == prefix + [p[k - 1]];
      MergedSnoc(prefix, p[k - 1]);
      assert prefix[k - 2] == p[k - 2];
      StepAppends(prefix, p[k - 1]);
    }
  }

  /** After a pair with space, a pair with draw and no negative length is
      appended unchanged. */
  lemma StepAppends(acc: seq<DashElement>, e: DashElement)
    requires |acc| > 0 && acc[|acc| - 1].space > 0.0
    requires e.draw > 0.0 && e.space >= 0.0
    ensures Step(acc, e) == acc + [e]
  {
  }

  /** A pattern already in normalised shape is stored unchanged. */
  lemma NormalizeFixesNormalized(p: seq<DashElement>)
    requires Normalized(p)
    ensures Normalize(p) == p
  {
    if |p| > 0 {
      assert SkipLeadingBlanks(p) == p;
      MergedOfNormalizedPrefix(p, |p|);
      assert p[..|p|] == p;
    }
  }

  /** Normalisation is idempotent. */
  lemma NormalizeIdempotent(f: seq<DashElement>)
    ensures Normalize(Normalize(f)) == Normalize(f)
  {
    NormalizeIsNormalized(f);
    NormalizeFixesNormalized(Normalize(f));
  }

  /** Extending the input by one element runs one more merge step. */
  lemma MergedSnoc(g: seq<DashElement>, e: DashElement)
    requires |g| > 0
    ensures Merged(g + [e]) == Step(Merged(g), e)
  {
    assert (g + [e])[..|g|] == g;
  }

  /** A worked input: the zero-space pair (3,0) absorbs the draw of (4,2), the
      zero-draw pair (0,1) adds its space, and (6,0) starts the last pair. */
  lemma NormalizeExample()
    ensures Normalize([DashElement(0.0, 5.0), DashElement(3.0, 0.0), DashElement(4.0, 2.0),
                       DashElement(0.0, 1.0), DashElement(6.0, 0.0)])
         == [DashElement(0.0, 5.0), DashElement(7.0, 3.0), DashElement(6.0, 0.0)]
  {
    var e0, e1, e2, e3, e4 := DashElement(0.0, 5.0), DashElement(3.0, 0.0), DashElement(4.0, 2.0),
                              DashElement(0.0, 1.0), DashElement(6.0, 0.0);
    var f := [e0, e1, e2, e3, e4];
    assert SkipLeadingBlanks(f) == f;
    MergedSnoc([e0], e1);
    assert Merged([e0, e1]) == [e0, e1] by { assert [e0] + [e1] == [e0, e1]; }
    MergedSnoc([e0, e1], e2);
    assert Merged([e0, e1, e2]) == [e0, DashElement(7.0, 2.0)] by { assert [e0, e1] + [e2] == [e0, e1, e2]; }
    MergedSnoc([e0, e1, e2], e3);
    assert Merged([e0, e1, e2, e3]) == [e0, DashElement(7.0, 3.0)] by { assert [e0, e1, e2] + [e3] == [e0, e1, e2, e3]; }
    MergedSnoc([e0, e1, e2, e3], e4);
    assert [e0, e1, e2, e3] + [e4] == f;
  }

  // ---------------------------------------------------------------------
  // Which positions are drawn

  /** Clamping every element gives the clamped totals. */
  lemma {:induction false} ClampAllTotals(p: seq<DashElement>)
    ensures DrawTotal(ClampAll(p)) == ClampedDrawTotal(p)
    ensures SpaceTotal(ClampAll(p)) == ClampedSpaceTotal(p)
  {
    if |p| > 0 {
      var c := ClampAll(p);
      assert c[..|c| - 1] == ClampAll(p[..|p| - 1]);
      ClampAllTotals(p[..|p| - 1]);
    }
  }

  /** One merge step draws what the pattern drew before plus the clamped draw
      of `e`, laid right after the end of the pattern. */
  lemma StepDraws(acc: seq<DashElement>, e: DashElement, x: real)
    requires |acc| > 0 && NonNegative(acc)
    ensures Drawn(Step(acc, e), x)
        <==> Drawn(acc, x) || Length(acc) <= x < Length(acc) + Max0(e.draw)
  {
    var n := |acc|;
    var before := acc[..n - 1];
    var cur := acc[n - 1];
    assert Length(acc) == Length(before) + cur.draw + cur.space;
    var r := Step(acc, e);
    if cur.space <= 0.0 {
      assert r[..n - 1] == before;
    } else if e.draw <= 0.0 {
      assert r[..n - 1] == before;
    } else {
      assert r[..n] == acc;
    }
  }

  /** The merge pass draws exactly the positions its clamped input draws. */
  lemma {:induction false} MergedDraws(g: seq<DashElement>, x: real)
    requires |g| > 0
    ensures Drawn(Merged(g), x) <==> Drawn(ClampAll(g), x)
  {
    var c := ClampAll(g);
    if |g| == 1 {
      assert c == [Clamp(g[0])];
    } else {
      var g' := g[..|g| - 1];
      MergedDraws(g', x);
      MergedTotals(g');
      MergedNonNegative(g');
      ClampAllTotals(g');
      assert c[..|c| - 1] == ClampAll(g');
      StepDraws(Merged(g'), g[|g| - 1], x);
    }
  }

  /** A pattern of zero-length pairs draws nothing and has length zero. */
  lemma {:induction false} ZerosDrawNothing(z: seq<DashElement>, x: real)
    requires forall j :: 0 <= j < |z| ==> z[j] == DashElement(0.0, 0.0)
    ensures !Drawn(z, x) && Length(z) == 0.0
  {
    if |z| > 0 {
      ZerosDrawNothing(z[..|z| - 1], x);
    }
  }

  /** Zero-length pairs in front of a pattern change neither what it draws
      nor its length. */
  lemma {:induction false} ZeroPrefixDraws(z: seq<DashElement>, p: seq<DashElement>, x: real)
    requires forall j :: 0 <= j < |z| ==> z[j] == DashElement(0.0, 0.0)
    ensures Drawn(z + p, x) <==> Drawn(p, x)
    ensures Length(z + p) == Length(p)
    decreases |p|
  {
    if |p| == 0 {
      assert z + p == z;
      ZerosDrawNothing(z, x);
    } else {
      var p' := p[..|p| - 1];
      assert (z + p)[..|z + p| - 1] == z + p';
      ZeroPrefixDraws(z, p', x);
    }
  }

  /** Clamping distributes over concatenation. */
  lemma ClampAllConcat(a: seq<DashElement>, b: seq<DashElement>)
    ensures ClampAll(a + b) == ClampAll(a) + ClampAll(b)
  {
    var l, r := ClampAll(a + b), ClampAll(a) + ClampAll(b);
    assert |l| == |r|;
    forall i | 0 <= i < |l|
      ensures l[i] == r[i]
    {
      if i < |a| {
        assert (a + b)[i] == a[i];
      } else {
        assert (a + b)[i] == b[i - |a|];
      }
    }
  }

  /** The input splits into its leading blanks, which clamp to zero-length
      pairs, and the retained suffix. */
  lemma SkipSplitsClamped(f: seq<DashElement>, k: nat)
    requires k == |f| - |SkipLeadingBlanks(f)|
    ensures ClampAll(f) == ClampAll(f[..k]) + ClampAll(SkipLeadingBlanks(f))
    ensures forall j :: 0 <= j < k ==> ClampAll(f[..k])[j] == DashElement(0.0, 0.0)
  {
    var g := SkipLeadingBlanks(f);
    var z := ClampAll(f[..k]);
    assert f == f[..k] + g;
    ClampAllConcat(f[..k], g);
    forall j | 0 <= j < k
      ensures z[j] == DashElement(0.0, 0.0)
    {
      assert f[..k][j] == f[j] && IsBlank(f[j]);
    }
  }

  /** Normalisation draws exactly the positions the clamped input draws:
      dropping the leading blanks and joining zero lengths into their
      neighbours moves no dash. */
  lemma NormalizeDraws(f: seq<DashElement>, x: real)
    ensures Drawn(Normalize(f), x) <==> Drawn(ClampAll(f), x)
  {
    var g := SkipLeadingBlanks(f);
    var k := |f| - |g|;
    SkipSplitsClamped(f, k);
    ZeroPrefixDraws(ClampAll(f[..k]), ClampAll(g), x);
    if |g| > 0 {
      MergedDraws(g, x);
    }
  }

  lemma NormalizeDrawsAll(f: seq<DashElement>)
    ensures forall x :: Drawn(Normalize(f), x) <==> Drawn(ClampAll(f), x)
  {
    forall x {
      NormalizeDraws(f, x);
    }
  }
}
