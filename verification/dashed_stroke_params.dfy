/**
 Shader data of a dashed stroke: `PainterDashedStrokeParamsData` together
 with the accessors of `PainterDashedStrokeParams`. The payload is an
 immutable value, so `copy()` (including the pattern table) is the identity
 on values.
 */
module DashedStrokeParams {
  import opened Alignment
  import opened DashPattern
  import opened DashTable
  import DashPatternLemmas

  /** Word offsets of the four fields and the unrounded size of the static
      block that precedes the pattern table. The enumeration defining them is
      not part of this model; any layout with distinct offsets inside the
      static block is admitted. */
  datatype DashedLayout = DashedLayout(
    miterLimitOffset: nat,
    widthOffset: nat,
    dashOffsetOffset: nat,
    totalLengthOffset: nat,
    staticDataSize: nat)
  {
    predicate Valid()
    {
      && miterLimitOffset != widthOffset
      && miterLimitOffset != dashOffsetOffset
      && miterLimitOffset != totalLengthOffset
      && widthOffset != dashOffsetOffset
      && widthOffset != totalLengthOffset
      && dashOffsetOffset != totalLengthOffset
      && miterLimitOffset < staticDataSize
      && widthOffset < staticDataSize
      && dashOffsetOffset < staticDataSize
      && totalLengthOffset < staticDataSize
    }

    /** One of the four field words. */
    predicate IsField(k: nat)
    {
      k == miterLimitOffset || k == widthOffset || k == dashOffsetOffset || k == totalLengthOffset
    }

    /** Word at which the pattern table starts. */
    function PatternStart(alignment: nat): (s: nat)
      requires alignment > 0
      ensures staticDataSize <= s < staticDataSize + alignment
    {
      RoundUpToMultiple(staticDataSize, alignment)
    }
  }

  datatype DashedStrokeParamsData = DashedStrokeParamsData(
    miterLimit: real,
    width: real,
    dashOffset: real,
    pattern: seq<DashElement>)

  /** The invariant every value reachable through the accessors keeps. */
  predicate WellFormed(d: DashedStrokeParamsData)
  {
    Normalized(d.pattern)
  }

  /** The values a new `PainterDashedStrokeParams` starts with. */
  function Default(): (d: DashedStrokeParamsData)
    ensures WellFormed(d)
    ensures MiterLimit(d) == 15.0 && IntendedWidth(d) == 2.0 && DashOffset(d) == 0.0
    ensures StoredPattern(d) == []
  {
    DashedStrokeParamsData(15.0, 2.0, 0.0, [])
  }

  /** The `miter_limit()` getter: setting the value it returns changes nothing. */
  function MiterLimit(d: DashedStrokeParamsData): (r: real)
    ensures SetMiterLimit(d, r) == d
  {
    d.miterLimit
  }

  /** The `width()` getter as written: it returns the miter limit field. */
  function Width(d: DashedStrokeParamsData): (r: real)
    ensures r == MiterLimit(d)
    ensures SetMiterLimit(d, r) == d
  {
    d.miterLimit
  }

  /** The getter the `width()` accessor evidently means: the width field. */
  function IntendedWidth(d: DashedStrokeParamsData): (r: real)
    ensures SetWidth(d, r) == d
  {
    d.width
  }

  /** The `dash_offset()` getter: setting the value it returns changes nothing. */
  function DashOffset(d: DashedStrokeParamsData): (r: real)
    ensures SetDashOffset(d, r) == d
  {
    d.dashOffset
  }

  /** The `dash_pattern()` getter: on a well-formed payload, setting the
      pattern it returns changes nothing. */
  function StoredPattern(d: DashedStrokeParamsData): (r: seq<DashElement>)
    ensures WellFormed(d) ==> Normalized(r) && SetDashPattern(d, r) == d
  {
    // the lemma call only discharges the ensures; both branches return the field
    if WellFormed(d) then
      DashPatternLemmas.NormalizeFixesNormalized(d.pattern);
      d.pattern
    else
      d.pattern
  }

  function SetMiterLimit(d: DashedStrokeParamsData, f: real): (r: DashedStrokeParamsData)
    ensures r.miterLimit == f
    ensures r.width == d.width && r.dashOffset == d.dashOffset
    ensures r.pattern == d.pattern
  {
    d.(miterLimit := f)
  }

  function SetWidth(d: DashedStrokeParamsData, f: real): (r: DashedStrokeParamsData)
    ensures r.width == f
    ensures r.miterLimit == d.miterLimit && r.dashOffset == d.dashOffset
    ensures r.pattern == d.pattern
  {
    d.(width := f)
  }

  function SetDashOffset(d: DashedStrokeParamsData, f: real): (r: DashedStrokeParamsData)
    ensures r.dashOffset == f
    ensures r.miterLimit == d.miterLimit && r.width == d.width
    ensures r.pattern == d.pattern
  {
    d.(dashOffset := f)
  }

  /** The `dash_pattern` setter: stores the normalised pattern, which is well
      formed, keeps the clamped draw and space totals of `f`, is empty
      exactly when every element of `f` is blank, and draws exactly the
      positions the clamped `f` draws. */
  function SetDashPattern(d: DashedStrokeParamsData, f: seq<DashElement>): (r: DashedStrokeParamsData)
    ensures WellFormed(r)
    ensures DrawTotal(r.pattern) == ClampedDrawTotal(f)
    ensures SpaceTotal(r.pattern) == ClampedSpaceTotal(f)
    ensures r.pattern == [] <==> forall j :: 0 <= j < |f| ==> IsBlank(f[j])
    ensures forall x :: Drawn(r.pattern, x) <==> Drawn(ClampAll(f), x)
    ensures r.miterLimit == d.miterLimit && r.width == d.width
    ensures r.dashOffset == d.dashOffset
  {
    DashPatternLemmas.NormalizeIsNormalized(f);
    DashPatternLemmas.NormalizeKeepsTotals(f);
    DashPatternLemmas.NormalizeDrawsAll(f);
    d.(pattern := Normalize(f))
  }

  /** The `width()` getter ignores what the `width(float)` setter stores: after
      setting the width of a default value to 3 it still reports 15. The
      corrected getter `IntendedWidth` returns the width set. */
  lemma WidthIgnoresSetWidth(d: DashedStrokeParamsData, f: real)
    ensures Width(SetWidth(d, f)) == MiterLimit(d)
    ensures Width(SetWidth(Default(), 3.0)) != 3.0
    ensures IntendedWidth(SetWidth(d, f)) == f
  {
  }

  /** Reading a pattern back and setting it again changes nothing. */
  lemma SetStoredPatternIsIdentity(d: DashedStrokeParamsData)
    requires WellFormed(d)
    ensures SetDashPattern(d, StoredPattern(d)) == d
  {
    DashPatternLemmas.NormalizeFixesNormalized(d.pattern);
  }

  // ---------------------------------------------------------------------
  // Packing

  /** Number of words the block occupies: the static block and the pattern
      table of two words per pair, each rounded up to the alignment. */
  function DataSize(d: DashedStrokeParamsData, layout: DashedLayout, alignment: nat): (r: nat)
    requires alignment > 0
    ensures IsMultiple(r, alignment)
    ensures layout.PatternStart(alignment) + 2 * |d.pattern| <= r
    ensures r < layout.PatternStart(alignment) + 2 * |d.pattern| + alignment
  {
    var a := RoundUpToMultiple(layout.staticDataSize, alignment);
    var b := RoundUpToMultiple(2 * |d.pattern|, alignment);
    var qa: nat :| a == alignment * qa;
    var qb: nat :| b == alignment * qb;
    assert a + b == alignment * (qa + qb);
    a + b
  }

  /** What the non-empty branch of `pack_data` leaves in `out`: the total
      length at `totalOffset`, the cumulative table of `p` from `start` on,
      the sentinel in every word after the table, a table that gives the
      pattern back, and, for non-negative lengths, a non-decreasing region
      whose sentinel is above every table entry. */
  ghost predicate PatternPacked(p: seq<DashElement>, start: nat, totalOffset: nat, out: seq<real>)
  {
    && totalOffset < |out|
    && out[totalOffset] == Length(p)
    && TableAt(p, start, out)
    && PaddedFrom(p, start + 2 * |p|, out)
    && UnpackPattern(out, start, |p|) == p
    && (NonNegative(p) ==>
          forall k :: start <= k < start + 2 * |p| ==> out[k] <= Length(p) < Sentinel(p))
    && (NonNegative(p) ==> forall k, l :: start <= k <= l < |out| ==> out[k] <= out[l])
  }

  /** `pack_data`: writes the three fields; for an empty pattern writes -1 as
      the total length and nothing else; otherwise packs the pattern region
      after the aligned static block as `PatternPacked` describes and leaves
      the rest of the static block alone. */
  method PackData(d: DashedStrokeParamsData, layout: DashedLayout, alignment: nat, dst: seq<real>)
    returns (out: seq<real>)
    requires layout.Valid() && alignment > 0
    requires DataSize(d, layout, alignment) <= |dst|
    ensures |out| == |dst|
    ensures out[layout.miterLimitOffset] == d.miterLimit
    ensures out[layout.widthOffset] == d.width
    ensures out[layout.dashOffsetOffset] == d.dashOffset
    ensures d.pattern == [] ==> out[layout.totalLengthOffset] == -1.0
    ensures d.pattern == [] ==> forall k :: 0 <= k < |dst| && !layout.IsField(k) ==> out[k] == dst[k]
    ensures d.pattern != [] ==>
              PatternPacked(d.pattern, layout.PatternStart(alignment), layout.totalLengthOffset, out)
    ensures d.pattern != [] ==>
              forall k :: 0 <= k < layout.PatternStart(alignment) && !layout.IsField(k) ==> out[k] == dst[k]
  {
    var p := d.pattern;
    out := PackFields(d, layout, dst);
    if |p| == 0 {
      out := out[layout.totalLengthOffset := -1.0];
    } else {
      out := PackPattern(p, layout.PatternStart(alignment), layout.totalLengthOffset, out);
    }
  }

  /** The three field writes every call of `pack_data` starts with. */
  method PackFields(d: DashedStrokeParamsData, layout: DashedLayout, dst: seq<real>)
    returns (out: seq<real>)
    requires layout.Valid() && layout.staticDataSize <= |dst|
    ensures |out| == |dst|
    ensures out[layout.miterLimitOffset] == d.miterLimit
    ensures out[layout.widthOffset] == d.width
    ensures out[layout.dashOffsetOffset] == d.dashOffset
    ensures forall k :: 0 <= k < |dst| && !layout.IsField(k) ==> out[k] == dst[k]
    ensures out[layout.totalLengthOffset] == dst[layout.totalLengthOffset]
  {
    out := dst[layout.miterLimitOffset := d.miterLimit];
    out := out[layout.widthOffset := d.width];
    out := out[layout.dashOffsetOffset := d.dashOffset];
  }

  /** The non-empty branch of `pack_data`: the table from `start` on, the
      sentinel in every word after it, then the total length at
      `totalOffset`, a word before the table. */
  method PackPattern(p: seq<DashElement>, start: nat, totalOffset: nat, words: seq<real>)
    returns (out: seq<real>)
    requires |p| > 0 && totalOffset < start && start + 2 * |p| <= |words|
    ensures |out| == |words|
    ensures PatternPacked(p, start, totalOffset, out)
    ensures forall k :: 0 <= k < start && k != totalOffset ==> out[k] == words[k]
  {
    var total: real;
    out, total := WriteTable(p, start, words);
    out := WritePadding(p, total, start + 2 * |p|, out);
    ghost var region := out;
    out := out[totalOffset := total];
    PackedRegionUnaffected(p, start, region, totalOffset, total);
    UnpackTable(p, start, out);
    if NonNegative(p) {
      PackedRegionOrdered(p, start, out);
    }
  }

  /** Writing a word before the pattern region leaves the table and the
      padding as they were. */
  lemma PackedRegionUnaffected(p: seq<DashElement>, start: nat, words: seq<real>, k: nat, v: real)
    requires k < start
    requires TableAt(p, start, words) && PaddedFrom(p, start + 2 * |p|, words)
    ensures TableAt(p, start, words[k := v]) && PaddedFrom(p, start + 2 * |p|, words[k := v])
  {
  }

  /** The first loop of `pack_data`: the running total after each draw and
      after each space, written from `start` on. */
  method WriteTable(p: seq<DashElement>, start: nat, words: seq<real>)
    returns (out: seq<real>, total: real)
    requires start + 2 * |p| <= |words|
    ensures |out| == |words|
    ensures total == Length(p)
    ensures TableAt(p, start, out)
    ensures forall k :: 0 <= k < |words| && !(start <= k < start + 2 * |p|) ==> out[k] == words[k]
  {
    out := words;
    total := 0.0;
    var i := 0;
    while i < |p|
      invariant 0 <= i <= |p|
      invariant |out| == |words|
      invariant total == Length(p[..i])
      invariant forall j :: 0 <= j < i ==>
                  out[start + 2 * j] == DrawEnd(p, j) && out[start + 2 * j + 1] == SpaceEnd(p, j)
      invariant forall k :: 0 <= k < |words| && !(start <= k < start + 2 * i) ==> out[k] == words[k]
    {
      PrefixLengthStep(p, i);
      total := total + p[i].draw;
      out := out[start + 2 * i := total];
      total := total + p[i].space;
      out := out[start + 2 * i + 1 := total];
      i := i + 1;
    }
    assert p[..i] == p;
  }

  /** The second loop of `pack_data`: every word from `from` to the end of
      the destination receives `(total + 1) * 2`. */
  method WritePadding(p: seq<DashElement>, total: real, from: nat, words: seq<real>)
    returns (out: seq<real>)
    requires total == Length(p)
    ensures |out| == |words|
    ensures PaddedFrom(p, from, out)
    ensures forall k :: 0 <= k < |words| && k < from ==> out[k] == words[k]
  {
    out := words;
    var k := from;
    while k < |out|
      invariant |out| == |words|
      invariant forall j :: from <= j < k && j < |out| ==> out[j] == Sentinel(p)
      invariant forall j :: 0 <= j < |words| && j < from ==> out[j] == words[j]
    {
      // larger than the total length, so that a shader can tell that it has
      // reached the end of the pattern
      out := out[k := (total + 1.0) * 2.0];
      k := k + 1;
    }
  }
}
