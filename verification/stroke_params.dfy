/**
 Shader data of a plain (undashed) stroke: `PainterStrokeParamsData`
 together with the accessors of `PainterStrokeParams`. The payload is an
 immutable value, so `copy()` is the identity on values.
 */
module StrokeParams {
  import opened Alignment

  /** Word offsets of the fields and the unrounded size of the block. The
      enumeration defining them is not part of this model; any layout with
      distinct offsets inside the block is admitted. */
  datatype StrokeLayout = StrokeLayout(miterLimitOffset: nat, widthOffset: nat, dataSize: nat)
  {
    predicate Valid()
    {
      && miterLimitOffset != widthOffset
      && miterLimitOffset < dataSize
      && widthOffset < dataSize
    }
  }

  datatype StrokeParamsData = StrokeParamsData(miterLimit: real, width: real)

  /** The values a new `PainterStrokeParams` starts with. */
  function Default(): (d: StrokeParamsData)
    ensures MiterLimit(d) == 15.0 && IntendedWidth(d) == 2.0
  {
    StrokeParamsData(15.0, 2.0)
  }

  /** The `miter_limit()` getter: setting the value it returns changes nothing. */
  function MiterLimit(d: StrokeParamsData): (r: real)
    ensures SetMiterLimit(d, r) == d
  {
    d.miterLimit
  }

  /** The `width()` getter as written: it returns the miter limit field. */
  function Width(d: StrokeParamsData): (r: real)
    ensures r == MiterLimit(d)
    ensures SetMiterLimit(d, r) == d
  {
    d.miterLimit
  }

  /** The getter the `width()` accessor evidently means: the width field. */
  function IntendedWidth(d: StrokeParamsData): (r: real)
    ensures SetWidth(d, r) == d
  {
    d.width
  }

  function SetMiterLimit(d: StrokeParamsData, f: real): (r: StrokeParamsData)
    ensures r.miterLimit == f
    ensures r.width == d.width
  {
    d.(miterLimit := f)
  }

  function SetWidth(d: StrokeParamsData, f: real): (r: StrokeParamsData)
    ensures r.width == f
    ensures r.miterLimit == d.miterLimit
  {
    d.(width := f)
  }

  /** The `width()` getter ignores what the `width(float)` setter stores: after
      setting the width of a default value to 3 it still reports 15. The
      corrected getter `IntendedWidth` returns the width set. */
  lemma WidthIgnoresSetWidth(d: StrokeParamsData, f: real)
    ensures Width(SetWidth(d, f)) == MiterLimit(d)
    ensures Width(SetWidth(Default(), 3.0)) != 3.0
    ensures IntendedWidth(SetWidth(d, f)) == f
  {
  }

  /** Number of words the block occupies: the block rounded up to the alignment. */
  function DataSize(layout: StrokeLayout, alignment: nat): (r: nat)
    requires alignment > 0
    ensures IsMultiple(r, alignment)
    ensures layout.dataSize <= r < layout.dataSize + alignment
  {
    RoundUpToMultiple(layout.dataSize, alignment)
  }

  /** Writes the two fields at their offsets; the alignment is not used. */
  function PackData(d: StrokeParamsData, layout: StrokeLayout, dst: seq<real>): (out: seq<real>)
    requires layout.Valid() && layout.dataSize <= |dst|
    ensures |out| == |dst|
    ensures forall k :: 0 <= k < |dst| && k != layout.miterLimitOffset && k != layout.widthOffset ==>
              out[k] == dst[k]
  {
    dst[layout.miterLimitOffset := d.miterLimit][layout.widthOffset := d.width]
  }

  /** What a shader reads back from the packed block. */
  function Unpack(layout: StrokeLayout, words: seq<real>): StrokeParamsData
    requires layout.Valid() && layout.dataSize <= |words|
  {
    StrokeParamsData(words[layout.miterLimitOffset], words[layout.widthOffset])
  }

  /** Packing loses nothing: reading the fields back yields the payload. */
  lemma UnpackPackData(d: StrokeParamsData, layout: StrokeLayout, dst: seq<real>)
    requires layout.Valid() && layout.dataSize <= |dst|
    ensures Unpack(layout, PackData(d, layout, dst)) == d
  {
  }
}
