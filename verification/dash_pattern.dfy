/**
 The dash pattern of a dashed stroke: an ordered list of (draw, space)
 length pairs, and the normalisation that `PainterDashedStrokeParams`
 applies when a pattern is set. Lengths are modelled as reals; IEEE
 rounding of the single-precision source is not modelled.
 */
module DashPattern {

  /** One `DashPatternElement`: draw for `draw`, then skip for `space`. */
  datatype DashElement = DashElement(draw: real, space: real)

  /** `std::max(0.0f, x)`. */
  function Max0(x: real): real
  {
    if 0.0 < x then x else 0.0
  }

  /** Both lengths clamped to be non-negative. */
  function Clamp(e: DashElement): DashElement
  {
    DashElement(Max0(e.draw), Max0(e.space))
  }

  /** An element that contributes nothing: neither length is positive. */
  predicate IsBlank(e: DashElement)
  {
    e.draw <= 0.0 && e.space <= 0.0
  }

  predicate NonNegative(p: seq<DashElement>)
  {
    forall i :: 0 <= i < |p| ==> p[i].draw >= 0.0 && p[i].space >= 0.0
  }

  /** The shape every stored pattern has: lengths non-negative, every pair
      but the last has a positive space, every pair but the first has a
      positive draw (only the first may start with an empty draw), and the
      first pair is not blank. */
  predicate Normalized(p: seq<DashElement>)
  {
    && NonNegative(p)
    && (forall i :: 0 <= i < |p| - 1 ==> p[i].space > 0.0)
    && (forall i :: 0 < i < |p| ==> p[i].draw > 0.0)
    && (|p| > 0 ==> !IsBlank(p[0]))
  }

  // ---------------------------------------------------------------------
  // Length sums. Each is defined through the last element so that it
  // follows a left-to-right scan of the pattern.

  function DrawTotal(p: seq<DashElement>): real
  {
    if |p| == 0 then 0.0 else DrawTotal(p[..|p| - 1]) + p[|p| - 1].draw
  }

  function SpaceTotal(p: seq<DashElement>): real
  {
    if |p| == 0 then 0.0 else SpaceTotal(p[..|p| - 1]) + p[|p| - 1].space
  }

  /** Total length of one period of the pattern. */
  function Length(p: seq<DashElement>): real
  {
    DrawTotal(p) + SpaceTotal(p)
  }

  /** Draw total after clamping every draw length to be non-negative. */
  function ClampedDrawTotal(p: seq<DashElement>): real
  {
    if |p| == 0 then 0.0 else ClampedDrawTotal(p[..|p| - 1]) + Max0(p[|p| - 1].draw)
  }

  /** Space total after clamping every space length to be non-negative. */
  function ClampedSpaceTotal(p: seq<DashElement>): real
  {
    if |p| == 0 then 0.0 else ClampedSpaceTotal(p[..|p| - 1]) + Max0(p[|p| - 1].space)
  }

  /** Every element clamped: the pattern the merge loop effectively reads. */
  function ClampAll(p: seq<DashElement>): (r: seq<DashElement>)
    ensures |r| == |p| && forall i :: 0 <= i < |p| ==> r[i] == Clamp(p[i])
  {
    seq(|p|, i requires 0 <= i < |p| => Clamp(p[i]))
  }

  /** True iff position `x` of one period of `p` lies on a drawn length: for
      some pair, `x` is at or past the pair's start and before its draw ends. */
  predicate Drawn(p: seq<DashElement>, x: real)
    decreases |p|
  {
    && |p| > 0
    && var before := p[..|p| - 1];
       (Drawn(before, x) || Length(before) <= x < Length(before) + p[|p| - 1].draw)
  }

  // ---------------------------------------------------------------------
  // Normalisation

  /** The leading blank elements are dropped. The loop in the source has no
      bound and reads past the end of an all-blank input (see
      `SkipAsWritten`); here the scan stops at the end and yields the empty
      suffix, which is what the emptiness test after it expects. */
  function SkipLeadingBlanks(f: seq<DashElement>): (r: seq<DashElement>)
    ensures |r| <= |f| && r == f[|f| - |r|..]
    ensures forall j :: 0 <= j < |f| - |r| ==> IsBlank(f[j])
    ensures |r| > 0 ==> !IsBlank(r[0])
  {
    if |f| == 0 then []
    else if IsBlank(f[0]) then SkipLeadingBlanks(f[1..])
    else f
  }

  /** One iteration of the merge loop: `acc` is the output written so far,
      whose last element is the one being written, and `e` the next input. */
  function Step(acc: seq<DashElement>, e: DashElement): (r: seq<DashElement>)
    requires |acc| > 0
    ensures |acc| <= |r| <= |acc| + 1
    ensures r[..|acc| - 1] == acc[..|acc| - 1]
  {
    var last := |acc| - 1;
    var cur := acc[last];
    if cur.space <= 0.0 then
      // a pair without space is joined with the next one by adding draws
      acc[last := DashElement(cur.draw + Max0(e.draw), Max0(e.space))]
    else if e.draw <= 0.0 then
      // a pair without draw adds its space to the current pair
      acc[last := DashElement(cur.draw, cur.space + Max0(e.space))]
    else
      acc + [Clamp(e)]
  }

  /** The merge loop run over all of `g`, the first element seeding the output. */
  function Merged(g: seq<DashElement>): (r: seq<DashElement>)
    requires |g| > 0
    ensures 0 < |r| <= |g|
  {
    if |g| == 1 then [Clamp(g[0])]
    else Step(Merged(g[..|g| - 1]), g[|g| - 1])
  }

  /** The pattern stored by the `dash_pattern` setter. */
  function Normalize(f: seq<DashElement>): (r: seq<DashElement>)
    ensures |r| <= |SkipLeadingBlanks(f)|
    ensures r == [] <==> forall j :: 0 <= j < |f| ==> IsBlank(f[j])
  {
    var g := SkipLeadingBlanks(f);
    if |g| == 0 then [] else Merged(g)
  }

  // ---------------------------------------------------------------------
  // The skip loop as written

  /** Outcome of the unbounded skip loop: the retained suffix, or a read of
      `front()` on an empty array. */
  datatype SkipOutcome = Retained(rest: seq<DashElement>) | ReadPastEnd

  /** The skip loop exactly as the source writes it: it tests `f.front()`
      before knowing that `f` is non-empty. */
  function SkipAsWritten(f: seq<DashElement>): (r: SkipOutcome)
    ensures r.ReadPastEnd? <==> forall j :: 0 <= j < |f| ==> IsBlank(f[j])
    ensures r.Retained? ==> r.rest == SkipLeadingBlanks(f) && |r.rest| > 0
  {
    if |f| == 0 then ReadPastEnd
    else if IsBlank(f[0]) then SkipAsWritten(f[1..])
    else Retained(f)
  }

  /** An all-blank input, the case the emptiness test after the scan is
      written for, makes the source read past the end of the array, while the
      bounded scan yields the empty pattern. */
  lemma SkipAsWrittenReadsPastEnd()
    ensures SkipAsWritten([DashElement(0.0, 0.0), DashElement(0.0, 0.0)]) == ReadPastEnd
    ensures SkipAsWritten([]) == ReadPastEnd
    ensures Normalize([DashElement(0.0, 0.0), DashElement(0.0, 0.0)]) == []
  {
  }
}
