# Stroke shader data of fastuidraw, in Dafny

This project models the shader-data payloads that fastuidraw's painter packs
for stroking: `PainterStrokeParams` (miter limit and width) and
`PainterDashedStrokeParams` (miter limit, width, dash offset and a dash
pattern). The model covers:

- the normalisation the `dash_pattern` setter applies to a list of
  `(draw, space)` pairs;
- the word counts `data_size(alignment)` reports;
- the layout `pack_data` writes into the packer's store of generic words.

The dash pattern is packed as a table of cumulative lengths. The words after
the table hold an end-of-pattern sentinel.

Lengths are `real`. The payloads are immutable datatypes, so `copy()` is
the identity on values. Modules:

- `Alignment`: `round_up_to_multiple`, defined as the least multiple of the
  alignment that is not below the value.
- `DashPattern`: the pattern element, the length sums, the normalisation
  (skip, clamp, merge) and the skip loop as the source writes it.
- `DashPatternLemmas`: shape, totals, first pair, which positions are
  drawn, idempotence, a worked example.
- `DashPatternLoop`: the setter's loops over a vector, proved equal to the
  functional normalisation.
- `DashTable`: the cumulative table and sentinel, reading the table back,
  and its ordering.
- `StrokeParams`, `DashedStrokeParams`: the two payloads, their accessors,
  `data_size` and `pack_data`.

The field offsets and unrounded block sizes come from an enumeration that is
not part of this model. They are parameters (`StrokeLayout`,
`DashedLayout`). `Valid()` requires the offsets to be distinct and to lie
inside the block. The packer's destination array is a `seq<real>`, and
`pack_data` returns it updated.

Worked example: `[(0,5),(3,0),(4,2),(0,1),(6,0)]` normalises to
`[(0,5),(7,3),(6,0)]`. The pair `(3,0)` has no space, so it absorbs the draw
of `(4,2)`. The pair `(0,1)` has no draw, so its space is added. The pair
`(6,0)` starts the last pair.

## Model

| member | source | states |
|---|---|---|
| Alignment.RoundUpToMultiple | src/fastuidraw/painter/painter_stroke_value.cpp:41-44 | the rounded size is a multiple of the alignment, not below the value and less than one block above it |
| Alignment.RoundUpIsLeast | src/fastuidraw/painter/painter_stroke_value.cpp:104-105 | no multiple of the alignment at or above the value is smaller than the rounded size |
| Alignment.RoundUpMonotone | src/fastuidraw/painter/painter_stroke_value.cpp:104-105 | rounding up preserves the order of sizes |
| DashPattern.SkipLeadingBlanks | src/fastuidraw/painter/painter_stroke_value.cpp:285-296 | the retained input is a suffix of the input, every dropped pair has draw and space both <= 0, and the first retained pair is not of that kind |
| DashPattern.Merged | src/fastuidraw/painter/painter_stroke_value.cpp:302-332 | the merge pass writes at least one pair and never more pairs than it reads |
| DashPattern.Step | src/fastuidraw/painter/painter_stroke_value.cpp:316-330 | one merge step either rewrites the pair being written or appends one new pair; the pairs written before it never change |
| DashPattern.Normalize | src/fastuidraw/painter/painter_stroke_value.cpp:277-334 | the stored pattern is no longer than the retained input, and it is empty exactly when every input pair has draw and space both <= 0 |
| DashPattern.SkipAsWritten | src/fastuidraw/painter/painter_stroke_value.cpp:285-290 | the unbounded skip loop reads past the end exactly when every pair of the input is blank, and otherwise retains the same suffix as the bounded scan |
| DashPattern.SkipAsWrittenReadsPastEnd | src/fastuidraw/painter/painter_stroke_value.cpp:287-296 | the empty input and `[(0,0),(0,0)]` make the skip loop read past the end, while the bounded normalisation stores the empty pattern |
| DashPatternLemmas.StepTotals | src/fastuidraw/painter/painter_stroke_value.cpp:316-330 | each of the three branches of a merge step adds exactly the clamped draw and the clamped space of the pair it reads |
| DashPatternLemmas.MergedTotals | src/fastuidraw/painter/painter_stroke_value.cpp:304-331 | the merge pass keeps the clamped draw total and the clamped space total of its input |
| DashPatternLemmas.MergedShape | src/fastuidraw/painter/painter_stroke_value.cpp:298-331 | started on a non-blank pair the merge pass yields a normalised pattern whose first pair is at least the clamped first input |
| DashPatternLemmas.NormalizeIsNormalized | src/fastuidraw/painter/painter_stroke_value.cpp:298-330 | every stored length is >= 0, every pair but the last has a positive space, every pair but the first has a positive draw, and the first pair is not blank |
| DashPatternLemmas.NormalizeFirstPair | src/fastuidraw/painter/painter_stroke_value.cpp:287-305 | the first stored pair starts from the first non-blank input pair: each length is at least its clamped value, and the draw is exactly its clamped draw when that pair has a positive space |
| DashPatternLemmas.NormalizeKeepsTotals | src/fastuidraw/painter/painter_stroke_value.cpp:304-330 | the stored draw total equals the input's sum of max(0, draw), the stored space total equals its sum of max(0, space), so the total length is kept |
| DashPatternLemmas.StepDraws | src/fastuidraw/painter/painter_stroke_value.cpp:316-330 | one merge step draws what was drawn before plus the clamped draw of the new pair, placed right after the end of the pattern |
| DashPatternLemmas.MergedDraws | src/fastuidraw/painter/painter_stroke_value.cpp:302-332 | the merge pass draws exactly the positions its clamped input draws |
| DashPatternLemmas.ZeroPrefixDraws | src/fastuidraw/painter/painter_stroke_value.cpp:285-290 | the clamped leading blanks are zero-length pairs, which change neither what is drawn nor the length |
| DashPatternLemmas.NormalizeDraws | src/fastuidraw/painter/painter_stroke_value.cpp:277-334 | a position of the period is drawn by the stored pattern exactly when it is drawn by the clamped input: only zero lengths are joined into their neighbours |
| DashPatternLemmas.NormalizeFixesNormalized | src/fastuidraw/painter/painter_stroke_value.cpp:316-330 | a pattern already in normalised shape is stored unchanged |
| DashPatternLemmas.NormalizeIdempotent | src/fastuidraw/painter/painter_stroke_value.cpp:277-334 | normalising a stored pattern again changes nothing |
| DashPatternLemmas.NormalizeExample | src/fastuidraw/painter/painter_stroke_value.cpp:316-330 | `[(0,5),(3,0),(4,2),(0,1),(6,0)]` is stored as `[(0,5),(7,3),(6,0)]` |
| DashPatternLoop.SkipBlanks | src/fastuidraw/painter/painter_stroke_value.cpp:285-290 | the skip loop, bounded by the input length, retains the same suffix as the functional skip |
| DashPatternLoop.MergePass | src/fastuidraw/painter/painter_stroke_value.cpp:302-332 | the array loop with its write cursor produces the functional merge of the retained input |
| DashPatternLoop.MergeOne | src/fastuidraw/painter/painter_stroke_value.cpp:316-330 | one iteration on the vector joins the input pair into the pair being written or starts one new pair, exactly as a functional merge step does |
| DashPatternLoop.StoreDashPattern | src/fastuidraw/painter/painter_stroke_value.cpp:277-334 | the setter's loops store exactly the functional normalisation |
| DashTable.UnpackTable | src/fastuidraw/painter/painter_stroke_value.cpp:124-131 | differencing consecutive entries of the cumulative table gives back every pair of the pattern |
| DashTable.PackedRegionOrdered | src/fastuidraw/painter/painter_stroke_value.cpp:124-137 | for non-negative lengths the last table entry is the total, every entry is at most the total and below the sentinel `(total+1)*2`, and the region is non-decreasing |
| StrokeParams.Default | src/fastuidraw/painter/painter_stroke_value.cpp:27-30 | a new payload has miter limit 15 and width 2 |
| StrokeParams.MiterLimit | src/fastuidraw/painter/painter_stroke_value.cpp:154-162 | setting the miter limit the getter returns leaves the payload unchanged |
| StrokeParams.Width | src/fastuidraw/painter/painter_stroke_value.cpp:164-172 | the `width()` getter as written returns the miter limit: it agrees with `miter_limit()`, and setting the miter limit to it changes nothing |
| StrokeParams.SetMiterLimit | src/fastuidraw/painter/painter_stroke_value.cpp:174-183 | the miter limit field holds the value set, and the width is unchanged |
| StrokeParams.SetWidth | src/fastuidraw/painter/painter_stroke_value.cpp:185-194 | the width field holds the value set, and the miter limit is unchanged |
| StrokeParams.WidthIgnoresSetWidth | src/fastuidraw/painter/painter_stroke_value.cpp:164-172 | the `width()` getter as written returns the miter limit whatever width was set; after setting width 3 on a new payload it reports 15; the corrected getter returns the width set |
| StrokeParams.IntendedWidth | src/fastuidraw/painter/painter_stroke_value.cpp:164-172 | the corrected `width()` getter: setting the width it returns leaves the payload unchanged |
| StrokeParams.DataSize | src/fastuidraw/painter/painter_stroke_value.cpp:39-44 | the block size is a multiple of the alignment, not below the unrounded size and less than one block above it |
| StrokeParams.PackData | src/fastuidraw/painter/painter_stroke_value.cpp:46-53 | packing changes only the miter-limit and width words and keeps the destination length |
| StrokeParams.UnpackPackData | src/fastuidraw/painter/painter_stroke_value.cpp:46-53 | reading the two field words back after packing yields the payload |
| DashedStrokeParams.Default | src/fastuidraw/painter/painter_stroke_value.cpp:85-90 | a new payload has miter limit 15, width 2, dash offset 0 and an empty, well-formed pattern |
| DashedStrokeParams.MiterLimit | src/fastuidraw/painter/painter_stroke_value.cpp:204-212 | setting the miter limit the getter returns leaves the payload unchanged |
| DashedStrokeParams.Width | src/fastuidraw/painter/painter_stroke_value.cpp:214-222 | the `width()` getter as written returns the miter limit: it agrees with `miter_limit()`, and setting the miter limit to it changes nothing |
| DashedStrokeParams.DashOffset | src/fastuidraw/painter/painter_stroke_value.cpp:246-254 | setting the dash offset the getter returns leaves the payload unchanged |
| DashedStrokeParams.StoredPattern | src/fastuidraw/painter/painter_stroke_value.cpp:267-275 | on a well-formed payload the returned pattern is in normalised shape and setting it leaves the payload unchanged, which pins it to the stored pattern |
| DashedStrokeParams.SetMiterLimit | src/fastuidraw/painter/painter_stroke_value.cpp:224-233 | the miter limit field holds the value set; width, dash offset and pattern are unchanged |
| DashedStrokeParams.SetWidth | src/fastuidraw/painter/painter_stroke_value.cpp:235-244 | the width field holds the value set; miter limit, dash offset and pattern are unchanged |
| DashedStrokeParams.SetDashOffset | src/fastuidraw/painter/painter_stroke_value.cpp:256-265 | the dash offset field holds the value set; the other fields are unchanged |
| DashedStrokeParams.SetDashPattern | src/fastuidraw/painter/painter_stroke_value.cpp:277-334 | the stored pattern is normalised, keeps the clamped draw and space totals of the input, is empty exactly when every input pair is blank, and draws exactly the positions the clamped input draws; the other fields are unchanged |
| DashedStrokeParams.WidthIgnoresSetWidth | src/fastuidraw/painter/painter_stroke_value.cpp:214-222 | the `width()` getter as written returns the miter limit whatever width was set; after setting width 3 on a new payload it reports 15; the corrected getter returns the width set |
| DashedStrokeParams.IntendedWidth | src/fastuidraw/painter/painter_stroke_value.cpp:214-222 | the corrected `width()` getter: setting the width it returns leaves the payload unchanged |
| DashedStrokeParams.SetStoredPatternIsIdentity | src/fastuidraw/painter/painter_stroke_value.cpp:267-334 | setting the pattern read back from a payload leaves the payload unchanged |
| DashedStrokeParams.DataSize | src/fastuidraw/painter/painter_stroke_value.cpp:99-106 | the block size is the least multiple of the alignment with room for the aligned static block plus two words per pair: it is at least that much and less than one block above it |
| DashedStrokeParams.PackData | src/fastuidraw/painter/painter_stroke_value.cpp:108-144 | the three fields are written. An empty pattern gets total -1 and nothing else changes. Otherwise the cumulative table, the sentinel padding and the total are written from the aligned start, with the rest of the static block untouched |
| DashedStrokeParams.PackFields | src/fastuidraw/painter/painter_stroke_value.cpp:113-115 | the miter limit, width and dash offset words hold the payload's fields, and every other word, the total included, is unchanged |
| DashedStrokeParams.PackPattern | src/fastuidraw/painter/painter_stroke_value.cpp:117-139 | the non-empty branch leaves the total, the table, the sentinel padding, a table that reads back to the pattern, and for non-negative lengths an ordered region with the sentinel above every entry |
| DashedStrokeParams.WriteTable | src/fastuidraw/painter/painter_stroke_value.cpp:119-131 | entry 2i holds the length through draw i and entry 2i+1 the length through space i; the running total ends at the pattern length; other words are unchanged |
| DashedStrokeParams.WritePadding | src/fastuidraw/painter/painter_stroke_value.cpp:132-137 | every word from the end of the table to the end of the destination holds `(total+1)*2`; earlier words are unchanged |

## Findings

| source | as written | input that shows it | evidently intended | confidence | as-written member | corrected member |
|---|---|---|---|---|---|---|
| src/fastuidraw/painter/painter_stroke_value.cpp:287-290 | the skip loop tests `f.front()` with no check that `f` is non-empty | `[]`, or `[(0,0),(0,0)]` | stop at the end of the input and store the empty pattern, as the emptiness test at lines 292-296 expects | high (not executed) | DashPattern.SkipAsWrittenReadsPastEnd | DashPattern.SkipLeadingBlanks |
| src/fastuidraw/painter/painter_stroke_value.cpp:164-172 | `width()` returns `m_miter_limit` (same at lines 214-222) | set width 3 on a new payload; `width()` reports 15 | return `m_width` | high (not executed) | StrokeParams.WidthIgnoresSetWidth | StrokeParams.IntendedWidth |

`DashPattern.Normalize` and everything after it use the bounded scan.
`IntendedWidth` is the corrected getter. `WidthIgnoresSetWidth` proves that
it returns the width set, while `Width` stays as written and reports the
miter limit, so the model claims no round trip for `width()`. `DashedStrokeParams` has the same pair of members.

## Left out

- src/fastuidraw/painter/backend/private/painter_packer.hpp is not part of this model. It declares the packer, but the room computation, command splitting, index adjustment, header writing and callback dispatch live in painter_packer.cpp, which this model does not cover.
- inc/fastuidraw/arc_tessellated_path.hpp and inc/fastuidraw/painter/glyph_sequence.hpp are not part of this model. They hold declarations of tessellation and glyph layout with no visible behaviour beyond trivial setters.
- IEEE single-precision rounding, -0.0 and NaN in the length arithmetic are not modelled. Lengths are reals, so sums are exact.
- Unsigned wrap-around in `data_size` (`2 * size` and the sum) is not modelled. Sizes are unbounded naturals.
- The `DataBase` base class, `copy()`, the `dynamic_cast` assertions and heap ownership are not modelled. The payloads are values of a datatype.
- StrokeParams.PackData: takes no alignment, because the source marks the parameter unused.
- DashedStrokeParams.PackData: the destination is required to hold at least `data_size(alignment)` words, the size the packer reserves. The padding loop fills to the end of whatever destination it is given, as the source does.
- DashPatternLemmas.NormalizeFirstPair: states bounds rather than equality with the clamped first retained pair. A later pair can still be merged into the first one: `(3,0)` followed by `(4,2)` is stored as `(7,2)`.
- DashPattern.SkipAsWritten: models the out-of-bounds read as an explicit outcome. What the source actually reads past the end is undefined and is not modelled.
