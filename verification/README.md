# ListTile layout model

A Dafny model of the measurement and layout passes of `ListTile`, an Android
`ViewGroup` that shows one list row with five child slots:
- an optional leading icon;
- a required title line, with an optional subtitle line stacked under it;
- an optional trailing icon;
- an optional extra text packed against the trailing icon.

Everything is in `listtile.dfy`, in module `ListTileLayout`.

- **Construction.** `ResolveSlots` turns the resolved styled attributes into
  the set of children that exist and their four margins. A margin that has no
  child stays 0. A missing title is rejected with `Err(TitleMissing)`.
  `ListTile` is a class. It holds these slots as `const` fields, because Java
  assigns them only in the constructor. It also holds the paddings, the sizes
  the children were last measured at, and the layout-param widths of title,
  subtitle and extra.
- **Measure pass.** `ListTile.Measure` takes the sizes the host's
  `measureChild` reports as a parameter. It adds the natural width up and
  takes the natural height as a running maximum, in the same order and with
  the same branches as `onMeasure`. If the row overflows the offered width,
  it shrinks one column's layout-param width. It reports the offered size
  when the mode is EXACTLY and the natural size otherwise. `Measure` is
  proved against these reference definitions:
  - `Columns`, `SumWidths` and `MaxHeight`: the natural size as a sum and a
    maximum over the columns that exist.
  - `ShrinkPolicy`: which column gives way.
- **Null dereference.** In one case `onMeasure` dereferences an extra child
  that does not exist: the row overflows, the title column is not wider than
  the (absent) extra text, and there is no extra text. The model returns
  `Err(NullExtra)` there, with the layout-param widths untouched.
- **Layout pass.** `ListTile.Layout` advances a left edge for leading and the
  title column and a right edge for trailing and extra, as `onLayout` does.
  It returns the child rectangles, which are specified by `Place`. Vertical
  centring uses `TruncHalf`, which rounds toward zero like Java's `/ 2`.
  Dafny's `/` would floor, and the centring numerator is negative whenever a
  child is taller than the space between the paddings.

The measure pass reports the natural width in AT_MOST mode even when that
exceeds the offered size: the code does not clamp. It also decides to shrink
by comparing against the offered size whatever the mode. The model does both,
as the code does.

## Model

| member | source | states |
|---|---|---|
| `ListTileLayout.TruncHalf` | library/src/main/java/com/nightkyb/listtile/ListTile.java:245 | the centring quotient is Java's `/ 2`: its remainder is 0 or 1 for a non-negative numerator and 0 or -1 for a negative one |
| `ListTileLayout.ResolveSlots` | library/src/main/java/com/nightkyb/listtile/ListTile.java:52-145 | a child exists exactly when its attribute is set; its margin takes the resolved attribute value only then, so every margin without a child is 0; an unset title is an error |
| `ListTileLayout.ListTile.constructor` | library/src/main/java/com/nightkyb/listtile/ListTile.java:52-145 | the tile holds the slots resolved from its attributes, so its margin invariant holds; the paddings are the given ones; the title, subtitle and extra layout-param widths start as WRAP_CONTENT |
| `ListTileLayout.TitleColumnHeightIgnoresAbsentSubtitle` | library/src/main/java/com/nightkyb/listtile/ListTile.java:179-189 | under the margin invariant, the unconditional `+ subtitleTopMargin` in the height adds nothing when there is no subtitle, so the sum is the height of the title/subtitle block |
| `ListTileLayout.NaturalWidthIsSumOfParts` | library/src/main/java/com/nightkyb/listtile/ListTile.java:154-201 | the natural width is the two side paddings, plus each existing icon's width and margin, plus the wider of title and subtitle, plus the extra text's width and margin if it exists |
| `ListTileLayout.NaturalHeightIsRunningMax` | library/src/main/java/com/nightkyb/listtile/ListTile.java:155-202 | the natural height is the vertical paddings plus a running maximum from 0 over leading, trailing, the title block and extra, taken only over the children that exist |
| `ListTileLayout.NaturalHeightIsMaxOfPresent` | library/src/main/java/com/nightkyb/listtile/ListTile.java:155-202 | the natural height minus the paddings is at least 0 and at least the height of every existing child (title and subtitle as one block); it is 0 or equal to one of those heights |
| `ListTileLayout.ShrinkPolicyCases` | library/src/main/java/com/nightkyb/listtile/ListTile.java:204-227 | nothing shrinks iff the natural width fits. On overflow, the title column shrinks iff it is wider than the extra text; otherwise the extra text shrinks. The shrunk column loses exactly the overflow, so the natural width minus the shrink is the offered width. The new width is negative iff the overflow exceeds that column's width. The null-extra case happens iff the row overflows, there is no extra text, and both text lines measure 0 wide |
| `ListTileLayout.ShrinkMakesRowFit` | library/src/main/java/com/nightkyb/listtile/ListTile.java:206-226 | if the shrunk width is not negative and the shrunk children are then measured at it, the natural width equals the offered width and the next measure pass shrinks nothing |
| `ListTileLayout.ListTile.Measure` | library/src/main/java/com/nightkyb/listtile/ListTile.java:148-231 | records the measured size of each existing child and keeps the others. It sets the title width, and the subtitle's if a subtitle exists, to the shrink policy's width when the title column shrinks; it sets the extra width when the extra shrinks; otherwise all three stay unchanged. It reports each axis as the offered size in EXACTLY mode and the natural size otherwise. It fails with `NullExtra` exactly in the policy's null-extra case |
| `ListTileLayout.PlaceSizes` | library/src/main/java/com/nightkyb/listtile/ListTile.java:242-289 | exactly the existing children get a rectangle, and each rectangle's width and height are that child's measured width and height |
| `ListTileLayout.PlaceLeftPacked` | library/src/main/java/com/nightkyb/listtile/ListTile.java:240-269 | leading starts at the left padding; the title starts after leading and its right margin, or at the left padding when there is no leading; the subtitle shares the title's left edge and starts `subtitleTopMargin` below the title's bottom |
| `ListTileLayout.PlaceRightPacked` | library/src/main/java/com/nightkyb/listtile/ListTile.java:271-289 | trailing ends at `r - l - paddingRight`; extra ends `trailingLeftMargin` left of trailing's left edge when trailing exists, else at `r - l - paddingRight` |
| `ListTileLayout.PlaceCentred` | library/src/main/java/com/nightkyb/listtile/ListTile.java:242-289 | every child, and the title/subtitle pair as one block, is centred between the vertical paddings with truncating division: a fitting child has 0 or 1 more pixel below than above; a child that overhangs has 0 or 1 more pixel of overhang below than above |
| `ListTileLayout.ListTile.Layout` | library/src/main/java/com/nightkyb/listtile/ListTile.java:234-290 | the rectangles the layout pass assigns are exactly those of `Place`, computed from the tile's slots, paddings and last measured sizes |
| `ListTileLayout.ChildrenInsideAtNaturalHeight` | library/src/main/java/com/nightkyb/listtile/ListTile.java:148-290 | when the tile is laid out at least as tall as its natural height (as an EXACTLY height larger than the natural one gives), every child (title and subtitle as a block) lies between the top and bottom paddings |
| `ListTileLayout.SlackBeforeRightGroup` | library/src/main/java/com/nightkyb/listtile/ListTile.java:148-290 | the gap between the title column's right edge and the nearest right-packed child equals that child's left margin plus the tile's width beyond its natural width. So at the natural width the columns sit exactly their margins apart, and, for a non-negative margin, they overlap only when the tile is narrower |

## Left out

- Attribute resolution through `TypedArray`, the text, colour and text-size setup of the children, and `dp2px`/`sp2px`. These are host calls and floating-point density conversion. Resolved margins and paddings are given as integers.
- The icon-size attributes. They only set the icons' layout params, which feed `measureChild`. The measured sizes are inputs here.
- `tint`, `tintLeading` and `tintTrailing`. They wrap and tint drawables through library calls and do not affect geometry.
- The five getters. They return the child views and hold no logic.
- `measureChild`, `MeasureSpec` decoding and `setMeasuredDimension`. The measured sizes are a parameter, a measure spec is a mode and a size, and the reported dimension is returned.
- `child.layout(...)` as a side effect on each child. `Layout` returns the rectangles instead. The `changed` flag is unused by the code and is not a parameter.
- Java's 32-bit `int` wrap-around in the sums. Measured sizes are below 2^24, so only extreme margins or paddings could overflow. The model uses unbounded integers.
- `setPadding` after construction. This inherited host API is outside this model; paddings are fixed at construction.
- `ListTileLayout.ListTile.constructor`: requires the title attribute to be set. The `IllegalArgumentException` for a missing title is modelled by `ResolveSlots` returning `Err(TitleMissing)`.
- `ListTileLayout.ShrinkMakesRowFit`: covers only shrunk widths that are not negative. The host reads a negative layout-param width as MATCH_PARENT, as WRAP_CONTENT or as no constraint. That reading is outside this model, and the code leaves the case open.
- `ListTileLayout.SlackBeforeRightGroup`: the gap equation holds for every margin, but the "no overlap at the natural width" reading needs a non-negative margin. A negative resolved margin makes the columns overlap by that amount even at the natural width.
- `ListTileLayout.ChildrenInsideAtNaturalHeight`: with a subtitle it claims containment for the title/subtitle block only. A negative `subtitleTopMargin` can push the individual lines outside it.
- app/src/main/java/com/nightkyb/listtiledemo/MainActivity.java. It is demo wiring and calls setters that this widget does not have.
