/**
 * The measurement and layout passes of the ListTile widget: a single row made
 * of an optional leading icon, a required title line with an optional subtitle
 * line under it, an optional trailing icon and an optional extra text packed
 * against the trailing icon.
 *
 * The host framework's measurement protocol is abstracted: the sizes its
 * `measureChild` reports become parameters, a measure spec is a mode and a
 * size, and the dimension the pass reports is returned instead of stored.
 */
module ListTileLayout {

  datatype Option<T> = None | Some(value: T)

  /** The exceptions the core can raise. */
  datatype Error =
    | TitleMissing  // the constructor's IllegalArgumentException("Title must be set!")
    | NullExtra     // the measure pass dereferences an extra child that does not exist

  datatype Result<T> = Ok(value: T) | Err(error: Error)

  /** Java's `Math.max`. */
  function Max(a: int, b: int): (r: int)
    ensures r >= a && r >= b
    ensures r == a || r == b
  {
    if a >= b then a else b
  }

  /** Java's `n / 2` on `int`: the quotient rounded toward zero, so the
      remainder has the sign of `n` (Dafny's own `/` floors instead). */
  function TruncHalf(n: int): (q: int)
    ensures n >= 0 ==> 0 <= n - 2 * q <= 1
    ensures n < 0 ==> -1 <= n - 2 * q <= 0
  {
    if n >= 0 then n / 2 else -((-n) / 2)
  }

  // ---------------------------------------------------------------------------
  // Construction: which children exist and their margins
  // ---------------------------------------------------------------------------

  /** The styled attributes the constructor reads, already resolved to pixels.
      For each optional child: None when its drawable or text attribute is
      unset, otherwise the margin its margin attribute (or that attribute's
      default) resolves to. */
  datatype Attrs = Attrs(
    leading: Option<int>,   // lt_leading, lt_leading_right_margin
    trailing: Option<int>,  // lt_trailing, lt_trailing_left_margin
    titleSet: bool,         // lt_title
    subtitle: Option<int>,  // lt_subtitle, lt_subtitle_top_margin
    extra: Option<int>)     // lt_extra, lt_extra_left_margin

  /** The children a tile holds (the title always exists) and the four margin
      fields, which keep their default 0 unless their child is created. */
  datatype Slots = Slots(
    hasLeading: bool,
    hasTrailing: bool,
    hasSubtitle: bool,
    hasExtra: bool,
    leadingRightMargin: int,
    trailingLeftMargin: int,
    subtitleTopMargin: int,
    extraLeftMargin: int)
  {
    /** A margin is nonzero only if its child exists. */
    predicate MarginsOnlyForPresent()
    {
      && (!hasLeading ==> leadingRightMargin == 0)
      && (!hasTrailing ==> trailingLeftMargin == 0)
      && (!hasSubtitle ==> subtitleTopMargin == 0)
      && (!hasExtra ==> extraLeftMargin == 0)
    }
  }

  function MarginOrZero(attr: Option<int>): int
  {
    if attr.Some? then attr.value else 0
  }

  /** The constructor's decisions: a child exists exactly when its attribute is
      set, its margin field is assigned only then, and an unset title is
      rejected. */
  function ResolveSlots(a: Attrs): (r: Result<Slots>)
    ensures r.Ok? <==> a.titleSet
    ensures r.Ok? ==> r.value.MarginsOnlyForPresent()
    ensures r.Ok? ==>
      && (r.value.hasLeading <==> a.leading.Some?)
      && (r.value.hasTrailing <==> a.trailing.Some?)
      && (r.value.hasSubtitle <==> a.subtitle.Some?)
      && (r.value.hasExtra <==> a.extra.Some?)
    ensures r.Ok? ==>
      && (a.leading.Some? ==> r.value.leadingRightMargin == a.leading.value)
      && (a.trailing.Some? ==> r.value.trailingLeftMargin == a.trailing.value)
      && (a.subtitle.Some? ==> r.value.subtitleTopMargin == a.subtitle.value)
      && (a.extra.Some? ==> r.value.extraLeftMargin == a.extra.value)
  {
    if !a.titleSet then Err(TitleMissing)
    else Ok(Slots(a.leading.Some?, a.trailing.Some?, a.subtitle.Some?, a.extra.Some?,
                  MarginOrZero(a.leading), MarginOrZero(a.trailing),
                  MarginOrZero(a.subtitle), MarginOrZero(a.extra)))
  }

  // ---------------------------------------------------------------------------
  // Measurement
  // ---------------------------------------------------------------------------

  /** A child's measured size; the host never reports a negative one. */
  datatype Size = Size(width: nat, height: nat)

  /** What `measureChild` reported for each child; the entries of children
      that do not exist are never read. */
  datatype ChildSizes = ChildSizes(leading: Size, trailing: Size, title: Size, subtitle: Size, extra: Size)

  datatype Padding = Padding(left: int, top: int, right: int, bottom: int)

  datatype Mode = Exactly | AtMost | Unspecified

  datatype MeasureSpec = MeasureSpec(mode: Mode, size: nat)

  /** The dimension a measure pass reports for the tile itself. */
  datatype Dimension = Dimension(width: int, height: int)

  /** The room one column of the row asks for: its width including its
      margin, and its height. */
  datatype Extent = Extent(width: int, height: int)

  /** The width of the title/subtitle column: the wider of the two lines. */
  function MaxTitleWidth(s: Slots, m: ChildSizes): int
  {
    Max(m.title.width, if s.hasSubtitle then m.subtitle.width else 0)
  }

  /** The extra text's measured width, 0 when there is no extra text. */
  function ExtraWidth(s: Slots, m: ChildSizes): int
  {
    if s.hasExtra then m.extra.width else 0
  }

  /** The height of the title line, or of the title and subtitle lines stacked
      with the subtitle's top margin between them. */
  function TitleBlockHeight(s: Slots, m: ChildSizes): int
  {
    if s.hasSubtitle then m.title.height + m.subtitle.height + s.subtitleTopMargin
    else m.title.height
  }

  /** The measure pass adds the subtitle's top margin to the title column's
      height whether or not there is a subtitle; since that margin stays 0
      without a subtitle, the sum is the block's height either way. */
  lemma TitleColumnHeightIgnoresAbsentSubtitle(s: Slots, m: ChildSizes)
    requires s.MarginsOnlyForPresent()
    ensures m.title.height + (if s.hasSubtitle then m.subtitle.height else 0) + s.subtitleTopMargin
            == TitleBlockHeight(s, m)
  {
  }

  /** The columns of the row, in the order the measure pass visits them:
      leading, trailing, the title/subtitle column, extra. */
  function Columns(s: Slots, m: ChildSizes): seq<Extent>
  {
    var lead := if s.hasLeading then [Extent(m.leading.width + s.leadingRightMargin, m.leading.height)] else [];
    var trail := if s.hasTrailing then lead + [Extent(m.trailing.width + s.trailingLeftMargin, m.trailing.height)] else lead;
    var block := trail + [Extent(MaxTitleWidth(s, m), TitleBlockHeight(s, m))];
    if s.hasExtra then block + [Extent(m.extra.width + s.extraLeftMargin, m.extra.height)] else block
  }

  function SumWidths(cs: seq<Extent>): int
  {
    if cs == [] then 0 else SumWidths(cs[..|cs| - 1]) + cs[|cs| - 1].width
  }

  /** The tallest height among `cs`, and never less than 0. */
  function MaxHeight(cs: seq<Extent>): int
  {
    if cs == [] then 0 else Max(MaxHeight(cs[..|cs| - 1]), cs[|cs| - 1].height)
  }

  /** The width the row asks for: its columns side by side, plus the paddings. */
  function NaturalWidth(s: Slots, m: ChildSizes, p: Padding): int
  {
    SumWidths(Columns(s, m)) + p.left + p.right
  }

  /** The height the row asks for: its tallest column, plus the paddings. */
  function NaturalHeight(s: Slots, m: ChildSizes, p: Padding): int
  {
    MaxHeight(Columns(s, m)) + p.top + p.bottom
  }

  /** The dimension reported along one axis: the spec's size when the mode is
      EXACTLY, the natural size otherwise. */
  function Resolve(spec: MeasureSpec, natural: int): int
  {
    if spec.mode == Exactly then spec.size else natural
  }

  lemma SumWidthsSnoc(cs: seq<Extent>, e: Extent)
    ensures SumWidths(cs + [e]) == SumWidths(cs) + e.width
  {
  }

  lemma MaxHeightSnoc(cs: seq<Extent>, e: Extent)
    ensures MaxHeight(cs + [e]) == Max(MaxHeight(cs), e.height)
  {
  }

  /** The natural width is the padding plus, for each child that exists, its
      measured width and its margin, with the title/subtitle column counted
      once at the wider line's width. */
  lemma NaturalWidthIsSumOfParts(s: Slots, m: ChildSizes, p: Padding)
    ensures NaturalWidth(s, m, p) ==
      p.left + p.right
      + (if s.hasLeading then m.leading.width + s.leadingRightMargin else 0)
      + (if s.hasTrailing then m.trailing.width + s.trailingLeftMargin else 0)
      + MaxTitleWidth(s, m)
      + (if s.hasExtra then m.extra.width + s.extraLeftMargin else 0)
  {
    var lead := if s.hasLeading then [Extent(m.leading.width + s.leadingRightMargin, m.leading.height)] else [];
    var trail := if s.hasTrailing then lead + [Extent(m.trailing.width + s.trailingLeftMargin, m.trailing.height)] else lead;
    var block := trail + [Extent(MaxTitleWidth(s, m), TitleBlockHeight(s, m))];
    if s.hasLeading { SumWidthsSnoc([], lead[0]); assert [] + [lead[0]] == lead; }
    if s.hasTrailing { SumWidthsSnoc(lead, trail[|trail| - 1]); }
    SumWidthsSnoc(trail, block[|block| - 1]);
    if s.hasExtra { SumWidthsSnoc(block, Extent(m.extra.width + s.extraLeftMargin, m.extra.height)); }
  }

  /** The natural height as the measure pass accumulates it: a running
      maximum from 0 over the columns in order. */
  lemma NaturalHeightIsRunningMax(s: Slots, m: ChildSizes, p: Padding)
    ensures NaturalHeight(s, m, p) - p.top - p.bottom ==
      var afterLeading := if s.hasLeading then Max(0, m.leading.height) else 0;
      var afterTrailing := if s.hasTrailing then Max(afterLeading, m.trailing.height) else afterLeading;
      var afterTitle := Max(afterTrailing, TitleBlockHeight(s, m));
      if s.hasExtra then Max(afterTitle, m.extra.height) else afterTitle
  {
    var lead := if s.hasLeading then [Extent(m.leading.width + s.leadingRightMargin, m.leading.height)] else [];
    var trail := if s.hasTrailing then lead + [Extent(m.trailing.width + s.trailingLeftMargin, m.trailing.height)] else lead;
    var block := trail + [Extent(MaxTitleWidth(s, m), TitleBlockHeight(s, m))];
    if s.hasLeading { MaxHeightSnoc([], lead[0]); assert [] + [lead[0]] == lead; }
    if s.hasTrailing { MaxHeightSnoc(lead, trail[|trail| - 1]); }
    MaxHeightSnoc(trail, block[|block| - 1]);
    if s.hasExtra { MaxHeightSnoc(block, Extent(m.extra.width + s.extraLeftMargin, m.extra.height)); }
  }

  /** The natural height is the padding plus the tallest of the children that
      exist, the title and subtitle counted as one stacked block. */
  lemma NaturalHeightIsMaxOfPresent(s: Slots, m: ChildSizes, p: Padding)
    ensures var h := NaturalHeight(s, m, p) - p.top - p.bottom;
      && h >= 0
      && h >= TitleBlockHeight(s, m)
      && (s.hasLeading ==> h >= m.leading.height)
      && (s.hasTrailing ==> h >= m.trailing.height)
      && (s.hasExtra ==> h >= m.extra.height)
      && (|| h == 0
          || h == TitleBlockHeight(s, m)
          || (s.hasLeading && h == m.leading.height)
          || (s.hasTrailing && h == m.trailing.height)
          || (s.hasExtra && h == m.extra.height))
  {
    NaturalHeightIsRunningMax(s, m, p);
  }

  /** What the measure pass does to the layout-param widths when the row is
      wider than the width it was offered: only one column gives way. */
  datatype Shrink =
    | Fits                     // no overflow; nothing changes
    | ShrinkTitle(width: int)  // the title (and the subtitle, if any) get this width
    | ShrinkExtra(width: int)  // the extra text gets this width
    | ExtraMissing             // the extra branch is taken with no extra child

  function ShrinkPolicy(s: Slots, m: ChildSizes, p: Padding, widthSize: int): Shrink
  {
    var overflow := NaturalWidth(s, m, p) - widthSize;
    if overflow <= 0 then Fits
    else if MaxTitleWidth(s, m) > ExtraWidth(s, m) then ShrinkTitle(MaxTitleWidth(s, m) - overflow)
    else if s.hasExtra then ShrinkExtra(ExtraWidth(s, m) - overflow)
    else ExtraMissing
  }

  /** The cases of the shrink policy: nothing shrinks unless the row
      overflows; on overflow the wider of the title column and the extra text
      gives up exactly the overflow, which leaves it negative when the
      overflow is larger than that column; the extra branch without an extra
      child is reached exactly when both text lines measure 0 wide. */
  lemma ShrinkPolicyCases(s: Slots, m: ChildSizes, p: Padding, widthSize: int)
    ensures var sh := ShrinkPolicy(s, m, p, widthSize);
      var w := NaturalWidth(s, m, p);
      && (sh.Fits? <==> w <= widthSize)
      && (sh.ShrinkTitle? <==> w > widthSize && MaxTitleWidth(s, m) > ExtraWidth(s, m))
      && (sh.ShrinkTitle? ==> w - (MaxTitleWidth(s, m) - sh.width) == widthSize)
      && (sh.ShrinkTitle? ==> (sh.width < 0 <==> w - widthSize > MaxTitleWidth(s, m)))
      && (sh.ShrinkExtra? <==> w > widthSize && s.hasExtra && MaxTitleWidth(s, m) <= m.extra.width)
      && (sh.ShrinkExtra? ==> w - (m.extra.width - sh.width) == widthSize)
      && (sh.ShrinkExtra? ==> (sh.width < 0 <==> w - widthSize > m.extra.width))
      && (sh.ExtraMissing? <==> w > widthSize && !s.hasExtra && MaxTitleWidth(s, m) == 0)
  {
    var w := NaturalWidth(s, m, p);
    var titleWidth := MaxTitleWidth(s, m);
    assert titleWidth >= 0;
    if w <= widthSize {
      assert ShrinkPolicy(s, m, p, widthSize) == Fits;
    } else if titleWidth > ExtraWidth(s, m) {
      assert ShrinkPolicy(s, m, p, widthSize) == ShrinkTitle(titleWidth - (w - widthSize));
    } else if s.hasExtra {
      assert ShrinkPolicy(s, m, p, widthSize) == ShrinkExtra(m.extra.width - (w - widthSize));
    } else {
      assert ShrinkPolicy(s, m, p, widthSize) == ExtraMissing;
    }
  }

  /** The sizes the next measure pass sees once the shrunk child is measured
      at its new layout-param width. */
  function Remeasured(s: Slots, m: ChildSizes, sh: Shrink): ChildSizes
    requires (sh.ShrinkTitle? || sh.ShrinkExtra?) && sh.width >= 0
  {
    if sh.ShrinkTitle? then
      m.(title := m.title.(width := sh.width),
         subtitle := if s.hasSubtitle then m.subtitle.(width := sh.width) else m.subtitle)
    else
      m.(extra := m.extra.(width := sh.width))
  }

  /** When the shrunk width is not negative and the child is then measured at
      that width, the row's natural width is exactly the offered width, and a
      further pass shrinks nothing. */
  lemma ShrinkMakesRowFit(s: Slots, m: ChildSizes, p: Padding, widthSize: int)
    requires var sh := ShrinkPolicy(s, m, p, widthSize);
      (sh.ShrinkTitle? || sh.ShrinkExtra?) && sh.width >= 0
    ensures var m' := Remeasured(s, m, ShrinkPolicy(s, m, p, widthSize));
      && NaturalWidth(s, m', p) == widthSize
      && ShrinkPolicy(s, m', p, widthSize) == Fits
  {
    var m' := Remeasured(s, m, ShrinkPolicy(s, m, p, widthSize));
    NaturalWidthIsSumOfParts(s, m, p);
    NaturalWidthIsSumOfParts(s, m', p);
  }

  // ---------------------------------------------------------------------------
  // Layout
  // ---------------------------------------------------------------------------

  /** A child's bounds, relative to the tile. */
  datatype Rect = Rect(left: int, top: int, right: int, bottom: int)

  /** The bounds given to each child that exists. */
  datatype Placement = Placement(
    leading: Option<Rect>,
    title: Rect,
    subtitle: Option<Rect>,
    trailing: Option<Rect>,
    extra: Option<Rect>)

  /** `top..bottom` is centred between `parentTop` and `parentBottom` the way
      a quotient rounded toward zero centres it: when it fits, the space below
      is the space above or one pixel more; when it overhangs, the overhang
      below is the overhang above or one pixel more. */
  predicate CentredIn(top: int, bottom: int, parentTop: int, parentBottom: int)
  {
    var above := top - parentTop;
    var below := parentBottom - bottom;
    if above + below >= 0 then 0 <= below - above <= 1 else -1 <= below - above <= 0
  }

  function CentredTop(parentTop: int, parentBottom: int, height: int): int
  {
    parentTop + TruncHalf(parentBottom - parentTop - height)
  }

  /** The rectangle of a child of size `z` whose top-left corner is at (left, top). */
  function RectAt(left: int, top: int, z: Size): Rect
  {
    Rect(left, top, left + z.width, top + z.height)
  }

  /** Where the left-packed title column starts: after the leading icon and
      its margin, or at the left padding. */
  function TitleLeft(s: Slots, m: ChildSizes, p: Padding): int
  {
    p.left + (if s.hasLeading then m.leading.width + s.leadingRightMargin else 0)
  }

  /** Where the right-packed extra text ends: before the trailing icon and its
      margin, or at the right padding. */
  function ExtraRight(s: Slots, m: ChildSizes, p: Padding, l: int, r: int): int
  {
    r - l - p.right - (if s.hasTrailing then s.trailingLeftMargin + m.trailing.width else 0)
  }

  /** The top of the title line: the title/subtitle block is centred as one. */
  function TitleTop(s: Slots, m: ChildSizes, p: Padding, t: int, b: int): int
  {
    CentredTop(p.top, b - t - p.bottom, TitleBlockHeight(s, m))
  }

  /** The bounds the layout pass gives each existing child of a tile laid out
      at (l, t, r, b). */
  function Place(s: Slots, m: ChildSizes, p: Padding, l: int, t: int, r: int, b: int): Placement
  {
    var parentBottom := b - t - p.bottom;
    Placement(
      if s.hasLeading then Some(RectAt(p.left, CentredTop(p.top, parentBottom, m.leading.height), m.leading)) else None,
      RectAt(TitleLeft(s, m, p), TitleTop(s, m, p, t, b), m.title),
      if s.hasSubtitle then Some(RectAt(TitleLeft(s, m, p), TitleTop(s, m, p, t, b) + m.title.height + s.subtitleTopMargin, m.subtitle)) else None,
      if s.hasTrailing then Some(RectAt(r - l - p.right - m.trailing.width, CentredTop(p.top, parentBottom, m.trailing.height), m.trailing)) else None,
      if s.hasExtra then Some(RectAt(ExtraRight(s, m, p, l, r) - m.extra.width, CentredTop(p.top, parentBottom, m.extra.height), m.extra)) else None)
  }

  /** Exactly the existing children are placed, each at its measured size. */
  lemma PlaceSizes(s: Slots, m: ChildSizes, p: Padding, l: int, t: int, r: int, b: int)
    ensures var pl := Place(s, m, p, l, t, r, b);
      && (pl.leading.Some? <==> s.hasLeading)
      && (pl.subtitle.Some? <==> s.hasSubtitle)
      && (pl.trailing.Some? <==> s.hasTrailing)
      && (pl.extra.Some? <==> s.hasExtra)
      && (s.hasLeading ==> Width(pl.leading.value) == m.leading.width && Height(pl.leading.value) == m.leading.height)
      && (Width(pl.title) == m.title.width && Height(pl.title) == m.title.height)
      && (s.hasSubtitle ==> Width(pl.subtitle.value) == m.subtitle.width && Height(pl.subtitle.value) == m.subtitle.height)
      && (s.hasTrailing ==> Width(pl.trailing.value) == m.trailing.width && Height(pl.trailing.value) == m.trailing.height)
      && (s.hasExtra ==> Width(pl.extra.value) == m.extra.width && Height(pl.extra.value) == m.extra.height)
  {
  }

  /** The leading icon starts at the left padding; the title starts after it
      and its margin (or at the left padding); the subtitle shares the title's
      left edge and starts its top margin below the title. */
  lemma PlaceLeftPacked(s: Slots, m: ChildSizes, p: Padding, l: int, t: int, r: int, b: int)
    ensures var pl := Place(s, m, p, l, t, r, b);
      && (s.hasLeading ==> pl.leading.value.left == p.left)
      && (s.hasLeading ==> pl.title.left == pl.leading.value.right + s.leadingRightMargin)
      && (!s.hasLeading ==> pl.title.left == p.left)
      && (s.hasSubtitle ==> pl.subtitle.value.left == pl.title.left)
      && (s.hasSubtitle ==> pl.subtitle.value.top == pl.title.bottom + s.subtitleTopMargin)
  {
  }

  /** The trailing icon ends at the right padding; the extra text ends the
      trailing icon's left margin before it (or at the right padding). */
  lemma PlaceRightPacked(s: Slots, m: ChildSizes, p: Padding, l: int, t: int, r: int, b: int)
    ensures var pl := Place(s, m, p, l, t, r, b);
      && (s.hasTrailing ==> pl.trailing.value.right == r - l - p.right)
      && (s.hasExtra && s.hasTrailing ==> pl.extra.value.right == pl.trailing.value.left - s.trailingLeftMargin)
      && (s.hasExtra && !s.hasTrailing ==> pl.extra.value.right == r - l - p.right)
  {
  }

  /** Every child, and the title/subtitle pair as one block, is centred
      vertically between the top and bottom paddings. */
  lemma PlaceCentred(s: Slots, m: ChildSizes, p: Padding, l: int, t: int, r: int, b: int)
    ensures var pl := Place(s, m, p, l, t, r, b);
      var bottom := b - t - p.bottom;
      && (s.hasLeading ==> CentredIn(pl.leading.value.top, pl.leading.value.bottom, p.top, bottom))
      && (!s.hasSubtitle ==> CentredIn(pl.title.top, pl.title.bottom, p.top, bottom))
      && (s.hasSubtitle ==> CentredIn(pl.title.top, pl.subtitle.value.bottom, p.top, bottom))
      && (s.hasTrailing ==> CentredIn(pl.trailing.value.top, pl.trailing.value.bottom, p.top, bottom))
      && (s.hasExtra ==> CentredIn(pl.extra.value.top, pl.extra.value.bottom, p.top, bottom))
  {
  }

  function Width(rect: Rect): int { rect.right - rect.left }

  function Height(rect: Rect): int { rect.bottom - rect.top }

  /** A rectangle lies between the top and bottom paddings. */
  predicate InsideVertically(rect: Rect, p: Padding, t: int, b: int)
  {
    p.top <= rect.top && rect.bottom <= b - t - p.bottom
  }

  /** When the tile is at least as tall as its natural height (an EXACTLY
      height may be larger), every child, and the
      title/subtitle pair as one block, lies inside the area between the top
      and bottom paddings. */
  lemma ChildrenInsideAtNaturalHeight(s: Slots, m: ChildSizes, p: Padding, l: int, t: int, r: int, b: int)
    requires b - t >= NaturalHeight(s, m, p)
    ensures var pl := Place(s, m, p, l, t, r, b);
      && (s.hasLeading ==> InsideVertically(pl.leading.value, p, t, b))
      && (!s.hasSubtitle ==> InsideVertically(pl.title, p, t, b))
      && (s.hasSubtitle ==> InsideVertically(Rect(pl.title.left, pl.title.top, pl.title.right, pl.subtitle.value.bottom), p, t, b))
      && (s.hasTrailing ==> InsideVertically(pl.trailing.value, p, t, b))
      && (s.hasExtra ==> InsideVertically(pl.extra.value, p, t, b))
  {
    NaturalHeightIsMaxOfPresent(s, m, p);
  }

  /** The horizontal space between the title column's right edge and the
      nearest right-packed child (or the right padding) is that child's left
      margin plus whatever width the tile has beyond its natural width; so at
      the natural width the columns sit exactly their margins apart, and, for
      a non-negative margin, they overlap only when the tile is narrower than
      that. */
  lemma SlackBeforeRightGroup(s: Slots, m: ChildSizes, p: Padding, l: int, t: int, r: int, b: int)
    ensures var pl := Place(s, m, p, l, t, r, b);
      var rightGroupLeft :=
        if s.hasExtra then pl.extra.value.left
        else if s.hasTrailing then pl.trailing.value.left
        else r - l - p.right;
      var margin :=
        if s.hasExtra then s.extraLeftMargin
        else if s.hasTrailing then s.trailingLeftMargin
        else 0;
      rightGroupLeft - (pl.title.left + MaxTitleWidth(s, m)) == margin + (r - l - NaturalWidth(s, m, p))
  {
    NaturalWidthIsSumOfParts(s, m, p);
  }

  // ---------------------------------------------------------------------------
  // The widget
  // ---------------------------------------------------------------------------

  /** The host's WRAP_CONTENT layout-param width, which a child added without
      layout params starts with. */
  const WrapContent: int := -2

  class ListTile {
    const slots: Slots
    var padding: Padding
    /** The sizes the children were last measured at. */
    var measured: ChildSizes
    /** The layout-param widths the measure pass may shrink. */
    var titleLpWidth: int
    var subtitleLpWidth: int
    var extraLpWidth: int

    ghost predicate Valid()
    {
      slots.MarginsOnlyForPresent()
    }

    constructor (attrs: Attrs, padding: Padding)
      requires attrs.titleSet
      ensures Valid()
      ensures ResolveSlots(attrs) == Ok(slots)
      ensures this.padding == padding
      ensures titleLpWidth == subtitleLpWidth == extraLpWidth == WrapContent
    {
      var resolved := ResolveSlots(attrs);
      slots := resolved.value;
      this.padding := padding;
      measured := ChildSizes(Size(0, 0), Size(0, 0), Size(0, 0), Size(0, 0), Size(0, 0));
      titleLpWidth, subtitleLpWidth, extraLpWidth := WrapContent, WrapContent, WrapContent;
    }

    /** One measure pass: records the children's measured sizes, adds up the
        natural size, shrinks one column's layout-param width when the row
        overflows the offered width, and reports the tile's dimension. */
    method Measure(widthSpec: MeasureSpec, heightSpec: MeasureSpec, sizes: ChildSizes) returns (res: Result<Dimension>)
      requires Valid()
      modifies this
      ensures Valid()
      ensures padding == old(padding)
      ensures measured.title == sizes.title
      ensures measured.leading == if slots.hasLeading then sizes.leading else old(measured.leading)
      ensures measured.trailing == if slots.hasTrailing then sizes.trailing else old(measured.trailing)
      ensures measured.subtitle == if slots.hasSubtitle then sizes.subtitle else old(measured.subtitle)
      ensures measured.extra == if slots.hasExtra then sizes.extra else old(measured.extra)
      ensures var sh := ShrinkPolicy(slots, sizes, padding, widthSpec.size);
        && titleLpWidth == (if sh.ShrinkTitle? then sh.width else old(titleLpWidth))
        && subtitleLpWidth == (if sh.ShrinkTitle? && slots.hasSubtitle then sh.width else old(subtitleLpWidth))
        && extraLpWidth == (if sh.ShrinkExtra? then sh.width else old(extraLpWidth))
        && res == if sh.ExtraMissing? then Err(NullExtra)
                  else Ok(Dimension(Resolve(widthSpec, NaturalWidth(slots, sizes, padding)),
                                    Resolve(heightSpec, NaturalHeight(slots, sizes, padding))))
    {
      var width := 0;
      var height := 0;

      if slots.hasLeading {
        measured := measured.(leading := sizes.leading);
        width := width + sizes.leading.width + slots.leadingRightMargin;
        height := Max(height, sizes.leading.height);
      }

      if slots.hasTrailing {
        measured := measured.(trailing := sizes.trailing);
        width := width + sizes.trailing.width + slots.trailingLeftMargin;
        height := Max(height, sizes.trailing.height);
      }

      measured := measured.(title := sizes.title);
      var subtitleWidth, subtitleHeight := 0, 0;
      if slots.hasSubtitle {
        measured := measured.(subtitle := sizes.subtitle);
        subtitleWidth, subtitleHeight := sizes.subtitle.width, sizes.subtitle.height;
      }

      var maxTitleWidth := Max(sizes.title.width, subtitleWidth);
      width := width + maxTitleWidth;
      // without a subtitle its top margin is 0, so the block is the title alone
      height := Max(height, sizes.title.height + subtitleHeight + slots.subtitleTopMargin);

      var extraWidth := 0;
      if slots.hasExtra {
        measured := measured.(extra := sizes.extra);
        extraWidth := sizes.extra.width;
        width := width + extraWidth + slots.extraLeftMargin;
        height := Max(height, sizes.extra.height);
      }

      width := width + padding.left + padding.right;
      height := height + padding.top + padding.bottom;
      TitleColumnHeightIgnoresAbsentSubtitle(slots, sizes);
      NaturalWidthIsSumOfParts(slots, sizes, padding);
      NaturalHeightIsRunningMax(slots, sizes, padding);
      assert width == NaturalWidth(slots, sizes, padding);
      assert height == NaturalHeight(slots, sizes, padding);

      if width > widthSpec.size {
        if maxTitleWidth > extraWidth {
          var titleActualWidth := maxTitleWidth - (width - widthSpec.size);
          titleLpWidth := titleActualWidth;
          if slots.hasSubtitle {
            subtitleLpWidth := titleActualWidth;
          }
        } else {
          if !slots.hasExtra {
            return Err(NullExtra);
          }
          var extraActualWidth := extraWidth - (width - widthSpec.size);
          extraLpWidth := extraActualWidth;
        }
      }

      res := Ok(Dimension(if widthSpec.mode == Exactly then widthSpec.size else width,
                          if heightSpec.mode == Exactly then heightSpec.size else height));
    }

    /** One layout pass for bounds (l, t, r, b): the left-packed children
        advance a left edge, the right-packed ones a right edge. */
    method Layout(l: int, t: int, r: int, b: int) returns (pl: Placement)
      ensures pl == Place(slots, measured, padding, l, t, r, b)
    {
      var parentLeft := padding.left;
      var parentRight := r - l - padding.right;
      var parentTop := padding.top;
      var parentBottom := b - t - padding.bottom;

      var childLeft := parentLeft;
      var leading: Option<Rect> := None;
      if slots.hasLeading {
        var width, height := measured.leading.width, measured.leading.height;
        var childTop := parentTop + TruncHalf(parentBottom - parentTop - height);
        leading := Some(Rect(childLeft, childTop, childLeft + width, childTop + height));
        childLeft := childLeft + width + slots.leadingRightMargin;
      }

      ghost var spec := Place(slots, measured, padding, l, t, r, b);
      assert leading == spec.leading;

      var title: Rect;
      var subtitle: Option<Rect> := None;
      if !slots.hasSubtitle {
        var width, height := measured.title.width, measured.title.height;
        var childTop := parentTop + TruncHalf(parentBottom - parentTop - height);
        title := Rect(childLeft, childTop, childLeft + width, childTop + height);
      } else {
        var titleWidth, titleHeight := measured.title.width, measured.title.height;
        var subtitleWidth, subtitleHeight := measured.subtitle.width, measured.subtitle.height;
        var childTop := parentTop + TruncHalf(parentBottom - parentTop - titleHeight - subtitleHeight - slots.subtitleTopMargin);
        title := Rect(childLeft, childTop, childLeft + titleWidth, childTop + titleHeight);
        childTop := childTop + titleHeight + slots.subtitleTopMargin;
        subtitle := Some(Rect(childLeft, childTop, childLeft + subtitleWidth, childTop + subtitleHeight));
      }

      assert title == spec.title && subtitle == spec.subtitle;

      var childRight := parentRight;
      var trailing: Option<Rect> := None;
      if slots.hasTrailing {
        var width, height := measured.trailing.width, measured.trailing.height;
        var childTop := parentTop + TruncHalf(parentBottom - parentTop - height);
        trailing := Some(Rect(childRight - width, childTop, childRight, childTop + height));
        childRight := childRight - (slots.trailingLeftMargin + width);
      }

      assert trailing == spec.trailing;

      var extra: Option<Rect> := None;
      if slots.hasExtra {
        var width, height := measured.extra.width, measured.extra.height;
        var childTop := parentTop + TruncHalf(parentBottom - parentTop - height);
        extra := Some(Rect(childRight - width, childTop, childRight, childTop + height));
      }

      pl := Placement(leading, title, subtitle, trailing, extra);
    }
  }
}
