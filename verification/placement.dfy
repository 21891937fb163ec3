/**
 * Where the stamp goes on the page: the named anchor positions, the fixed
 * US Letter page the stamping code assumes, and the arithmetic that turns an
 * anchor, a stamp size and two offsets into the bottom-left corner of the
 * stamp. Coordinates are PDF points, origin at the bottom-left of the page,
 * y growing upward. Results are reals because the Center case divides by two.
 */
module Placement {
  import opened Options

  /** The page size every page is assumed to have (US Letter). */
  const PageWidth: int := 612
  const PageHeight: int := 792
  /** Gap between a corner-anchored stamp and the page edges of its corner. */
  const Margin: int := 10
  /** Stamp width and height used when the caller gives none. */
  const DefaultSize: int := 100

  datatype Anchor = TopLeft | TopRight | BottomLeft | BottomRight | Center

  datatype Point = Point(x: real, y: real)

  predicate IsTop(a: Anchor) { a == TopLeft || a == TopRight }
  predicate IsRight(a: Anchor) { a == TopRight || a == BottomRight }

  /** The label under which the form offers each anchor. */
  function AnchorName(a: Anchor): string
  {
    match a
    case TopLeft => "Top Left"
    case TopRight => "Top Right"
    case BottomLeft => "Bottom Left"
    case BottomRight => "Bottom Right"
    case Center => "Center"
  }

  /** The if/elif chain over the position label; any other label matches no branch. */
  function ParseAnchor(position: string): (r: Option<Anchor>)
    ensures r.Some? ==> AnchorName(r.value) == position
    ensures r.None? ==> forall a: Anchor :: AnchorName(a) != position
  {
    if position == "Top Left" then Some(TopLeft)
    else if position == "Top Right" then Some(TopRight)
    else if position == "Bottom Left" then Some(BottomLeft)
    else if position == "Bottom Right" then Some(BottomRight)
    else if position == "Center" then Some(Center)
    else None
  }

  /** Every anchor label is recognised as exactly that anchor. */
  lemma ParseAnchorName(a: Anchor)
    ensures ParseAnchor(AnchorName(a)) == Some(a)
  {
  }

  // Distances from a stamp box (bottom-left corner p, size w by h) to the page edges.
  function LeftGap(p: Point): real { p.x }
  function RightGap(p: Point, w: int): real { PageWidth as real - (p.x + w as real) }
  function BottomGap(p: Point): real { p.y }
  function TopGap(p: Point, h: int): real { PageHeight as real - (p.y + h as real) }

  /**
   * The placement rule stated geometrically: a corner anchor keeps the stamp
   * Margin + offset away from the two page edges of its corner (the x offset
   * pushes away from the left or right edge, the y offset away from the top or
   * bottom edge); Center puts the middle of the stamp at the middle of the page
   * shifted right by dx and up by dy.
   */
  ghost predicate Placed(a: Anchor, w: int, h: int, dx: int, dy: int, p: Point)
  {
    match a
    case TopLeft =>
      LeftGap(p) == (Margin + dx) as real && TopGap(p, h) == (Margin + dy) as real
    case TopRight =>
      RightGap(p, w) == (Margin + dx) as real && TopGap(p, h) == (Margin + dy) as real
    case BottomLeft =>
      LeftGap(p) == (Margin + dx) as real && BottomGap(p) == (Margin + dy) as real
    case BottomRight =>
      RightGap(p, w) == (Margin + dx) as real && BottomGap(p) == (Margin + dy) as real
    case Center =>
      p.x + w as real / 2.0 == PageWidth as real / 2.0 + dx as real
      && p.y + h as real / 2.0 == PageHeight as real / 2.0 + dy as real
  }

  /** Bottom-left corner of a w by h stamp at anchor `a`, shifted by the offsets; no clamping. */
  function AnchorPoint(a: Anchor, w: int, h: int, dx: int, dy: int): (p: Point)
    ensures Placed(a, w, h, dx, dy, p)
  {
    match a
    case TopLeft => Point((Margin + dx) as real, (PageHeight - h - Margin - dy) as real)
    case TopRight => Point((PageWidth - w - Margin - dx) as real, (PageHeight - h - Margin - dy) as real)
    case BottomLeft => Point((Margin + dx) as real, (Margin + dy) as real)
    case BottomRight => Point((PageWidth - w - Margin - dx) as real, (Margin + dy) as real)
    case Center =>
      Point((PageWidth - w) as real / 2.0 + dx as real, (PageHeight - h) as real / 2.0 + dy as real)
  }

  /** The geometric rule determines the corner: only AnchorPoint's result satisfies it. */
  lemma PlacedUnique(a: Anchor, w: int, h: int, dx: int, dy: int, p: Point)
    ensures Placed(a, w, h, dx, dy, p) <==> p == AnchorPoint(a, w, h, dx, dy)
  {
  }

  /** The offsets that put a w by h stamp at anchor `a` with its corner at p. */
  function RecoverOffsets(a: Anchor, w: int, h: int, p: Point): (offsets: (real, real))
  {
    match a
    case TopLeft => (p.x - Margin as real, (PageHeight - h - Margin) as real - p.y)
    case TopRight => ((PageWidth - w - Margin) as real - p.x, (PageHeight - h - Margin) as real - p.y)
    case BottomLeft => (p.x - Margin as real, p.y - Margin as real)
    case BottomRight => ((PageWidth - w - Margin) as real - p.x, p.y - Margin as real)
    case Center => (p.x - (PageWidth - w) as real / 2.0, p.y - (PageHeight - h) as real / 2.0)
  }

  /** The offsets can always be read back from the placed corner. */
  lemma OffsetsRoundTrip(a: Anchor, w: int, h: int, dx: int, dy: int)
    ensures RecoverOffsets(a, w, h, AnchorPoint(a, w, h, dx, dy)) == (dx as real, dy as real)
  {
  }

  /**
   * No clamping: distinct offsets always give distinct corners, however far
   * off the page they put the stamp.
   */
  lemma NoClamping(a: Anchor, w: int, h: int, dx1: int, dy1: int, dx2: int, dy2: int)
    requires dx1 != dx2 || dy1 != dy2
    ensures AnchorPoint(a, w, h, dx1, dy1) != AnchorPoint(a, w, h, dx2, dy2)
  {
  }

  /** Top Left sits Margin + dx from the left edge and its top Margin + dy below the page top. */
  lemma TopLeftCorner(w: int, h: int, dx: int, dy: int)
    ensures AnchorPoint(TopLeft, w, h, dx, dy) == Point((10 + dx) as real, (792 - h - 10 - dy) as real)
    ensures AnchorPoint(BottomLeft, w, h, dx, dy) == Point((10 + dx) as real, (10 + dy) as real)
  {
  }

  /** Right anchors mirror left ones across the page's vertical midline, top anchors mirror bottom ones. */
  lemma Mirror(w: int, h: int, dx: int, dy: int)
    ensures AnchorPoint(TopLeft, w, h, dx, dy).x + AnchorPoint(TopRight, w, h, dx, dy).x == (PageWidth - w) as real
    ensures AnchorPoint(BottomLeft, w, h, dx, dy).x + AnchorPoint(BottomRight, w, h, dx, dy).x == (PageWidth - w) as real
    ensures AnchorPoint(TopLeft, w, h, dx, dy).y + AnchorPoint(BottomLeft, w, h, dx, dy).y == (PageHeight - h) as real
    ensures AnchorPoint(TopRight, w, h, dx, dy).y + AnchorPoint(BottomRight, w, h, dx, dy).y == (PageHeight - h) as real
  {
  }

  /** A default-size stamp with no offsets is centred at (256, 346). */
  lemma CenterDefault()
    ensures AnchorPoint(Center, DefaultSize, DefaultSize, 0, 0) == Point(256.0, 346.0)
  {
  }

  /** A 50-wide Bottom Right stamp pushed 5 points inward has its left edge at 547. */
  lemma BottomRightExample(h: int, dy: int)
    ensures AnchorPoint(BottomRight, 50, h, 5, dy).x == 547.0
  {
  }

  /**
   * A larger x offset moves the stamp right for Left and Center anchors and
   * left for Right anchors, and never changes its height on the page.
   */
  lemma XOffsetMonotone(a: Anchor, w: int, h: int, dx1: int, dx2: int, dy: int)
    requires dx1 < dx2
    ensures AnchorPoint(a, w, h, dx1, dy).y == AnchorPoint(a, w, h, dx2, dy).y
    ensures !IsRight(a) ==> AnchorPoint(a, w, h, dx1, dy).x < AnchorPoint(a, w, h, dx2, dy).x
    ensures IsRight(a) ==> AnchorPoint(a, w, h, dx1, dy).x > AnchorPoint(a, w, h, dx2, dy).x
  {
  }

  /**
   * A larger y offset moves the stamp down for Top anchors and up for Bottom
   * and Center anchors, and never changes its horizontal position.
   */
  lemma YOffsetMonotone(a: Anchor, w: int, h: int, dx: int, dy1: int, dy2: int)
    requires dy1 < dy2
    ensures AnchorPoint(a, w, h, dx, dy1).x == AnchorPoint(a, w, h, dx, dy2).x
    ensures IsTop(a) ==> AnchorPoint(a, w, h, dx, dy1).y > AnchorPoint(a, w, h, dx, dy2).y
    ensures !IsTop(a) ==> AnchorPoint(a, w, h, dx, dy1).y < AnchorPoint(a, w, h, dx, dy2).y
  {
  }

  /**
   * The position step of the stamping routine: missing dimensions become
   * DefaultSize, and a position label outside the five anchors leaves the
   * corner undefined.
   */
  function Locate(position: string, width: Option<int>, height: Option<int>, dx: int, dy: int): (r: Option<Point>)
    ensures r.Some? <==> ParseAnchor(position).Some?
    ensures r.Some? ==> Placed(ParseAnchor(position).value, width.GetOr(DefaultSize), height.GetOr(DefaultSize), dx, dy, r.value)
  {
    match ParseAnchor(position)
    case None => None
    case Some(a) => Some(AnchorPoint(a, width.GetOr(DefaultSize), height.GetOr(DefaultSize), dx, dy))
  }

  /** Giving no dimensions is the same as giving a 100 by 100 stamp. */
  lemma DefaultDimensions(position: string, dx: int, dy: int)
    ensures Locate(position, None, None, dx, dy) == Locate(position, Some(100), Some(100), dx, dy)
  {
  }
}
