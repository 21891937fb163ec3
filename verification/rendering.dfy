/**
 * What the per-page overlay holds: the stamp drawn at the placed corner,
 * the opacity it is drawn with, and, when the rotation is non-zero, the
 * pivot the canvas is turned about. The drawing itself (canvas, fonts,
 * image decoding, the rotation matrix) belongs to the drawing library and
 * is not modelled; the overlay is a description of what is drawn.
 */
module Rendering {
  import opened Options
  import opened Placement

  /**
   * A text stamp carries its string (drawn in fixed red Helvetica 20); an
   * image stamp carries its decoded picture, of the abstract type `Img`, and
   * its rendered width and height, already scaled and truncated to whole
   * points.
   */
  datatype Stamp<Img> = TextStamp(text: string) | ImageStamp(image: Img, width: int, height: int)

  /** A rotation by `degrees` about `pivot`. */
  datatype Turn = Turn(pivot: Point, degrees: real)

  datatype Overlay<Img> = Overlay(stamp: Stamp<Img>, at: Point, opacity: real, turn: Option<Turn>)

  /** Characters are estimated at 10 points wide; the text box at 20 points high. */
  const CharWidthEstimate: int := 10
  const TextHeightEstimate: int := 20

  /**
   * The box the pivot is computed from: the rendered size of an image, or a
   * rough estimate for text (10 points per character, 20 points high).
   */
  function Footprint<Img>(s: Stamp<Img>): (int, int)
  {
    match s
    case ImageStamp(_, w, h) => (w, h)
    case TextStamp(t) => (|t| * CharWidthEstimate, TextHeightEstimate)
  }

  /** The point the canvas is rotated about: the middle of the stamp's footprint box with corner `at`. */
  function Pivot<Img>(s: Stamp<Img>, at: Point): (c: Point)
    ensures c.x - at.x == (at.x + Footprint(s).0 as real) - c.x
    ensures c.y - at.y == (at.y + Footprint(s).1 as real) - c.y
  {
    match s
    case ImageStamp(_, w, h) => Point(at.x + w as real / 2.0, at.y + h as real / 2.0)
    case TextStamp(t) => Point(at.x + (|t| * CharWidthEstimate) as real / 2.0, at.y + 10.0)
  }

  /** Image pivot is the centre of the drawn image; text pivot is 5 points per character right and 10 up. */
  lemma PivotValues<Img>(img: Img, w: int, h: int, t: string, at: Point)
    ensures Pivot(ImageStamp(img, w, h), at) == Point(at.x + w as real / 2.0, at.y + h as real / 2.0)
    ensures Pivot<Img>(TextStamp(t), at) == Point(at.x + (5 * |t|) as real, at.y + 10.0)
  {
  }

  /** For a stamp of non-negative size the pivot lies inside its footprint box. */
  lemma PivotInsideFootprint<Img>(s: Stamp<Img>, at: Point)
    requires Footprint(s).0 >= 0 && Footprint(s).1 >= 0
    ensures at.x <= Pivot(s, at).x <= at.x + Footprint(s).0 as real
    ensures at.y <= Pivot(s, at).y <= at.y + Footprint(s).1 as real
  {
  }

  /**
   * The overlay drawn for one page: the stamp at corner `at`, rotated about
   * its pivot only when `rotation` is non-zero.
   */
  function Render<Img>(s: Stamp<Img>, at: Point, opacity: real, rotation: real): (o: Overlay<Img>)
    ensures o.stamp == s && o.at == at && o.opacity == opacity
    ensures o.turn.Some? <==> rotation != 0.0
    ensures o.turn.Some? ==> o.turn.value.degrees == rotation
    ensures o.turn.Some? ==> o.turn.value.pivot.x - at.x == (at.x + Footprint(s).0 as real) - o.turn.value.pivot.x
    ensures o.turn.Some? ==> o.turn.value.pivot.y - at.y == (at.y + Footprint(s).1 as real) - o.turn.value.pivot.y
  {
    Overlay(s, at, opacity, if rotation != 0.0 then Some(Turn(Pivot(s, at), rotation)) else None)
  }

  /** With zero rotation nothing is turned and the stamp is drawn exactly at the placed corner. */
  lemma UnrotatedDrawsAtCorner<Img>(s: Stamp<Img>, at: Point, opacity: real)
    ensures Render(s, at, opacity, 0.0) == Overlay(s, at, opacity, None)
  {
  }
}
