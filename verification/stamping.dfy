/**
 * The stamping routine as a whole: place the stamp, describe the overlay,
 * and run the page loop. A position label outside the five anchors leaves
 * the corner unbound; the routine only fails when it first needs the corner,
 * which is on the first page, so an empty document still succeeds.
 */
module Stamping {
  import opened Options
  import opened Placement
  import opened Rendering
  import opened Pages

  /** Everything the caller passes besides the document and the merge. */
  datatype StampRequest<Img> = StampRequest(
    stamp: Stamp<Img>,
    position: string,
    xOffset: int,
    yOffset: int,
    everyPage: bool,
    opacity: real,
    rotation: real,
    stampWidth: Option<int>,
    stampHeight: Option<int>)

  /** The corner was never computed because the position label matched no anchor. */
  datatype StampError = UnboundPosition(position: string)

  datatype Result<T> = Ok(value: T) | Err(error: StampError)

  /**
   * A call that gives only the stamp and the position label, leaving every
   * other argument at the routine's default. With `is_image` false by default
   * the stamp is drawn as text. What the defaults mean: a recognised label
   * places a 100 by 100 box exactly at its anchor, nothing is turned, and
   * every page is selected.
   */
  function DefaultRequest<Img>(stamp: Stamp<Img>, position: string): (req: StampRequest<Img>)
    requires stamp.TextStamp?
    ensures req.stamp == stamp && req.position == position
    ensures ParseAnchor(position).Some? ==>
              Origin(req) == Some(AnchorPoint(ParseAnchor(position).value, DefaultSize, DefaultSize, 0, 0))
    ensures forall at: Point :: Render(req.stamp, at, req.opacity, req.rotation) == Overlay(stamp, at, 1.0, None)
    ensures forall i: int :: Selected(req.everyPage, i)
  {
    StampRequest(stamp, position, 0, 0, true, 1.0, 0.0, None, None)
  }

  /**
   * With the defaults and a recognised label, every page of the document is
   * merged with the unturned, fully opaque text drawn at the anchor's corner.
   */
  lemma DefaultStampsEveryPage<P, Img>(pages: seq<P>, text: string, position: string, a: Anchor,
                                       merge: (P, Overlay<Img>) -> P)
    requires ParseAnchor(position) == Some(a)
    ensures StampPdf(pages, DefaultRequest(TextStamp(text), position), merge)
            == Ok(MergeAll(pages, Overlay(TextStamp(text), AnchorPoint(a, DefaultSize, DefaultSize, 0, 0), 1.0, None), merge))
  {
  }

  /** The stamp's corner for a request, if its position label is recognised. */
  function Origin<Img>(req: StampRequest<Img>): (r: Option<Point>)
    ensures r.Some? <==> ParseAnchor(req.position).Some?
    ensures r.Some? ==> Placed(ParseAnchor(req.position).value, req.stampWidth.GetOr(DefaultSize),
                               req.stampHeight.GetOr(DefaultSize), req.xOffset, req.yOffset, r.value)
  {
    Locate(req.position, req.stampWidth, req.stampHeight, req.xOffset, req.yOffset)
  }

  /** Stamp the document `pages` as the request asks, merging with `merge`. */
  function StampPdf<P, Img>(pages: seq<P>, req: StampRequest<Img>, merge: (P, Overlay<Img>) -> P): (r: Result<seq<P>>)
    ensures r.Err? <==> |pages| > 0 && ParseAnchor(req.position).None?
    ensures r.Err? ==> r.error == UnboundPosition(req.position)
    ensures r.Ok? ==> |r.value| == |pages|
    ensures r.Ok? && |pages| > 0 ==>
              Origin(req).Some?
              && forall i :: 0 <= i < |pages| ==>
                   r.value[i] == (if Selected(req.everyPage, i)
                                  then merge(pages[i], Render(req.stamp, Origin(req).value, req.opacity, req.rotation))
                                  else pages[i])
  {
    if |pages| == 0 then Ok([])
    else
      match Origin(req)
      case None => Err(UnboundPosition(req.position))
      case Some(at) => Ok(StampPages(pages, Render(req.stamp, at, req.opacity, req.rotation), req.everyPage, merge))
  }

  /** The routine on a document with no pages returns no pages, whatever the request. */
  lemma EmptyPdf<P, Img>(req: StampRequest<Img>, merge: (P, Overlay<Img>) -> P)
    ensures StampPdf([], req, merge) == Ok([])
  {
  }

  /**
   * A text stamp given no dimensions is placed as a 100 by 100 box, so the
   * length of its text never moves it.
   */
  lemma TextPlacedAsDefaultBox<Img>(req: StampRequest<Img>, a: Anchor)
    requires req.stamp.TextStamp? && req.stampWidth.None? && req.stampHeight.None?
    requires ParseAnchor(req.position) == Some(a)
    ensures Origin(req) == Some(AnchorPoint(a, 100, 100, req.xOffset, req.yOffset))
    ensures forall t: string :: Origin(req.(stamp := TextStamp(t))) == Origin(req)
  {
  }

  /** With zero rotation every stamped page carries the stamp drawn at the placed corner, unturned. */
  lemma UnrotatedStamp<P, Img>(pages: seq<P>, req: StampRequest<Img>, merge: (P, Overlay<Img>) -> P)
    requires req.rotation == 0.0 && ParseAnchor(req.position).Some?
    ensures StampPdf(pages, req, merge).Ok?
    ensures forall i :: 0 <= i < |pages| && Selected(req.everyPage, i) ==>
              StampPdf(pages, req, merge).value[i] == merge(pages[i], Overlay(req.stamp, Origin(req).value, req.opacity, None))
  {
  }

  /** The routine's page loop computes the same document as StampPdf. */
  method StampPdfLoop<P, Img>(pages: seq<P>, req: StampRequest<Img>, merge: (P, Overlay<Img>) -> P) returns (r: Result<seq<P>>)
    ensures r == StampPdf(pages, req, merge)
    ensures r.Ok? ==> |r.value| == |pages|
  {
    if |pages| == 0 {
      return Ok([]);
    }
    var at := Origin(req);
    if at.None? {
      return Err(UnboundPosition(req.position));
    }
    var output := StampLoop(pages, Render(req.stamp, at.value, req.opacity, req.rotation), req.everyPage, merge);
    return Ok(output);
  }
}
