# PDF stamper — verified model of the stamping routine

The application overlays a text or image "stamp" on the first page, or on
every page, of a PDF document. Everything around it is form widgets and
library calls; the logic is the routine `stamp_pdf` in `stamp.py`. That
routine does three things, and this Dafny project models each one:

1. **Placement.** A named anchor ("Top Left", "Top Right", "Bottom Left",
   "Bottom Right", "Center"), a stamp width and height (100 each when not
   given) and x/y offsets give the bottom-left corner of the stamp on a
   fixed 612 by 792 point page with a 10-point margin (`placement.dfy`,
   module `Placement`). Coordinates are `real` because the Center case
   halves an odd difference. The rule is also stated geometrically, by the
   gaps between the stamp and the page edges (`Placed`), and the two are
   proved equivalent.
2. **Overlay.** The overlay drawn on each stamped page records the stamp
   (the text, or the picture with its rendered size; pictures are values
   of an abstract type), its corner, the opacity and, only for a non-zero rotation, the pivot the
   canvas turns about: the middle of the image, or for text a rough box of
   10 points per character by 20 points (`rendering.dfy`, module
   `Rendering`).
3. **Page loop.** Pages are visited in order. Page `i` is merged with the
   overlay when every page is requested or `i == 0`, and is copied unchanged
   otherwise (`pages.dfy`, module `Pages`). Pages and overlays are type
   parameters. The PDF library's merge is a function parameter
   `merge: (P, O) -> P`.

`stamping.dfy` (module `Stamping`) puts the three together as `StampPdf`.
Python only uses the corner inside the page loop, and page 0 is always
stamped. So an unrecognised position label is an error exactly when the
document has at least one page. A document with no pages comes back empty
whatever the label. `options.dfy` holds the `Option` type.

## Model

| member | source | states |
|---|---|---|
| Placement.ParseAnchor | stamp.py:48-58 | a label is recognised exactly when it is one of the five anchor names, and then it yields the anchor with that name |
| Placement.ParseAnchorName | stamp.py:48-56 | every anchor name is recognised as that same anchor |
| Placement.AnchorPoint | stamp.py:47-58 | the corner keeps a corner-anchored stamp Margin + offset from the two page edges of its corner; a Center stamp has its middle at the page middle shifted by the offsets |
| Placement.PlacedUnique | stamp.py:48-58 | that geometric rule holds of the computed corner and of no other point |
| Placement.OffsetsRoundTrip | stamp.py:48-58 | the offsets can be recovered exactly from the corner they produce, for every anchor |
| Placement.NoClamping | stamp.py:48-58 | distinct offsets always give distinct corners, even off the page: nothing is clamped |
| Placement.TopLeftCorner | stamp.py:48-53 | Top Left is at (10 + dx, 792 - h - 10 - dy); Bottom Left shares that x and has y = 10 + dy |
| Placement.Mirror | stamp.py:48-55 | Left and Right corners sum to 612 - w in x; Top and Bottom corners sum to 792 - h in y |
| Placement.CenterDefault | stamp.py:56-58 | a 100 by 100 Center stamp with zero offsets lands at (256, 346) |
| Placement.BottomRightExample | stamp.py:54-55 | a 50-wide Bottom Right stamp with x offset 5 has x = 547 |
| Placement.XOffsetMonotone | stamp.py:48-58 | a larger x offset moves Left and Center stamps right and Right stamps left, never vertically |
| Placement.YOffsetMonotone | stamp.py:48-58 | a larger y offset moves Top stamps down and Bottom and Center stamps up, never horizontally |
| Placement.Locate | stamp.py:41-58 | a corner exists exactly when the label is recognised, and it is placed for the given size, or 100 where a size is missing |
| Placement.DefaultDimensions | stamp.py:41-45 | giving no width and height places the stamp as a 100 by 100 box |
| Rendering.Pivot | stamp.py:83-102 | the pivot is equidistant from the left and right, and from the bottom and top, edges of the stamp's footprint box |
| Rendering.PivotValues | stamp.py:83-102 | image pivot (x + w/2, y + h/2); text pivot (x + 5 * len(text), y + 10) |
| Rendering.PivotInsideFootprint | stamp.py:84-86 | for a stamp of non-negative size the pivot lies inside its box |
| Rendering.Render | stamp.py:63-111 | the overlay draws the stamp at the placed corner with the given opacity; a rotation is applied exactly when it is non-zero, by that angle, about the footprint's middle |
| Rendering.UnrotatedDrawsAtCorner | stamp.py:83-111 | with rotation 0 nothing is turned and the drawing origin is exactly the corner |
| Pages.MergeAll | stamp.py:60-118 | every page is merged with the overlay, same count, same order |
| Pages.StampPages | stamp.py:60-118 | same page count; page i is merged with the overlay when every page is asked for or i = 0, and is the input page otherwise |
| Pages.StampLoop | stamp.py:60-118 | the index loop that appends one page per iteration produces exactly that document |
| Pages.EmptyDocument | stamp.py:60-118 | a document with no pages yields no pages |
| Pages.FirstPageOnly | stamp.py:63-118 | corollary of the StampPages contract, stated as a whole document: with the first page only, the output is the merged page 0 followed by the untouched remaining pages |
| Pages.MergeAllAppend | stamp.py:60-118 | stamping every page of a concatenation is stamping each part |
| Pages.FirstOnlyAppend | stamp.py:60-118 | with the first page only, pages appended to a non-empty document pass through untouched |
| Pages.StampTwice | stamp.py:113-116 | stamping twice merges the overlay twice into each selected page |
| Pages.NotIdempotent | stamp.py:113-116 | if a second merge changes a page, stamping twice differs from stamping once |
| Pages.EveryPageChanged | stamp.py:63-116 | if merging always adds content, every page of an every-page stamp differs from its input |
| Stamping.DefaultRequest | stamp.py:33-58 | with the routine's defaults (a text stamp, no offsets, every page, opacity 1, rotation 0, no dimensions) a recognised label puts a 100 by 100 box exactly at its anchor, nothing is turned, and every page is selected |
| Stamping.DefaultStampsEveryPage | stamp.py:33-118 | with the defaults and a recognised label, every page is merged with the unturned, opaque text overlay at the anchor's corner |
| Stamping.Origin | stamp.py:41-58 | a request has a corner exactly when its label is recognised, placed by the anchor rule |
| Stamping.StampPdf | stamp.py:33-120 | fails exactly when the document has pages and the label is unrecognised; otherwise same page count, selected pages merged with the rendered overlay, others unchanged |
| Stamping.EmptyPdf | stamp.py:60-120 | an empty document returns empty without error, whatever the request |
| Stamping.TextPlacedAsDefaultBox | stamp.py:41-58 | a text stamp given no dimensions is placed as a 100 by 100 box, whatever its text |
| Stamping.UnrotatedStamp | stamp.py:83-111 | with rotation 0 every selected page carries the unturned stamp at the placed corner |
| Stamping.StampPdfLoop | stamp.py:60-120 | the step-by-step routine returns the same result as StampPdf |

## Left out

- `main` (stamp.py:122-226): form widgets, file upload and download. It is user interface and I/O. Its text call passes no stamp dimensions, which `TextPlacedAsDefaultBox` covers.
- `create_text_stamp` (stamp.py:11-31): nothing calls it, and it only wraps the drawing library.
- PDF reading, writing and page merging, canvas drawing and image decoding belong to foreign libraries. The merge is a function parameter. The overlay is a description of what is drawn, not a drawing.
- The source merges the overlay into each selected input page in place (stamp.py:61, 116) and appends that same page object. The model treats the input document as immutable: `merge` returns the stamped page and the input sequence is unchanged. The returned document is the same either way, but the caller's input pages are not modelled as modified.
- Image content is abstract: the overlay records which picture is drawn, but not its pixels, transparency mask or aspect-ratio fitting (stamp.py:94-95).
- The rotation transform itself (stamp.py:89-91, 104-106) is trigonometry inside the drawing library. Only the pivot and whether rotation happens are modelled.
- Opacity (stamp.py:69-70) is carried through to the overlay as a number. How it is composited is not modelled.
- `int(original_width * scale)` (stamp.py:79-80, 209-210) is float truncation. The image stamp takes the rendered integer width and height as inputs.
- The text colour and font size (stamp.py:109-110) are hard-coded to red and 20 points. They are fixed, so the overlay does not record them. The colour picker's hex parsing (stamp.py:176) never reaches `stamp_pdf`.
- The source rebuilds the overlay on every stamped page from the same inputs. The model builds it once, which gives the same value.
- Rendering.Render: the pivot for an image is computed from the image's own rendered size. The placement may use a different `stamp_width`/`stamp_height`. The model keeps the two apart, as the source does, and does not state that they agree.
- `is_image` with stamp content of the wrong kind (a string for an image, or a dictionary for text) is a type error in Python. The `Stamp` datatype makes it impossible.
- Offsets are integers, as the form's sliders produce. Rotation is a real number.
