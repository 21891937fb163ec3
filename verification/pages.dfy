/**
 * The page loop of the stamping routine: pages are visited in order, each
 * selected page is merged with the overlay and every page, merged or not,
 * is appended to the output. Pages and overlays are abstract; the PDF
 * library's merge is the parameter `merge`.
 */
module Pages {

  /** A page is stamped when every page is requested, and the first page always is. */
  predicate Selected(everyPage: bool, i: int)
  {
    everyPage || i == 0
  }

  /** Every page merged with the overlay, in order. */
  function MergeAll<P, O>(pages: seq<P>, overlay: O, merge: (P, O) -> P): (r: seq<P>)
    ensures |r| == |pages|
    ensures forall i :: 0 <= i < |pages| ==> r[i] == merge(pages[i], overlay)
    decreases |pages|
  {
    if |pages| == 0 then []
    else [merge(pages[0], overlay)] + MergeAll(pages[1..], overlay, merge)
  }

  /** The output document: all pages merged, or only the first one. */
  function StampPages<P, O>(pages: seq<P>, overlay: O, everyPage: bool, merge: (P, O) -> P): (r: seq<P>)
    ensures |r| == |pages|
    ensures forall i :: 0 <= i < |pages| ==>
              r[i] == (if Selected(everyPage, i) then merge(pages[i], overlay) else pages[i])
  {
    if everyPage then MergeAll(pages, overlay, merge)
    else if |pages| == 0 then []
    else [merge(pages[0], overlay)] + pages[1..]
  }

  /** The loop as the routine runs it: one page per iteration, appended to the output. */
  method StampLoop<P, O>(pages: seq<P>, overlay: O, everyPage: bool, merge: (P, O) -> P) returns (output: seq<P>)
    ensures |output| == |pages|
    ensures forall i :: 0 <= i < |pages| ==>
              output[i] == (if Selected(everyPage, i) then merge(pages[i], overlay) else pages[i])
    ensures output == StampPages(pages, overlay, everyPage, merge)
  {
    output := [];
    var i := 0;
    while i < |pages|
      invariant 0 <= i <= |pages|
      invariant |output| == i
      invariant forall k :: 0 <= k < i ==>
                  output[k] == (if Selected(everyPage, k) then merge(pages[k], overlay) else pages[k])
    {
      var page := pages[i];
      if everyPage || i == 0 {
        page := merge(page, overlay);
      }
      output := output + [page];
      i := i + 1;
    }
  }

  /** A document with no pages comes back with no pages. */
  lemma EmptyDocument<P, O>(overlay: O, everyPage: bool, merge: (P, O) -> P)
    ensures StampPages([], overlay, everyPage, merge) == []
  {
  }

  /** Stamping only the first page leaves the rest of the document as it was. */
  lemma FirstPageOnly<P, O>(pages: seq<P>, overlay: O, merge: (P, O) -> P)
    requires |pages| > 0
    ensures StampPages(pages, overlay, false, merge) == [merge(pages[0], overlay)] + pages[1..]
  {
  }

  /** Stamping every page of a concatenation stamps each part. */
  lemma MergeAllAppend<P, O>(a: seq<P>, b: seq<P>, overlay: O, merge: (P, O) -> P)
    ensures MergeAll(a + b, overlay, merge) == MergeAll(a, overlay, merge) + MergeAll(b, overlay, merge)
  {
  }

  /** With the first page only, appending pages after a non-empty document leaves them untouched. */
  lemma FirstOnlyAppend<P, O>(a: seq<P>, b: seq<P>, overlay: O, merge: (P, O) -> P)
    requires |a| > 0
    ensures StampPages(a + b, overlay, false, merge) == StampPages(a, overlay, false, merge) + b
  {
  }

  /**
   * Stamping twice is not a no-op: each selected page carries the overlay
   * merged twice, the rest stay as they were.
   */
  lemma StampTwice<P, O>(pages: seq<P>, overlay: O, everyPage: bool, merge: (P, O) -> P)
    ensures forall i :: 0 <= i < |pages| ==>
              StampPages(StampPages(pages, overlay, everyPage, merge), overlay, everyPage, merge)[i]
              == (if Selected(everyPage, i) then merge(merge(pages[i], overlay), overlay) else pages[i])
  {
  }

  /** If merging a stamped page again changes it, stamping a document twice differs from stamping it once. */
  lemma NotIdempotent<P, O>(pages: seq<P>, overlay: O, everyPage: bool, merge: (P, O) -> P)
    requires |pages| > 0
    requires merge(merge(pages[0], overlay), overlay) != merge(pages[0], overlay)
    ensures StampPages(StampPages(pages, overlay, everyPage, merge), overlay, everyPage, merge)
            != StampPages(pages, overlay, everyPage, merge)
  {
  }

  /** When the merge always adds content, stamping every page changes every page. */
  lemma EveryPageChanged<P, O>(pages: seq<P>, overlay: O, merge: (P, O) -> P)
    requires forall p :: merge(p, overlay) != p
    ensures forall i :: 0 <= i < |pages| ==> StampPages(pages, overlay, true, merge)[i] != pages[i]
  {
  }
}
