/**
 * The slice selector: which contiguous index range `[start, end)` of the
 * list to materialise, either for the first paint or for a viewport widened
 * by an overscan margin.
 */
module Slicing {
  import opened Geometry

  /** A half-open index range into the list. */
  datatype Slice = Slice(start: nat, end: nat)

  /** The viewport relative to the list's origin; `{0, 0}` when the container is absent. */
  datatype Viewport = Viewport(top: int, height: int)

  /** Every key of the list has a rectangle. */
  predicate Covers(list: seq<Key>, rects: map<Key, Rect>) {
    forall i :: 0 <= i < |list| ==> list[i] in rects
  }

  /** The overscan margin: the viewport height scaled by the ratio. */
  function Margin(viewport: Viewport, ratio: real): real {
    viewport.height as real * ratio
  }

  /** Top edge of the viewport widened by the margin. */
  function BandTop(viewport: Viewport, ratio: real): real {
    viewport.top as real - Margin(viewport, ratio)
  }

  /** Bottom edge of the viewport widened by the margin. */
  function BandBottom(viewport: Viewport, ratio: real): real {
    viewport.top as real + viewport.height as real + Margin(viewport, ratio)
  }

  /**
   * `Array.prototype.findIndex` restricted to indices from `from` on: the first
   * such index whose item's rectangle satisfies `p`, or -1 when there is none.
   */
  function FindIndex(list: seq<Key>, rects: map<Key, Rect>, from: nat, p: Rect -> bool): (r: int)
    requires Covers(list, rects) && from <= |list|
    ensures r == -1 || from <= r < |list|
    ensures r == -1 <==> forall j :: from <= j < |list| ==> !p(rects[list[j]])
    ensures r != -1 ==> p(rects[list[r]]) && forall j :: from <= j < r ==> !p(rects[list[j]])
    decreases |list| - from
  {
    if from == |list| then -1
    else if p(rects[list[from]]) then from
    else FindIndex(list, rects, from + 1, p)
  }

  /**
   * The first-paint slice: it starts at `sliceStart` and ends at the first
   * item from there on whose top lies at least one viewport height below the
   * start item's bottom, or at the end of the list.
   */
  function DefaultSlice(list: seq<Key>, rects: map<Key, Rect>, viewportHeight: int, sliceStart: nat): (s: Slice)
    requires Covers(list, rects) && sliceStart < |list|
    ensures s.start == sliceStart <= s.end <= |list|
    ensures forall j :: s.start <= j < s.end ==>
      rects[list[j]].top - rects[list[sliceStart]].bottom < viewportHeight
    ensures s.end < |list| ==> rects[list[s.end]].top - rects[list[sliceStart]].bottom >= viewportHeight
  {
    var sliceStartBottom := rects[list[sliceStart]].bottom;
    var sliceEnd := FindIndex(list, rects, sliceStart, (r: Rect) => r.top - sliceStartBottom >= viewportHeight);
    Slice(sliceStart, if sliceEnd != -1 then sliceEnd else |list|)
  }

  /**
   * The steady-state slice for a non-empty list: `start` is the first item
   * whose bottom lies below the band's top (the last item when there is none),
   * `end` the first item from `start` on whose top lies at or below the band's
   * bottom (the list's length when there is none).
   */
  function DesiredSlice(list: seq<Key>, rects: map<Key, Rect>, viewport: Viewport, ratio: real): (s: Slice)
    requires Covers(list, rects) && |list| > 0
    ensures s.start < |list| && s.start <= s.end <= |list|
    ensures forall j :: 0 <= j < s.start ==> rects[list[j]].bottom as real <= BandTop(viewport, ratio)
    ensures rects[list[s.start]].bottom as real > BandTop(viewport, ratio) || s.start == |list| - 1
    ensures (forall j :: 0 <= j < |list| ==> rects[list[j]].bottom as real <= BandTop(viewport, ratio)) ==> s.start == |list| - 1
    ensures forall j :: s.start <= j < s.end ==> rects[list[j]].top as real < BandBottom(viewport, ratio)
    ensures s.end < |list| ==> rects[list[s.end]].top as real >= BandBottom(viewport, ratio)
  {
    var sliceTop := BandTop(viewport, ratio);
    var sliceBottom := BandBottom(viewport, ratio);
    var sliceStart := FindIndex(list, rects, 0, (r: Rect) => r.bottom as real > sliceTop);
    var start := if sliceStart != -1 then sliceStart else |list| - 1;
    var sliceEnd := FindIndex(list, rects, start, (r: Rect) => r.top as real >= sliceBottom);
    Slice(start, if sliceEnd != -1 then sliceEnd else |list|)
  }

  /** The gap between item `i`'s bottom and item `j`'s top is the height of the items between them. */
  lemma GapBetween(list: seq<Key>, heights: map<Key, int>, assumedHeight: int, i: nat, j: nat)
    requires Distinct(list) && i < j < |list|
    ensures var rects := Layout(list, heights, assumedHeight);
      rects[list[j]].top - rects[list[i]].bottom == SumHeights(list[i + 1..j], heights, assumedHeight)
  {
    LayoutAt(list, heights, assumedHeight, i);
    LayoutAt(list, heights, assumedHeight, j);
    TopStep(list, heights, assumedHeight, i);
    SpanBetween(list, heights, assumedHeight, i + 1, j);
  }

  /**
   * On the real layout, the first-paint slice reaches one viewport: when it
   * stops before the end of the list, the items after the start item that it
   * holds span at least one viewport height.
   */
  lemma DefaultSliceReachesViewport(list: seq<Key>, heights: map<Key, int>, assumedHeight: int, viewportHeight: int, sliceStart: nat)
    requires Distinct(list) && sliceStart < |list|
    ensures var s := DefaultSlice(list, Layout(list, heights, assumedHeight), viewportHeight, sliceStart);
      sliceStart < s.end < |list| ==> SumHeights(list[sliceStart + 1..s.end], heights, assumedHeight) >= viewportHeight
  {
    var s := DefaultSlice(list, Layout(list, heights, assumedHeight), viewportHeight, sliceStart);
    if sliceStart < s.end < |list| {
      GapBetween(list, heights, assumedHeight, sliceStart, s.end);
    }
  }

  /**
   * On the real layout, the first-paint slice is no longer than needed: the
   * items after the start item, short of its last one, span less than one
   * viewport height.
   */
  lemma DefaultSliceIsMinimal(list: seq<Key>, heights: map<Key, int>, assumedHeight: int, viewportHeight: int, sliceStart: nat)
    requires Distinct(list) && sliceStart < |list|
    ensures var s := DefaultSlice(list, Layout(list, heights, assumedHeight), viewportHeight, sliceStart);
      sliceStart < s.end - 1 ==> SumHeights(list[sliceStart + 1..s.end - 1], heights, assumedHeight) < viewportHeight
  {
    var s := DefaultSlice(list, Layout(list, heights, assumedHeight), viewportHeight, sliceStart);
    if sliceStart < s.end - 1 {
      GapBetween(list, heights, assumedHeight, sliceStart, s.end - 1);
    }
  }

  /** With a positive viewport and non-negative heights, the first-paint slice holds its start item. */
  lemma DefaultSliceNonEmpty(list: seq<Key>, heights: map<Key, int>, assumedHeight: int, viewportHeight: int, sliceStart: nat)
    requires Distinct(list) && sliceStart < |list|
    requires viewportHeight > 0 && NonNegative(heights, assumedHeight)
    ensures sliceStart < DefaultSlice(list, Layout(list, heights, assumedHeight), viewportHeight, sliceStart).end
  {
    var rects := Layout(list, heights, assumedHeight);
    LayoutAt(list, heights, assumedHeight, sliceStart);
    assert rects[list[sliceStart]].height >= 0;
  }

  /**
   * On the real layout with non-negative heights, every item that reaches into
   * the widened viewport band lies inside the desired slice.
   */
  lemma DesiredSliceCoversBand(list: seq<Key>, heights: map<Key, int>, assumedHeight: int, viewport: Viewport, ratio: real, j: nat)
    requires Distinct(list) && NonNegative(heights, assumedHeight) && j < |list|
    requires RectAt(list, heights, assumedHeight, j).bottom as real > BandTop(viewport, ratio)
    requires (RectAt(list, heights, assumedHeight, j).top as real) < BandBottom(viewport, ratio)
    ensures var s := DesiredSlice(list, Layout(list, heights, assumedHeight), viewport, ratio);
      s.start <= j < s.end
  {
    var rects := Layout(list, heights, assumedHeight);
    var s := DesiredSlice(list, rects, viewport, ratio);
    LayoutAt(list, heights, assumedHeight, j);
    if s.end <= j {
      LayoutAt(list, heights, assumedHeight, s.end);
      TopMonotone(list, heights, assumedHeight, s.end, j);
      assert false;
    }
  }
}
