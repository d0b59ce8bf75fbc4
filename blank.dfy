/**
 * Blank space: the spacer heights rendered above and below the materialised
 * slice so that the scrollable extent is that of the whole list.
 */
module Blank {
  import opened Geometry
  import opened Slicing

  datatype BlankSpace = BlankSpace(above: int, below: int)

  /** JavaScript truthiness of a string key: only the empty string is falsy. */
  predicate Truthy(k: Key) {
    k != ""
  }

  /**
   * The blank space as the source computes it: nothing below when the slice
   * reaches the end of the list or when the last key is falsy. The source
   * throws when the list is non-empty and the slice starts past its end.
   */
  function BlankSpaceAsWritten(list: seq<Key>, rects: map<Key, Rect>, slice: Slice): (b: BlankSpace)
    requires Covers(list, rects) && (|list| == 0 || slice.start < |list|)
    ensures |list| == 0 ==> b == BlankSpace(0, 0)
    ensures slice.end < |list| && !Truthy(list[|list| - 1]) ==> b.below == 0
  {
    var above := if |list| == 0 then 0 else rects[list[slice.start]].top - rects[list[0]].top;
    var below :=
      if slice.end >= |list| || !Truthy(list[|list| - 1]) then 0
      else rects[list[|list| - 1]].bottom - rects[list[slice.end]].top;
    BlankSpace(above, below)
  }

  /**
   * The blank space with the falsy-key test dropped: nothing below exactly
   * when the slice reaches the end of the list, which also covers the empty list.
   */
  function ComputeBlankSpace(list: seq<Key>, rects: map<Key, Rect>, slice: Slice): (b: BlankSpace)
    requires Covers(list, rects) && (|list| == 0 || slice.start < |list|)
    ensures |list| == 0 ==> b == BlankSpace(0, 0)
    ensures slice.end >= |list| ==> b.below == 0
  {
    var above := if |list| == 0 then 0 else rects[list[slice.start]].top - rects[list[0]].top;
    var below := if slice.end >= |list| then 0 else rects[list[|list| - 1]].bottom - rects[list[slice.end]].top;
    BlankSpace(above, below)
  }

  /**
   * On the real layout, the spacer above is the height of the items before
   * the slice, the spacer below that of the items after it, and together
   * with the materialised items they add up to the height of the whole list.
   */
  lemma BlankSpaceConservation(list: seq<Key>, heights: map<Key, int>, assumedHeight: int, slice: Slice)
    requires Distinct(list) && slice.start <= slice.end <= |list|
    requires |list| == 0 || slice.start < |list|
    ensures var b := ComputeBlankSpace(list, Layout(list, heights, assumedHeight), slice);
      b.above == SumHeights(list[..slice.start], heights, assumedHeight) &&
      b.below == SumHeights(list[slice.end..], heights, assumedHeight)
    ensures var b := ComputeBlankSpace(list, Layout(list, heights, assumedHeight), slice);
      b.above + SumHeights(list[slice.start..slice.end], heights, assumedHeight) + b.below
        == SumHeights(list, heights, assumedHeight)
  {
    var n := |list|;
    var b := ComputeBlankSpace(list, Layout(list, heights, assumedHeight), slice);
    SpacerAboveIsTop(list, heights, assumedHeight, slice);
    SpacerBelowIsRest(list, heights, assumedHeight, slice);
    SpanBetween(list, heights, assumedHeight, slice.start, slice.end);
    SpanBetween(list, heights, assumedHeight, slice.end, n);
    assert list[slice.end..n] == list[slice.end..];
    assert list[..n] == list;
  }

  /** On the layout, the spacer above is the top of the slice's first item. */
  lemma SpacerAboveIsTop(list: seq<Key>, heights: map<Key, int>, assumedHeight: int, slice: Slice)
    requires Distinct(list) && slice.start <= |list|
    requires |list| == 0 || slice.start < |list|
    ensures ComputeBlankSpace(list, Layout(list, heights, assumedHeight), slice).above
      == Top(list, heights, assumedHeight, slice.start)
  {
    if |list| > 0 {
      LayoutAt(list, heights, assumedHeight, 0);
      LayoutAt(list, heights, assumedHeight, slice.start);
    }
  }

  /** On the layout, the spacer below runs from the top of the first item after the slice to the list's end. */
  lemma SpacerBelowIsRest(list: seq<Key>, heights: map<Key, int>, assumedHeight: int, slice: Slice)
    requires Distinct(list) && slice.end <= |list|
    requires |list| == 0 || slice.start < |list|
    ensures ComputeBlankSpace(list, Layout(list, heights, assumedHeight), slice).below
      == Top(list, heights, assumedHeight, |list|) - Top(list, heights, assumedHeight, slice.end)
  {
    var n := |list|;
    if slice.end < n {
      var rects := Layout(list, heights, assumedHeight);
      LayoutAt(list, heights, assumedHeight, n - 1);
      LayoutAt(list, heights, assumedHeight, slice.end);
      TopStep(list, heights, assumedHeight, n - 1);
      assert rects[list[n - 1]].bottom == Top(list, heights, assumedHeight, n);
      assert rects[list[slice.end]].top == Top(list, heights, assumedHeight, slice.end);
    }
  }

  /**
   * While the last key is truthy the source's computation is the corrected
   * one: the spacers are the heights before and after the slice and add up,
   * with the slice, to the whole list.
   */
  lemma BlankSpaceAsWrittenWithTruthyLastKey(list: seq<Key>, heights: map<Key, int>, assumedHeight: int, slice: Slice)
    requires Distinct(list) && slice.start <= slice.end <= |list|
    requires |list| == 0 || (slice.start < |list| && Truthy(list[|list| - 1]))
    ensures var b := BlankSpaceAsWritten(list, Layout(list, heights, assumedHeight), slice);
      b.above == SumHeights(list[..slice.start], heights, assumedHeight) &&
      b.below == SumHeights(list[slice.end..], heights, assumedHeight) &&
      b.above + SumHeights(list[slice.start..slice.end], heights, assumedHeight) + b.below
        == SumHeights(list, heights, assumedHeight)
  {
    var rects := Layout(list, heights, assumedHeight);
    assert BlankSpaceAsWritten(list, rects, slice) == ComputeBlankSpace(list, rects, slice);
    BlankSpaceConservation(list, heights, assumedHeight, slice);
  }

  /**
   * With a falsy last key the source loses the space below: for the list
   * ["a", ""] of two items of assumed height 10 and the slice [0, 1), it
   * renders no spacer below although the second item is not materialised, so
   * the extent shrinks from 20 to 10. The corrected computation keeps it.
   */
  lemma FalsyLastKeyLosesSpaceBelow()
    ensures var list := ["a", ""];
      var rects := Layout(list, map[], 10);
      BlankSpaceAsWritten(list, rects, Slice(0, 1)) == BlankSpace(0, 0) &&
      ComputeBlankSpace(list, rects, Slice(0, 1)) == BlankSpace(0, 10) &&
      SumHeights(list[0..1], map[], 10) == 10 && SumHeights(list, map[], 10) == 20
  {
    var list := ["a", ""];
    assert Distinct(list);
    LayoutAt(list, map[], 10, 0);
    LayoutAt(list, map[], 10, 1);
    assert list[..1] == ["a"];
    assert list[..0] == [];
    assert list[..1][..0] == [];
    assert list[0..1] == ["a"];
    assert ["a"][..0] == [];
    assert list[..|list| - 1] == ["a"];
  }
}
