/** Small helper datatypes shared by the other modules. */
module Wrappers {
  datatype Option<+T> = None | Some(value: T)
}

/**
 * The layout model: a list of item keys plus a height cache become one
 * rectangle per item, laid out top to bottom as a running prefix sum.
 */
module Geometry {

  /** Item keys are JavaScript object property names, hence strings. */
  type Key = string

  /** Geometry of one item in list coordinates. */
  datatype Rect = Rect(top: int, height: int, bottom: int)

  predicate Distinct(list: seq<Key>) {
    forall i, j :: 0 <= i < j < |list| ==> list[i] != list[j]
  }

  /** Heights as the DOM reports them are never negative. */
  predicate NonNegative(heights: map<Key, int>, assumedHeight: int) {
    assumedHeight >= 0 && forall k :: k in heights ==> heights[k] >= 0
  }

  /** The cached height of `k` when the cache has one, else the assumed height. */
  function HeightOf(heights: map<Key, int>, assumedHeight: int, k: Key): int {
    if k in heights then heights[k] else assumedHeight
  }

  /** Total height of `keys`, each at its cached-or-assumed height. */
  function SumHeights(keys: seq<Key>, heights: map<Key, int>, assumedHeight: int): int {
    if keys == [] then 0
    else SumHeights(keys[..|keys| - 1], heights, assumedHeight) + HeightOf(heights, assumedHeight, keys[|keys| - 1])
  }

  /** The top edge of item `i`: the height of everything before it. */
  function Top(list: seq<Key>, heights: map<Key, int>, assumedHeight: int, i: nat): int
    requires i <= |list|
  {
    SumHeights(list[..i], heights, assumedHeight)
  }

  /** The rectangle the layout gives the item at position `i`. */
  function RectAt(list: seq<Key>, heights: map<Key, int>, assumedHeight: int, i: nat): Rect
    requires i < |list|
  {
    var top := Top(list, heights, assumedHeight, i);
    var height := HeightOf(heights, assumedHeight, list[i]);
    Rect(top, height, top + height)
  }

  /** The rectangle map after the first `n` items have been laid out. */
  function LayoutUpTo(list: seq<Key>, heights: map<Key, int>, assumedHeight: int, n: nat): (r: map<Key, Rect>)
    requires n <= |list|
    ensures r.Keys == set i | 0 <= i < n :: list[i]
  {
    if n == 0 then map[]
    else LayoutUpTo(list, heights, assumedHeight, n - 1)[list[n - 1] := RectAt(list, heights, assumedHeight, n - 1)]
  }

  /** The rectangle map for the whole list, keyed by item key. */
  function Layout(list: seq<Key>, heights: map<Key, int>, assumedHeight: int): (r: map<Key, Rect>)
    ensures r.Keys == set i | 0 <= i < |list| :: list[i]
  {
    LayoutUpTo(list, heights, assumedHeight, |list|)
  }

  /**
   * Builds the rectangle map with a running `top`, as the source's reduce
   * loop does. With distinct keys every item's entry is its prefix-sum rectangle.
   */
  method GetRectangles(list: seq<Key>, heights: map<Key, int>, assumedHeight: int) returns (rects: map<Key, Rect>)
    ensures rects == Layout(list, heights, assumedHeight)
    ensures Distinct(list) ==>
      forall i :: 0 <= i < |list| ==> list[i] in rects && rects[list[i]] == RectAt(list, heights, assumedHeight, i)
  {
    rects := map[];
    var top := 0;
    var i := 0;
    while i < |list|
      invariant 0 <= i <= |list|
      invariant rects == LayoutUpTo(list, heights, assumedHeight, i)
      invariant top == Top(list, heights, assumedHeight, i)
    {
      var itemKey := list[i];
      var height := if itemKey in heights then heights[itemKey] else assumedHeight;
      var rectangle := Rect(top, height, top + height);
      rects := rects[itemKey := rectangle];
      top := rectangle.bottom;
      TopStep(list, heights, assumedHeight, i);
      i := i + 1;
    }
    if Distinct(list) {
      forall i | 0 <= i < |list|
        ensures list[i] in rects && rects[list[i]] == RectAt(list, heights, assumedHeight, i)
      {
        LayoutAt(list, heights, assumedHeight, i);
      }
    }
  }

  lemma TopStep(list: seq<Key>, heights: map<Key, int>, assumedHeight: int, i: nat)
    requires i < |list|
    ensures Top(list, heights, assumedHeight, i + 1) == Top(list, heights, assumedHeight, i) + HeightOf(heights, assumedHeight, list[i])
  {
    assert list[..i + 1][..i] == list[..i];
  }

  /** An item's entry is the rectangle of its last occurrence among the first `n` items. */
  lemma {:induction false} LayoutUpToAt(list: seq<Key>, heights: map<Key, int>, assumedHeight: int, n: nat, i: nat)
    requires i < n <= |list|
    requires forall j :: i < j < n ==> list[j] != list[i]
    ensures list[i] in LayoutUpTo(list, heights, assumedHeight, n)
    ensures LayoutUpTo(list, heights, assumedHeight, n)[list[i]] == RectAt(list, heights, assumedHeight, i)
  {
    if i < n - 1 {
      LayoutUpToAt(list, heights, assumedHeight, n - 1, i);
    }
  }

  /** With distinct keys, the map entry of `list[i]` is the rectangle of position `i`. */
  lemma LayoutAt(list: seq<Key>, heights: map<Key, int>, assumedHeight: int, i: nat)
    requires Distinct(list) && i < |list|
    ensures list[i] in Layout(list, heights, assumedHeight)
    ensures Layout(list, heights, assumedHeight)[list[i]] == RectAt(list, heights, assumedHeight, i)
  {
    LayoutUpToAt(list, heights, assumedHeight, |list|, i);
  }

  /**
   * The prefix-sum invariant: the first item starts at 0, every item's bottom
   * is its top plus its cached-or-assumed height, and every item starts where
   * the previous one ends.
   */
  lemma LayoutIsPrefixSum(list: seq<Key>, heights: map<Key, int>, assumedHeight: int)
    requires Distinct(list)
    ensures var rects := Layout(list, heights, assumedHeight);
      |list| > 0 ==> rects[list[0]].top == 0
    ensures var rects := Layout(list, heights, assumedHeight);
      forall i :: 0 <= i < |list| ==>
        rects[list[i]].height == HeightOf(heights, assumedHeight, list[i]) &&
        rects[list[i]].bottom == rects[list[i]].top + rects[list[i]].height
    ensures var rects := Layout(list, heights, assumedHeight);
      forall i :: 0 <= i < |list| - 1 ==> rects[list[i]].bottom == rects[list[i + 1]].top
  {
    forall i | 0 <= i < |list|
      ensures Layout(list, heights, assumedHeight)[list[i]] == RectAt(list, heights, assumedHeight, i)
    {
      LayoutAt(list, heights, assumedHeight, i);
    }
    forall i | 0 <= i < |list| - 1
      ensures RectAt(list, heights, assumedHeight, i).bottom == RectAt(list, heights, assumedHeight, i + 1).top
    {
      TopStep(list, heights, assumedHeight, i);
    }
  }

  lemma {:induction false} SumHeightsConcat(x: seq<Key>, y: seq<Key>, heights: map<Key, int>, assumedHeight: int)
    ensures SumHeights(x + y, heights, assumedHeight) == SumHeights(x, heights, assumedHeight) + SumHeights(y, heights, assumedHeight)
  {
    if y == [] {
      assert x + y == x;
    } else {
      var y' := y[..|y| - 1];
      assert (x + y)[..|x + y| - 1] == x + y';
      SumHeightsConcat(x, y', heights, assumedHeight);
    }
  }

  /** The distance between two tops is the height of the items between them. */
  lemma SpanBetween(list: seq<Key>, heights: map<Key, int>, assumedHeight: int, i: nat, j: nat)
    requires i <= j <= |list|
    ensures Top(list, heights, assumedHeight, j) - Top(list, heights, assumedHeight, i) == SumHeights(list[i..j], heights, assumedHeight)
  {
    assert list[..j] == list[..i] + list[i..j];
    SumHeightsConcat(list[..i], list[i..j], heights, assumedHeight);
  }

  lemma {:induction false} SumHeightsNonNegative(keys: seq<Key>, heights: map<Key, int>, assumedHeight: int)
    requires NonNegative(heights, assumedHeight)
    ensures SumHeights(keys, heights, assumedHeight) >= 0
  {
    if keys != [] {
      SumHeightsNonNegative(keys[..|keys| - 1], heights, assumedHeight);
    }
  }

  /** With non-negative heights, tops never decrease down the list. */
  lemma TopMonotone(list: seq<Key>, heights: map<Key, int>, assumedHeight: int, i: nat, j: nat)
    requires NonNegative(heights, assumedHeight)
    requires i <= j <= |list|
    ensures Top(list, heights, assumedHeight, i) <= Top(list, heights, assumedHeight, j)
  {
    SpanBetween(list, heights, assumedHeight, i, j);
    SumHeightsNonNegative(list[i..j], heights, assumedHeight);
  }

  /**
   * Measuring item `k` at a new height `v` leaves every item above it where it
   * was and moves every item below it by the change in `k`'s height.
   */
  lemma {:induction false} HeightChangeShiftsBelow(list: seq<Key>, heights: map<Key, int>, assumedHeight: int, k: nat, v: int, i: nat)
    requires Distinct(list) && k < |list| && i <= |list|
    ensures var heights' := heights[list[k] := v];
      Top(list, heights', assumedHeight, i) ==
        if i <= k then Top(list, heights, assumedHeight, i)
        else Top(list, heights, assumedHeight, i) + v - HeightOf(heights, assumedHeight, list[k])
  {
    var heights' := heights[list[k] := v];
    if i > 0 {
      HeightChangeShiftsBelow(list, heights, assumedHeight, k, v, i - 1);
      TopStep(list, heights, assumedHeight, i - 1);
      TopStep(list, heights', assumedHeight, i - 1);
      if i - 1 != k {
        assert list[i - 1] != list[k];
      }
    }
  }
}
