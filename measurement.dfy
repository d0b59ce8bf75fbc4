/**
 * The measurement feedback loop: comparing measured heights of the
 * materialised items with the cache, and the cache that results.
 */
module Measurement {
  import opened Geometry

  /**
   * The measured heights as the container reports them, one entry per key in
   * its enumeration order; an unregistered cell reports 0.
   */
  type Measured = seq<(Key, int)>

  /** No key is measured twice: the entries come from the keys of one object. */
  predicate DistinctKeys(items: Measured) {
    forall i, j :: 0 <= i < j < |items| ==> items[i].0 != items[j].0
  }

  /** The measured entries as a map, later entries overriding earlier ones as object spread does. */
  function MapOf(items: Measured): (m: map<Key, int>)
    ensures m.Keys == set j | 0 <= j < |items| :: items[j].0
  {
    if items == [] then map[]
    else MapOf(items[..|items| - 1])[items[|items| - 1].0 := items[|items| - 1].1]
  }

  /** Some measured height differs from the cached-or-assumed one. */
  predicate HeightChanged(heights: map<Key, int>, assumedHeight: int, items: Measured) {
    exists j :: 0 <= j < |items| && items[j].1 != HeightOf(heights, assumedHeight, items[j].0)
  }

  /** The sum over the measured entries of new height minus cached-or-assumed height. */
  function Delta(heights: map<Key, int>, assumedHeight: int, items: Measured): int {
    if items == [] then 0
    else
      var last := items[|items| - 1];
      Delta(heights, assumedHeight, items[..|items| - 1]) + (last.1 - HeightOf(heights, assumedHeight, last.0))
  }

  /** The cache after the measured entries are merged into it, copy-on-write. */
  function Overlay(heights: map<Key, int>, items: Measured): map<Key, int> {
    heights + MapOf(items)
  }

  /** The reduce loop that compares the measurements with the cache. */
  method MeasureDelta(heights: map<Key, int>, assumedHeight: int, items: Measured) returns (wasHeightChange: bool, heightDelta: int)
    requires DistinctKeys(items)
    ensures wasHeightChange <==> HeightChanged(heights, assumedHeight, items)
    ensures heightDelta == Delta(heights, assumedHeight, items)
  {
    wasHeightChange, heightDelta := false, 0;
    var i := 0;
    while i < |items|
      invariant 0 <= i <= |items|
      invariant wasHeightChange <==> HeightChanged(heights, assumedHeight, items[..i])
      invariant heightDelta == Delta(heights, assumedHeight, items[..i])
    {
      var (key, newHeight) := items[i];
      var oldHeight := if key in heights then heights[key] else assumedHeight;
      wasHeightChange := wasHeightChange || newHeight != oldHeight;
      heightDelta := heightDelta + (newHeight - oldHeight);
      assert items[..i + 1][..i] == items[..i];
      assert items[..i + 1][i] == items[i];
      i := i + 1;
    }
    assert items[..|items|] == items;
  }

  /** A key's entry in `MapOf` is the height of its last occurrence. */
  lemma {:induction false} MapOfLast(items: Measured, j: nat)
    requires j < |items|
    requires forall i :: j < i < |items| ==> items[i].0 != items[j].0
    ensures items[j].0 in MapOf(items) && MapOf(items)[items[j].0] == items[j].1
  {
    if j < |items| - 1 {
      MapOfLast(items[..|items| - 1], j);
    }
  }

  /** Every entry of `MapOf` is one of the measured heights for that key. */
  lemma {:induction false} MapOfFrom(items: Measured, k: Key)
    requires k in MapOf(items)
    ensures exists j :: 0 <= j < |items| && items[j].0 == k && MapOf(items)[k] == items[j].1
  {
    var last := items[|items| - 1];
    if k != last.0 {
      MapOfFrom(items[..|items| - 1], k);
      var j :| 0 <= j < |items| - 1 && items[..|items| - 1][j].0 == k && MapOf(items[..|items| - 1])[k] == items[..|items| - 1][j].1;
      assert items[j].0 == k;
    } else {
      assert items[|items| - 1].0 == k;
    }
  }

  /**
   * Skipping the write when nothing changed is harmless: the merged cache
   * would give every key the height the old cache already gives it.
   */
  lemma UnchangedOverlayIsInvisible(heights: map<Key, int>, assumedHeight: int, items: Measured)
    requires !HeightChanged(heights, assumedHeight, items)
    ensures forall k :: HeightOf(Overlay(heights, items), assumedHeight, k) == HeightOf(heights, assumedHeight, k)
  {
    forall k ensures HeightOf(Overlay(heights, items), assumedHeight, k) == HeightOf(heights, assumedHeight, k) {
      if k in MapOf(items) {
        MapOfFrom(items, k);
      }
    }
  }

  /**
   * With distinct keys, giving one item of the list a new height changes the
   * list's total height by the change in that item's height.
   */
  lemma SumHeightsUpdate(list: seq<Key>, heights: map<Key, int>, assumedHeight: int, k: Key, v: int)
    requires Distinct(list) && k in list
    ensures SumHeights(list, heights[k := v], assumedHeight)
      == SumHeights(list, heights, assumedHeight) + v - HeightOf(heights, assumedHeight, k)
  {
    var p :| 0 <= p < |list| && list[p] == k;
    HeightChangeShiftsBelow(list, heights, assumedHeight, p, v, |list|);
    assert list[..|list|] == list;
  }

  /**
   * The measured entries are those of a run of the list from `start` on, in
   * whatever order the container enumerates them.
   */
  predicate MeasuresRun(list: seq<Key>, items: Measured, start: nat) {
    start + |items| <= |list| && DistinctKeys(items) &&
    (set j | 0 <= j < |items| :: items[j].0) == (set i | start <= i < start + |items| :: list[i])
  }

  /** With distinct keys, an item outside the measured run has no measurement. */
  lemma OutsideRunUnmeasured(list: seq<Key>, items: Measured, start: nat, p: nat)
    requires Distinct(list) && MeasuresRun(list, items, start)
    requires p < |list| && !(start <= p < start + |items|)
    ensures list[p] !in MapOf(items)
  {
    forall i | start <= i < start + |items| ensures list[i] != list[p] {
      assert i != p;
    }
  }

  /** Every item inside the measured run takes its own measurement. */
  lemma InsideRunMeasured(list: seq<Key>, items: Measured, start: nat, p: nat)
    requires MeasuresRun(list, items, start) && start <= p < start + |items|
    ensures list[p] in MapOf(items)
    ensures exists j :: 0 <= j < |items| && items[j].0 == list[p] && MapOf(items)[list[p]] == items[j].1
  {
    var run := set i | start <= i < start + |items| :: list[i];
    assert list[p] in run;
    assert list[p] in MapOf(items);
    MapOfFrom(items, list[p]);
    var j :| 0 <= j < |items| && items[j].0 == list[p] && MapOf(items)[list[p]] == items[j].1;
  }

  /** Overlaying the entries is overlaying all but the last, then writing the last. */
  lemma OverlayLast(heights: map<Key, int>, items: Measured)
    requires items != []
    ensures Overlay(heights, items)
      == Overlay(heights, items[..|items| - 1])[items[|items| - 1].0 := items[|items| - 1].1]
  {
  }

  /**
   * When the measured keys are distinct items of a list with distinct keys,
   * in any order, merging the measurements changes the list's total height
   * by exactly the reported delta.
   */
  lemma {:induction false} OverlayShiftsTotal(list: seq<Key>, heights: map<Key, int>, assumedHeight: int, items: Measured)
    requires Distinct(list) && DistinctKeys(items)
    requires forall j :: 0 <= j < |items| ==> items[j].0 in list
    ensures SumHeights(list, Overlay(heights, items), assumedHeight)
      == SumHeights(list, heights, assumedHeight) + Delta(heights, assumedHeight, items)
  {
    if items == [] {
      assert Overlay(heights, items) == heights;
    } else {
      var init := items[..|items| - 1];
      var k, v := items[|items| - 1].0, items[|items| - 1].1;
      assert forall j :: 0 <= j < |init| ==> init[j] == items[j];
      OverlayShiftsTotal(list, heights, assumedHeight, init);
      var before := Overlay(heights, init);
      OverlayLast(heights, items);
      assert k !in MapOf(init) by {
        forall j | 0 <= j < |init| ensures init[j].0 != k {
          assert init[j] == items[j];
        }
      }
      assert HeightOf(before, assumedHeight, k) == HeightOf(heights, assumedHeight, k);
      SumHeightsUpdate(list, before, assumedHeight, k, v);
      assert Delta(heights, assumedHeight, items) == Delta(heights, assumedHeight, init) + v - HeightOf(heights, assumedHeight, k);
    }
  }

  /** When no measured height differs from the cache, the reported delta is 0. */
  lemma {:induction false} UnchangedDeltaIsZero(heights: map<Key, int>, assumedHeight: int, items: Measured)
    requires !HeightChanged(heights, assumedHeight, items)
    ensures Delta(heights, assumedHeight, items) == 0
  {
    if items != [] {
      var init := items[..|items| - 1];
      assert !HeightChanged(heights, assumedHeight, init) by {
        forall j | 0 <= j < |init| ensures init[j].1 == HeightOf(heights, assumedHeight, init[j].0) {
          assert init[j] == items[j];
        }
      }
      UnchangedDeltaIsZero(heights, assumedHeight, init);
    }
  }

  /** A run measured in any order shifts the list's total height by the reported delta. */
  lemma RunShiftsTotal(list: seq<Key>, heights: map<Key, int>, assumedHeight: int, items: Measured, start: nat)
    requires Distinct(list) && MeasuresRun(list, items, start)
    ensures SumHeights(list, Overlay(heights, items), assumedHeight)
      == SumHeights(list, heights, assumedHeight) + Delta(heights, assumedHeight, items)
  {
    forall j | 0 <= j < |items| ensures items[j].0 in list {
      assert items[j].0 in MapOf(items);
      assert items[j].0 in (set i | start <= i < start + |items| :: list[i]);
    }
    OverlayShiftsTotal(list, heights, assumedHeight, items);
  }
}
