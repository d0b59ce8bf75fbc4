/**
 * The scroller component's own state: list, height cache and materialised
 * slice, the caller's keyed height store, the torn-down flag, and the three
 * coalescing wrappers that drive updates and positioning notifications.
 */
module Scroller {
  import opened Wrappers
  import opened Geometry
  import opened Slicing
  import opened SliceMerge
  import opened Blank
  import opened Measurement
  import opened Scheduler

  /** The caller-supplied object that keeps height caches across scroller lifetimes. */
  class HeightStore {
    var entries: map<string, map<Key, int>>

    constructor ()
      ensures entries == map[]
    {
      entries := map[];
    }
  }

  /** The read-only geometry snapshot handed to the positioning observer. */
  datatype Positioning = Positioning(viewportRectangle: Viewport, rectangles: map<Key, Rect>, sliceStart: nat, sliceEnd: nat)

  /** The heights a new scroller starts from: the store's entry under a truthy cache key, else none. */
  function SeededHeights(cacheKey: string, entries: map<string, map<Key, int>>): map<Key, int> {
    if cacheKey != "" && cacheKey in entries then entries[cacheKey] else map[]
  }

  class TurboScroller {
    var list: seq<Key>
    const assumedHeight: int
    const offscreenToViewportRatio: real
    const cacheKey: string
    const heightCache: HeightStore
    var heights: map<Key, int>
    var sliceStart: nat
    var sliceEnd: nat
    var unmounted: bool
    /** Critical updates in the next animation frame; also fed by the scroll handler. */
    const frameUpdate: DelayedExec
    /** Scheduled updates: in idle time when the host offers it, otherwise the same wrapper as `frameUpdate`. */
    const scheduledUpdate: DelayedExec
    /** Positioning notifications. */
    const positioningNotice: DelayedExec

    ghost predicate Valid()
      reads this, frameUpdate, scheduledUpdate, positioningNotice
    {
      sliceStart <= sliceEnd &&
      frameUpdate != positioningNotice && scheduledUpdate != positioningNotice &&
      frameUpdate.Valid() && scheduledUpdate.Valid() && positioningNotice.Valid()
    }

    function CurrentSlice(): Slice
      reads this
    {
      Slice(sliceStart, sliceEnd)
    }

    /**
     * Seeds the height cache from the store and takes the first-paint slice
     * from `initialItemIndex`; the source throws unless that index is in the list.
     */
    constructor (list: seq<Key>, assumedHeight: int, offscreenToViewportRatio: real, initialItemIndex: nat,
                 viewportHeight: int, cacheKey: string, heightCache: HeightStore, hasIdleCallback: bool)
      requires initialItemIndex < |list|
      ensures Valid() && !unmounted
      ensures fresh(frameUpdate) && fresh(scheduledUpdate) && fresh(positioningNotice)
      ensures frameUpdate.scheduled == 0 && scheduledUpdate.scheduled == 0 && positioningNotice.scheduled == 0
      ensures hasIdleCallback <==> scheduledUpdate != frameUpdate
      ensures this.list == list && this.assumedHeight == assumedHeight && this.cacheKey == cacheKey
      ensures this.offscreenToViewportRatio == offscreenToViewportRatio && this.heightCache == heightCache
      ensures heights == SeededHeights(cacheKey, heightCache.entries)
      ensures CurrentSlice() == DefaultSlice(list, Layout(list, heights, assumedHeight), viewportHeight, initialItemIndex)
    {
      this.list := list;
      this.assumedHeight := assumedHeight;
      this.offscreenToViewportRatio := offscreenToViewportRatio;
      this.cacheKey := cacheKey;
      this.heightCache := heightCache;
      var seeded := SeededHeights(cacheKey, heightCache.entries);
      heights := seeded;
      var rects := GetRectangles(list, seeded, assumedHeight);
      var slice := DefaultSlice(list, rects, viewportHeight, initialItemIndex);
      sliceStart, sliceEnd := slice.start, slice.end;
      unmounted := false;
      var critical := new DelayedExec();
      frameUpdate := critical;
      if hasIdleCallback {
        scheduledUpdate := new DelayedExec();
      } else {
        scheduledUpdate := critical;
      }
      positioningNotice := new DelayedExec();
    }

    /** The rectangles of the current list under the current cache. */
    method Rectangles() returns (rects: map<Key, Rect>)
      ensures rects == Layout(list, heights, assumedHeight)
    {
      rects := GetRectangles(list, heights, assumedHeight);
    }

    /**
     * The slice the viewport asks for, or none once torn down or when the
     * list is empty.
     */
    function ComputeSlice(viewport: Viewport): (s: Option<Slice>)
      reads this
      ensures s.None? <==> unmounted || |list| == 0
      ensures s.Some? ==> s.value.start < |list| && s.value.start <= s.value.end <= |list|
    {
      if unmounted || |list| == 0 then None
      else Some(DesiredSlice(list, Layout(list, heights, assumedHeight), viewport, offscreenToViewportRatio))
    }

    /**
     * The containment check: the freshly desired slice lies within the
     * current one, which is exactly when merging would keep the current slice.
     */
    function SliceIncludesScaledViewport(viewport: Viewport): (b: bool)
      reads this
      ensures b <==> ComputeSlice(viewport).Some? && Merge(CurrentSlice(), ComputeSlice(viewport).value) == CurrentSlice()
    {
      var desired := ComputeSlice(viewport);
      desired.Some? && desired.value.start >= sliceStart && desired.value.end <= sliceEnd
    }

    /** Commits a slice; state changes only when the range differs. */
    method SetSlice(newSliceStart: nat, newSliceEnd: nat) returns (committed: bool)
      requires Valid() && newSliceStart <= newSliceEnd
      modifies this`sliceStart, this`sliceEnd
      ensures Valid()
      ensures committed <==> old(CurrentSlice()) != Slice(newSliceStart, newSliceEnd)
      ensures CurrentSlice() == Slice(newSliceStart, newSliceEnd)
    {
      committed := newSliceStart != sliceStart || newSliceEnd != sliceEnd;
      if committed {
        sliceStart, sliceEnd := newSliceStart, newSliceEnd;
      }
    }

    /** Merges a desired slice into the current one and commits the result. */
    method SetNecessarySlice(newSliceStart: nat, newSliceEnd: nat) returns (committed: bool)
      requires Valid() && newSliceStart <= newSliceEnd
      modifies this`sliceStart, this`sliceEnd
      ensures Valid()
      ensures CurrentSlice() == Merge(old(CurrentSlice()), Slice(newSliceStart, newSliceEnd))
      ensures committed <==> !Contains(old(CurrentSlice()), Slice(newSliceStart, newSliceEnd))
    {
      var next := Merge(CurrentSlice(), Slice(newSliceStart, newSliceEnd));
      committed := SetSlice(next.start, next.end);
    }

    /**
     * Recomputes and merges the slice. Once torn down, or with an empty list,
     * nothing changes; otherwise the result holds the desired slice, so an
     * immediate re-check finds it contained.
     */
    method CriticalUpdate(viewport: Viewport) returns (committed: bool)
      requires Valid()
      modifies this`sliceStart, this`sliceEnd
      ensures Valid()
      ensures old(ComputeSlice(viewport)).None? ==> !committed && CurrentSlice() == old(CurrentSlice())
      ensures old(ComputeSlice(viewport)).Some? ==> CurrentSlice() == Merge(old(CurrentSlice()), old(ComputeSlice(viewport)).value)
      ensures committed <==> old(ComputeSlice(viewport)).Some? && !old(SliceIncludesScaledViewport(viewport))
      ensures !unmounted && |list| > 0 ==> SliceIncludesScaledViewport(viewport)
    {
      var desired := ComputeSlice(viewport);
      committed := false;
      if desired.Some? {
        committed := SetNecessarySlice(desired.value.start, desired.value.end);
        MergeIdempotent(old(CurrentSlice()), desired.value);
      }
    }

    /**
     * Folds the measured heights into the cache, copy-on-write, when any of
     * them differs from the cached-or-assumed height.
     */
    method RecordHeights(items: Measured) returns (wasHeightChange: bool, heightDelta: int)
      requires Valid() && DistinctKeys(items)
      modifies this`heights
      ensures Valid()
      ensures wasHeightChange <==> HeightChanged(old(heights), assumedHeight, items)
      ensures heightDelta == Delta(old(heights), assumedHeight, items)
      ensures heights == if wasHeightChange then Overlay(old(heights), items) else old(heights)
      ensures Distinct(list) && (forall j :: 0 <= j < |items| ==> items[j].0 in list) ==>
        SumHeights(list, heights, assumedHeight) == SumHeights(list, old(heights), assumedHeight) + heightDelta
    {
      wasHeightChange, heightDelta := MeasureDelta(heights, assumedHeight, items);
      if Distinct(list) && (forall j :: 0 <= j < |items| ==> items[j].0 in list) {
        OverlayShiftsTotal(list, heights, assumedHeight, items);
        if !wasHeightChange {
          UnchangedDeltaIsZero(heights, assumedHeight, items);
        }
      }
      if wasHeightChange {
        heights := Overlay(heights, items);
      }
    }

    /**
     * After every render: record heights, schedule an update when the list was
     * replaced or the slice no longer holds the desired one, and schedule a
     * positioning notification.
     */
    method PostRenderProcessing(hasListChanged: bool, items: Measured, viewport: Viewport) returns (updateRequested: bool)
      requires Valid() && DistinctKeys(items)
      modifies this`heights, scheduledUpdate, positioningNotice
      ensures Valid()
      ensures heights == if HeightChanged(old(heights), assumedHeight, items) then Overlay(old(heights), items) else old(heights)
      ensures updateRequested <==> hasListChanged || !SliceIncludesScaledViewport(viewport)
      ensures updateRequested ==> scheduledUpdate.scheduled == 1
      ensures !updateRequested ==> scheduledUpdate.handler == old(scheduledUpdate.handler) && scheduledUpdate.scheduled == old(scheduledUpdate.scheduled)
      ensures positioningNotice.scheduled == 1
    {
      var _, _ := RecordHeights(items);
      updateRequested := hasListChanged || !SliceIncludesScaledViewport(viewport);
      if updateRequested {
        var _ := scheduledUpdate.Invoke();
      }
      var _ := positioningNotice.Invoke();
    }

    /** The parent hands over a list; the materialised slice is kept as it was. */
    method ReceiveList(newList: seq<Key>)
      requires Valid()
      modifies this`list
      ensures Valid() && list == newList
    {
      list := newList;
    }

    /** A scroll notification, once past the rate limiter, asks for a frame update. */
    method HandleScroll()
      requires Valid()
      modifies frameUpdate
      ensures Valid() && frameUpdate.scheduled == 1
    {
      var _ := frameUpdate.Invoke();
    }

    /** The host runs the pending frame update. */
    method RunFrameUpdate(viewport: Viewport) returns (committed: bool)
      requires Valid() && frameUpdate.scheduled == 1
      modifies this`sliceStart, this`sliceEnd, frameUpdate
      ensures Valid() && frameUpdate.scheduled == 0
      ensures old(unmounted) ==> !committed && CurrentSlice() == old(CurrentSlice())
      ensures old(ComputeSlice(viewport)).Some? ==> CurrentSlice() == Merge(old(CurrentSlice()), old(ComputeSlice(viewport)).value)
      ensures committed <==> old(ComputeSlice(viewport)).Some? && !old(SliceIncludesScaledViewport(viewport))
    {
      frameUpdate.Fire();
      committed := CriticalUpdate(viewport);
    }

    /** The host runs the pending scheduled update. */
    method RunScheduledUpdate(viewport: Viewport) returns (committed: bool)
      requires Valid() && scheduledUpdate.scheduled == 1
      modifies this`sliceStart, this`sliceEnd, scheduledUpdate
      ensures Valid() && scheduledUpdate.scheduled == 0
      ensures old(unmounted) ==> !committed && CurrentSlice() == old(CurrentSlice())
      ensures old(ComputeSlice(viewport)).Some? ==> CurrentSlice() == Merge(old(CurrentSlice()), old(ComputeSlice(viewport)).value)
      ensures committed <==> old(ComputeSlice(viewport)).Some? && !old(SliceIncludesScaledViewport(viewport))
    {
      scheduledUpdate.Fire();
      committed := CriticalUpdate(viewport);
    }

    /** The snapshot of the current geometry. */
    method GetPositioning(viewport: Viewport) returns (p: Positioning)
      ensures p == Positioning(viewport, Layout(list, heights, assumedHeight), sliceStart, sliceEnd)
      ensures p.rectangles.Keys == set i | 0 <= i < |list| :: list[i]
    {
      var rects := Rectangles();
      p := Positioning(viewport, rects, sliceStart, sliceEnd);
    }

    /** The snapshot handed to the observer, or none once torn down. */
    method NotifyPositioning(viewport: Viewport) returns (snapshot: Option<Positioning>)
      ensures unmounted <==> snapshot.None?
      ensures snapshot.Some? ==> snapshot.value == Positioning(viewport, Layout(list, heights, assumedHeight), sliceStart, sliceEnd)
    {
      if unmounted {
        snapshot := None;
      } else {
        var p := GetPositioning(viewport);
        snapshot := Some(p);
      }
    }

    /** The host runs the pending positioning notification. */
    method RunPositioningNotice(viewport: Viewport) returns (snapshot: Option<Positioning>)
      requires Valid() && positioningNotice.scheduled == 1
      modifies positioningNotice
      ensures Valid() && positioningNotice.scheduled == 0
      ensures unmounted <==> snapshot.None?
      ensures snapshot.Some? ==> snapshot.value == Positioning(viewport, Layout(list, heights, assumedHeight), sliceStart, sliceEnd)
    {
      positioningNotice.Fire();
      snapshot := NotifyPositioning(viewport);
    }

    /** The spacers rendered around the slice, from the current layout. */
    function BlankSpace(): (b: BlankSpace)
      reads this
      requires |list| == 0 || sliceStart < |list|
      ensures Distinct(list) && sliceStart <= sliceEnd <= |list| ==>
        b.above + SumHeights(list[sliceStart..sliceEnd], heights, assumedHeight) + b.below == SumHeights(list, heights, assumedHeight)
    {
      var b := ComputeBlankSpace(list, Layout(list, heights, assumedHeight), CurrentSlice());
      if Distinct(list) && sliceStart <= sliceEnd <= |list| then
        BlankSpaceConservation(list, heights, assumedHeight, CurrentSlice());
        b
      else b
    }

    /**
     * Tears the scroller down: later scheduled work becomes a no-op, and under
     * a truthy cache key the store keeps the cache for the next scroller.
     */
    method Unmount()
      requires Valid()
      modifies this`unmounted, heightCache
      ensures Valid() && unmounted
      ensures heightCache.entries == if cacheKey != "" then old(heightCache.entries)[cacheKey := heights] else old(heightCache.entries)
      ensures cacheKey != "" ==> SeededHeights(cacheKey, heightCache.entries) == heights
    {
      unmounted := true;
      if cacheKey != "" {
        heightCache.entries := heightCache.entries[cacheKey := heights];
      }
    }
  }

  /**
   * The cache round trip: tearing a scroller down and building a new one over
   * the same store and truthy cache key starts the new one from the heights
   * the old one had measured.
   */
  method Remount(first: TurboScroller, initialItemIndex: nat, viewportHeight: int, hasIdleCallback: bool) returns (second: TurboScroller)
    requires first.Valid() && first.cacheKey != "" && initialItemIndex < |first.list|
    modifies first`unmounted, first.heightCache
    ensures first.unmounted
    ensures second.heights == first.heights
    ensures second.CurrentSlice() == DefaultSlice(first.list, Layout(first.list, first.heights, first.assumedHeight), viewportHeight, initialItemIndex)
  {
    first.Unmount();
    second := new TurboScroller(first.list, first.assumedHeight, first.offscreenToViewportRatio, initialItemIndex,
                                viewportHeight, first.cacheKey, first.heightCache, hasIdleCallback);
  }
}
