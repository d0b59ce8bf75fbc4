# Windowing engine of react-turbo-scroller, in Dafny

This project models the windowing engine of `TurboScroller`. The engine keeps
a geometric model of a long list of variable-height items and chooses which
contiguous index range `[sliceStart, sliceEnd)` to render. The model covers:

- the layout model: a running prefix sum over the list that gives each item a
  rectangle `{top, height, bottom}`, using the cached height or the assumed height;
- the first-paint slice, which grows from `initialItemIndex` until it covers one viewport;
- the steady-state slice, taken from the viewport widened by `height * offscreenToViewportRatio` on each side;
- the merge policy (`getNewSlice`) and the commit of a slice that changed;
- the blank spacers above and below the slice;
- the height-measurement feedback, which compares measurements with the
  cache, sums the delta and merges the cache copy-on-write;
- the coalescing wrapper `delayExecFunc`, which keeps at most one execution pending;
- the component's lifecycle state: the cache seeded from and written back to
  the caller's store under a cache key, and the torn-down flag that turns
  later scheduled work into no-ops.

Modules, leaves first:

- `Geometry` (layout.dfy): keys, rectangles, the `Layout` specification, the `GetRectangles` loop and prefix-sum lemmas.
- `Slicing` (slicing.dfy): `findIndex`, the first-paint slice and the steady-state slice.
- `SliceMerge` (merge.dfy): the merge policy.
- `Blank` (blank.dfy): the blank spacers.
- `Measurement` (measurement.dfy): the measurement comparison and the cache overlay.
- `Scheduler` (scheduler.dfy): the coalescing wrapper.
- `Scroller` (scroller.dfy): the component's state as a class.

Abstractions:

- Keys are strings, as JavaScript object property names are. A key is falsy only when it is `""`.
- Heights and viewport coordinates are unbounded integers. The overscan ratio is an exact `real`, and the band edges are reals.
- The relative viewport rectangle is an input `Viewport(top, height)`. The caller passes `{0, 0}` when the container is absent.
- The measurement input is the container's reported map, given as a sequence of `(key, height)` entries in enumeration order. No key appears twice, because the entries are the keys of one object. The order is arbitrary: `Object.keys` lists integer-like keys first, so the entries need not follow the list. An unregistered cell reports 0.
- The geometric lemmas assume the list's keys are distinct. `GetRectangles` itself is specified for any list: the map entry of a repeated key is the rectangle of its last occurrence.

Behaviour of the code that the model keeps:

- The first-paint slice uses no overscan band. It only grows from the start item until the items after it reach one viewport height.
- Merging reaches a fixed point after one step (`MergeIdempotent`). That fixed point holds the desired slice but does not in general equal it (`MergeStopsShortOfDesired`).
- A cell that is not registered reports 0, and `_recordHeights` records that 0 like any other measurement.
- Cached heights persist in the store only under a truthy cache key.

## Model

| member | source | states |
|---|---|---|
| `Geometry.LayoutUpTo` | src/TurboScroller.js:197-211 | after `n` items the rectangle map has exactly the keys of the first `n` items |
| `Geometry.Layout` | src/TurboScroller.js:192-212 | the rectangle map has one entry per key of the list and no other |
| `Geometry.GetRectangles` | src/TurboScroller.js:192-212 | the running-`top` loop builds the layout map; with distinct keys, item `i`'s entry is its prefix-sum rectangle |
| `Geometry.TopStep` | src/TurboScroller.js:203-208 | the next item's top is this item's top plus its cached-or-assumed height |
| `Geometry.LayoutUpToAt` | src/TurboScroller.js:206 | a key's entry is the rectangle of its last occurrence, because later writes overwrite earlier ones |
| `Geometry.LayoutAt` | src/TurboScroller.js:206 | with distinct keys, the entry of `list[i]` is the rectangle of position `i` |
| `Geometry.LayoutIsPrefixSum` | src/TurboScroller.js:195-211 | the first top is 0; each bottom is top plus height; each height is the cached value when present, else the assumed height; each top equals the previous bottom |
| `Geometry.SpanBetween` | src/TurboScroller.js:195-208 | the distance between two tops is the total height of the items between them |
| `Geometry.TopMonotone` | src/TurboScroller.js:203-208 | with non-negative heights, tops never decrease down the list |
| `Geometry.HeightChangeShiftsBelow` | src/TurboScroller.js:198 | a new height for one item leaves the items above it in place and moves every item below it by the change |
| `Slicing.FindIndex` | src/TurboScroller.js:176 | the result is -1 exactly when no item from `from` on satisfies the test; otherwise it is the first index that does |
| `Slicing.DefaultSlice` | src/TurboScroller.js:140-159 | the slice starts at the given index; it ends at the first later item whose top minus the start item's bottom reaches the viewport height, or at the list's length; so `start <= end <= length` |
| `Slicing.GapBetween` | src/TurboScroller.js:151 | on the layout, one item's top minus an earlier item's bottom is the height of the items between them |
| `Slicing.DefaultSliceReachesViewport` | src/TurboScroller.js:148-153 | when the first-paint slice stops short of the end, the items after its start span at least one viewport height |
| `Slicing.DefaultSliceIsMinimal` | src/TurboScroller.js:150-152 | without its last item, the items after the start of the first-paint slice span less than one viewport height |
| `Slicing.DefaultSliceNonEmpty` | src/TurboScroller.js:148-153 | with a positive viewport height and non-negative heights, the first-paint slice holds its start item |
| `Slicing.DesiredSlice` | src/TurboScroller.js:169-182 | `start` is the first item whose bottom is past the band top, or the last item if there is none; `end` is the first item from `start` whose top is at or past the band bottom, or the length; `0 <= start < length` and `start <= end <= length` |
| `Slicing.DesiredSliceCoversBand` | src/TurboScroller.js:170-182 | with non-negative heights, every item that reaches into the widened band lies inside the desired slice |
| `SliceMerge.Diff` | src/TurboScroller.js:300 | `diff` is the larger one-sided extension, and it is positive whenever current does not hold desired |
| `SliceMerge.Merge` | src/TurboScroller.js:292-306 | the result holds desired and lies within the hull of both slices; it is well-formed when desired is; it equals current exactly when current holds desired; it equals desired when the two are apart; in the overlap branch each side of current moves by exactly `diff` towards desired, or stops at desired's edge when that is nearer |
| `SliceMerge.MergeIdempotent` | src/TurboScroller.js:293-295 | merging the result again with the same desired slice changes nothing |
| `SliceMerge.MergeStopsShortOfDesired` | src/TurboScroller.js:300-305 | merging [0,10) towards [5,12) gives [2,12), which is then kept for ever, so repeated merging does not reach desired |
| `Blank.BlankSpaceAsWritten` | src/TurboScroller.js:214-227 | both spacers are 0 for an empty list; the space below is 0 whenever the last key is falsy |
| `Blank.ComputeBlankSpace` | src/TurboScroller.js:219-225 | both spacers are 0 for an empty list; the space below is 0 when the slice reaches the end |
| `Blank.SpacerAboveIsTop` | src/TurboScroller.js:219 | on the layout, the space above is the top of the slice's first item |
| `Blank.SpacerBelowIsRest` | src/TurboScroller.js:225 | on the layout, the space below runs from the top of the first item after the slice to the bottom of the list |
| `Blank.BlankSpaceConservation` | src/TurboScroller.js:219-225 | on the layout, the space above is the height of the items before the slice and the space below that of the items after it; with the slice's items they add up to the height of the whole list |
| `Blank.BlankSpaceAsWrittenWithTruthyLastKey` | src/TurboScroller.js:214-227 | while the last key is truthy, the code as written gives the same split: above is the height before the slice, below the height after it, and the three parts add up to the whole list |
| `Blank.FalsyLastKeyLosesSpaceBelow` | src/TurboScroller.js:221-225 | with last key `""`, the code as written drops 10 units of space below that the corrected computation keeps |
| `Measurement.MapOf` | src/TurboScroller.js:251-254 | the spread-in measurements have exactly the measured keys |
| `Measurement.MeasureDelta` | src/TurboScroller.js:240-248 | `wasHeightChange` holds iff some measured height differs from the cached-or-assumed height; `heightDelta` is the sum of new minus old over the measured keys; the measured keys are distinct |
| `Measurement.MapOfLast` | src/TurboScroller.js:251-254 | after the spread, a measured key holds the height of its last measurement |
| `Measurement.MapOfFrom` | src/TurboScroller.js:251-254 | every spread-in height is one of the measurements for that key |
| `Measurement.OutsideRunUnmeasured` | src/TurboScroller.js:251-254 | when the measured keys are those of a run of the list, in any order, an item outside the run gets no measurement from the spread |
| `Measurement.InsideRunMeasured` | src/TurboScroller.js:251-254 | when the measured keys are those of a run of the list, in any order, every item of the run takes its own measurement from the spread |
| `Measurement.SumHeightsUpdate` | src/TurboScroller.js:251-254 | with distinct keys, a new height for one item changes the list's total height by the change in that item's height |
| `Measurement.UnchangedDeltaIsZero` | src/TurboScroller.js:240-248 | when no measured height differs from the cache, `heightDelta` is 0 |
| `Measurement.UnchangedOverlayIsInvisible` | src/TurboScroller.js:250-255 | when nothing changed, merging would give every key the height it already has, so skipping the write is harmless |
| `Measurement.OverlayShiftsTotal` | src/TurboScroller.js:240-255 | when the measured keys are distinct items of a list with distinct keys, in any order, merging changes the list's total height by exactly `heightDelta` |
| `Measurement.RunShiftsTotal` | src/TurboScroller.js:240-255 | when the measured keys are those of a run of the list, in any enumeration order, merging changes the list's total height by exactly `heightDelta` |
| `Scheduler.DelayedExec.constructor` | src/TurboScroller.js:10 | a new wrapper has no pending handle and nothing scheduled |
| `Scheduler.DelayedExec.Invoke` | src/TurboScroller.js:17-23 | a callback is scheduled only when no handle is pending; the wrapper returns the pending handle, the old one if there was one; at most one execution is ever pending |
| `Scheduler.DelayedExec.Fire` | src/TurboScroller.js:12-15 | running the callback clears the handle, so the next invocation schedules anew |
| `Scheduler.Burst` | src/TurboScroller.js:17-23 | a burst of invocations schedules at most one callback and hands every caller the same handle |
| `Scroller.TurboScroller.constructor` | src/TurboScroller.js:27-60 | the cache is the store's entry under a truthy cache key (else empty); the slice is the first-paint slice from `initialItemIndex`; the update wrapper is shared with the frame wrapper exactly when there is no idle callback |
| `Scroller.TurboScroller.Rectangles` | src/TurboScroller.js:192-193 | the current rectangles are the layout of the current list under the current cache |
| `Scroller.TurboScroller.ComputeSlice` | src/TurboScroller.js:161-190 | there is no slice exactly when torn down or the list is empty; otherwise it is the desired slice, within the list |
| `Scroller.TurboScroller.SliceIncludesScaledViewport` | src/TurboScroller.js:273-279 | the containment check holds exactly when a desired slice exists and merging it would keep the current slice |
| `Scroller.TurboScroller.SetSlice` | src/TurboScroller.js:325-334 | a commit is reported exactly when the range differs; the state is the new range |
| `Scroller.TurboScroller.SetNecessarySlice` | src/TurboScroller.js:291-323 | the new slice is the merge of the old and desired slices; state changes exactly when the old slice did not hold desired |
| `Scroller.TurboScroller.CriticalUpdate` | src/TurboScroller.js:281-289 | torn down or empty list: nothing changes; otherwise the slice becomes the merge; a commit happens exactly when the containment check failed; afterwards the check holds |
| `Scroller.TurboScroller.RecordHeights` | src/TurboScroller.js:229-261 | reports change and delta as measured; the cache becomes old cache overridden by the measurements when changed, and is untouched otherwise; when the measured keys are items of a list with distinct keys, the list's total height changes by exactly `heightDelta` |
| `Scroller.TurboScroller.PostRenderProcessing` | src/TurboScroller.js:263-271 | records heights; an update is scheduled exactly when the list changed or the containment check fails; a positioning notification is always pending afterwards |
| `Scroller.TurboScroller.ReceiveList` | src/TurboScroller.js:84-88 | a new list replaces the old one and leaves the slice and cache as they were |
| `Scroller.TurboScroller.HandleScroll` | src/TurboScroller.js:56-59 | a scroll that passes the rate limiter leaves a frame update pending |
| `Scroller.TurboScroller.RunFrameUpdate` | src/TurboScroller.js:43 | the fired frame update clears its handle; after teardown it changes nothing; while mounted with a non-empty list the slice becomes the merge of the old and desired slices, committed exactly when the containment check failed |
| `Scroller.TurboScroller.RunScheduledUpdate` | src/TurboScroller.js:45-47 | the fired scheduled update clears its handle; after teardown it changes nothing; while mounted with a non-empty list the slice becomes the merge of the old and desired slices, committed exactly when the containment check failed |
| `Scroller.TurboScroller.GetPositioning` | src/TurboScroller.js:96-105 | the snapshot holds the viewport, the current layout and the current slice |
| `Scroller.TurboScroller.NotifyPositioning` | src/TurboScroller.js:90-94 | there is no notification exactly when torn down; otherwise the observer receives the snapshot |
| `Scroller.TurboScroller.RunPositioningNotice` | src/TurboScroller.js:49-54 | the fired notification clears its handle and notifies only while mounted; the snapshot holds the viewport, the current layout and the current slice |
| `Scroller.TurboScroller.BlankSpace` | src/TurboScroller.js:214-227 | uses the corrected computation of the falsy-key finding below; with distinct keys and a slice within the list, the spacers and the slice's items add up to the whole list |
| `Scroller.TurboScroller.Unmount` | src/TurboScroller.js:70-82 | sets the torn-down flag; under a truthy cache key the store's entry becomes the cache, and other entries are unchanged |
| `Scroller.Remount` | src/TurboScroller.js:79-81 | a scroller built over the same store and key after teardown starts from the measured heights, and its first-paint layout reflects them |

## Left out

- React rendering and lifecycle glue: `render`, `setState` batching, `propTypes` and `defaultProps`. The default is declared under `assumedItemHeight`, so `assumedHeight` has no effective default and is an input.
- DOM geometry: `_getRelativeViewportRect`, `getBoundingClientRect`, `Math.ceil` and `findDOMNode`. The relative viewport rectangle is an input, and so is the viewport height read at construction.
- Host timing: the `lodash.debounce` rate limiter (100 ms, trailing, `maxWait` 100 ms), `requestAnimationFrame`, and `requestIdleCallback` with its 500 ms timeout. `DelayedExec` models a host that holds scheduled callbacks and hands out positive ids. `HandleScroll` models only a scroll that has passed the rate limiter. Whether the host offers idle callbacks is a constructor input.
- The `_schedulePositioningNotification()` call inside `_computeSlice` (src/TurboScroller.js:184): `ComputeSlice` is a pure function. `PostRenderProcessing` still schedules the notification.
- The `onPositioningUpdate` callback: `NotifyPositioning` returns the snapshot instead of calling out.
- The scroll subscription at mount and its removal at teardown.
- The `!this._turboContainer` branch of `_recordHeights`: a React ref object is always truthy, so the branch is dead. When the container is not mounted the code throws; the model takes the measurements as input.
- List identity: the code compares the list by reference (`!==`). `PostRenderProcessing` takes `hasListChanged` as an input.
- Floating-point heights and the default ratio 0.5: heights are integers and the ratio is an exact real.
- Numeric keys: list entries such as `0` are falsy numbers in JavaScript but become the truthy property name `"0"`. Keys are strings here, so only `""` is falsy. The same holds for `cacheKey`, which the code accepts as any value: a numeric `0` cache key is falsy there, so neither seeding nor persisting happens, while the string `"0"` here is truthy.
- `Scroller.TurboScroller.BlankSpace`: computes the corrected spacers (`Blank.ComputeBlankSpace`), not the code as written at src/TurboScroller.js:225. For a falsy last key and a slice that stops short of the end, the code renders no space below and this member renders the height of the items after the slice. It also requires the slice to start inside a non-empty list. The code throws when a shorter list arrives and the old slice starts past its end, and the model does not represent that failure.
- `Scroller.TurboScroller.constructor`: requires `initialItemIndex` to lie inside the list. The code throws on an empty list or an index past its end, when it reads the start item's rectangle, and the model does not represent that failure. `Slicing.DefaultSlice` carries the same requirement.
- `Scroller.TurboScroller.ComputeSlice`: its contract states the bounds and the unmounted/empty cases; the selection rule itself is stated on `Slicing.DesiredSlice`.
- src/TurboContainer.js, src/TurboCell.js and demo/src/index.js are not part of this model. The container's only role here is the measurement input, which reports 0 for an unregistered cell.

## Findings

| source | as written | input that shows it | evidently intended | confidence | as-written member | corrected member |
|---|---|---|---|---|---|---|
| src/TurboScroller.js:225 | the space below is 0 whenever the last key is falsy | list `["a", ""]`, empty cache, assumed height 10, slice [0, 1): below is 0, so the extent is 10 instead of 20 | the space below is 0 only when the slice reaches the end of the list; for an empty list that test already holds | medium, not executed | `Blank.BlankSpaceAsWritten`, `Blank.FalsyLastKeyLosesSpaceBelow` | `Blank.ComputeBlankSpace`, `Blank.BlankSpaceConservation`, `Scroller.TurboScroller.BlankSpace` |
