/**
 * The slice merge policy: how the materialised slice moves towards a newly
 * desired one without dropping items on every minor recomputation.
 */
module SliceMerge {
  import opened Slicing

  /** `inner` lies within `outer`. */
  predicate Contains(outer: Slice, inner: Slice) {
    outer.start <= inner.start && inner.end <= outer.end
  }

  /** The source's disjointness test: one slice ends where, or before, the other starts. */
  predicate Apart(current: Slice, desired: Slice) {
    desired.start >= current.end || desired.end <= current.start
  }

  predicate WellFormed(s: Slice) {
    s.start <= s.end
  }

  function Min(a: int, b: int): int { if a <= b then a else b }

  function Max(a: int, b: int): int { if a >= b then a else b }

  /** The larger of the two one-sided extensions `current` needs to reach `desired`. */
  function Diff(current: Slice, desired: Slice): (d: int)
    ensures d >= current.start - desired.start && d >= desired.end - current.end
    ensures d == current.start - desired.start || d == desired.end - current.end
    ensures !Contains(current, desired) ==> d > 0
  {
    Max(current.start - desired.start, desired.end - current.end)
  }

  /**
   * The next materialised slice: `current` when it already holds `desired`,
   * `desired` when the two are apart, and otherwise each side of `current`
   * moved by `Diff` towards `desired`, but no further than `desired`'s own edge.
   */
  function Merge(current: Slice, desired: Slice): (r: Slice)
    ensures Contains(r, desired)
    ensures Min(current.start, desired.start) <= r.start && r.end <= Max(current.end, desired.end)
    ensures WellFormed(desired) ==> WellFormed(r)
    ensures r == current <==> Contains(current, desired)
    ensures !Contains(current, desired) && Apart(current, desired) ==> r == desired
    ensures !Contains(current, desired) && !Apart(current, desired) ==>
      r.start <= current.start + Diff(current, desired) && current.end - Diff(current, desired) <= r.end
    ensures !Contains(current, desired) && !Apart(current, desired) ==>
      (r.start == desired.start || r.start == current.start + Diff(current, desired)) &&
      (r.end == desired.end || r.end == current.end - Diff(current, desired))
  {
    if Contains(current, desired) then current
    else if Apart(current, desired) then desired
    else
      var diff := Diff(current, desired);
      Slice(Min(current.start + diff, desired.start), Max(current.end - diff, desired.end))
  }

  /** One merge step already reaches a fixed point for a fixed desired slice. */
  lemma MergeIdempotent(current: Slice, desired: Slice)
    ensures Merge(Merge(current, desired), desired) == Merge(current, desired)
  {
  }

  /**
   * Repeated merging need not reach the desired slice: from [0, 10) towards
   * [5, 12) the first step gives [2, 12), which already holds [5, 12) and is
   * therefore kept for ever.
   */
  lemma MergeStopsShortOfDesired()
    ensures Merge(Slice(0, 10), Slice(5, 12)) == Slice(2, 12)
    ensures Merge(Slice(2, 12), Slice(5, 12)) == Slice(2, 12) != Slice(5, 12)
  {
  }
}
