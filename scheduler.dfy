/**
 * The coalescing wrapper around a host scheduling primitive
 * (`requestAnimationFrame` or `requestIdleCallback`): at most one execution
 * of the wrapped function is pending at any time.
 */
module Scheduler {

  /**
   * One wrapper with its closed-over handle. The host primitive is modelled
   * by `scheduled`, the number of callbacks the host holds for this wrapper,
   * and `nextId`, the positive id it hands out next.
   */
  class DelayedExec {
    /** The pending handle; 0 plays the role of `null`. */
    var handler: nat
    var scheduled: nat
    var nextId: nat

    ghost predicate Valid()
      reads this
    {
      0 < nextId && handler < nextId &&
      scheduled <= 1 &&
      (scheduled == 1 <==> handler != 0)
    }

    constructor ()
      ensures Valid() && handler == 0 && scheduled == 0
    {
      handler, scheduled, nextId := 0, 0, 1;
    }

    /**
     * Invoking the wrapper: schedules a callback only when none is pending,
     * and returns the pending handle either way.
     */
    method Invoke() returns (h: nat)
      requires Valid()
      modifies this
      ensures Valid()
      ensures h == handler && h != 0 && scheduled == 1
      ensures old(handler) != 0 ==> h == old(handler) && nextId == old(nextId)
      ensures old(handler) == 0 ==> h == old(nextId) && nextId == old(nextId) + 1
    {
      if handler == 0 {
        handler := nextId;
        nextId := nextId + 1;
        scheduled := scheduled + 1;
      }
      h := handler;
    }

    /**
     * The host runs the scheduled callback: the handle is cleared before the
     * wrapped function runs, so the next invocation schedules anew.
     */
    method Fire()
      requires Valid() && scheduled == 1
      modifies this
      ensures Valid()
      ensures handler == 0 && scheduled == 0 && nextId == old(nextId)
    {
      scheduled := scheduled - 1;
      handler := 0;
    }
  }

  /**
   * A burst of invocations with nothing fired in between schedules at most
   * one callback, and every invocation of the burst gets the same handle.
   */
  method Burst(d: DelayedExec, n: nat) returns (handles: seq<nat>)
    requires d.Valid() && n > 0
    modifies d
    ensures d.Valid() && d.scheduled == 1
    ensures |handles| == n && forall i :: 0 <= i < n ==> handles[i] == d.handler
    ensures old(d.handler) != 0 ==> d.handler == old(d.handler)
    ensures d.nextId <= old(d.nextId) + 1
  {
    var h := d.Invoke();
    handles := [h];
    while |handles| < n
      invariant d.Valid() && d.scheduled == 1 && 1 <= |handles| <= n
      invariant forall i :: 0 <= i < |handles| ==> handles[i] == d.handler
      invariant old(d.handler) != 0 ==> d.handler == old(d.handler)
      invariant d.nextId <= old(d.nextId) + 1
    {
      h := d.Invoke();
      handles := handles + [h];
    }
  }
}
