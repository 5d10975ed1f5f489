/** The debounced, width-only resize listener that both text-splitting pages
    register: a resize that keeps the window width is ignored; any other
    resize (re)starts a 300 ms timer, and when the timer fires the width at
    that moment is recorded and the page's work runs again. */
module Resize {

  /** The debounce delay, in milliseconds. */
  const DebounceMs: int := 300

  /** `A` names the pieces of work the page reruns. Time is in milliseconds. */
  class WidthGuard<A> {
    var lastWidth: int
    var pending: bool    // a timer is scheduled
    var dueAt: int       // when the scheduled timer fires
    const work: seq<A>
    ghost var runs: nat  // how often the work has run again

    constructor (width: int, work: seq<A>)
      ensures lastWidth == width && !pending && this.work == work && runs == 0
    {
      lastWidth := width;
      pending := false;
      dueAt := 0;
      this.work := work;
      runs := 0;
    }

    /** A `resize` event at time `now` with the window `width` wide. The
        comparison is with the width recorded when the timer last fired, not
        with the width of the previous event. */
    method Resize(width: int, now: int)
      modifies this
      ensures lastWidth == old(lastWidth) && runs == old(runs)
      ensures width == old(lastWidth) ==> pending == old(pending) && dueAt == old(dueAt)
      ensures width != old(lastWidth) ==> pending && dueAt == now + DebounceMs
    {
      if width == lastWidth {
        return;
      }
      pending := true;
      dueAt := now + DebounceMs;
    }

    /** The timer fires at time `now`, with the window `width` wide: the width
        is recorded and the work runs again, even when the window has come back
        to the width recorded before. */
    method Fire(width: int, now: int) returns (rerun: seq<A>)
      requires pending && now >= dueAt
      modifies this
      ensures lastWidth == width && !pending && dueAt == old(dueAt)
      ensures rerun == work && runs == old(runs) + 1
    {
      lastWidth := width;
      pending := false;
      runs := runs + 1;
      rerun := work;
    }
  }
}
