/** The host's repeating-timer facility (`setInterval` / `clearInterval`),
    made explicit: a table of live callbacks keyed by handle, and the next
    handle the host will give out.  Real time is not modelled; a firing is
    a discrete event (see `Soundboard.TickTimer`). */
module Intervals {

  /** An interval handle.  Browsers hand out positive integers, so every
      handle is truthy when the hook tests `if (sound.loopInterval)`. */
  type Handle = h: int | 1 <= h witness 1

  /** The live repeating timers, each with the state `C` of its callback. */
  datatype Table<C> = Table(live: map<Handle, C>, next: Handle)

  /** Every live handle was given out before `next`, so `next` is fresh. */
  predicate Issued<C>(t: Table<C>)
  {
    forall h :: h in t.live ==> h < t.next
  }

  /** The table of a freshly loaded page: no timers. */
  function Empty<C>(): (t: Table<C>)
    ensures t.live == map[]
    ensures Issued(t)
  {
    Table(map[], 1)
  }

  /** `setInterval`: registers a callback under a handle that no live timer
      holds, and returns that handle. */
  function SetInterval<C>(t: Table<C>, c: C): (r: (Table<C>, Handle))
    ensures Issued(t) ==> r.1 !in t.live && Issued(r.0)
    ensures r.0.live.Keys == t.live.Keys + {r.1}
    ensures r.0.live[r.1] == c
    ensures forall h :: h in t.live && h != r.1 ==> r.0.live[h] == t.live[h]
    ensures r.0.next > t.next
  {
    (Table(t.live[t.next := c], t.next + 1), t.next)
  }

  /** `clearInterval`: cancels one timer; cancelling a handle that is not
      live changes nothing. */
  function ClearInterval<C>(t: Table<C>, h: Handle): (r: Table<C>)
    ensures r.live.Keys == t.live.Keys - {h}
    ensures forall k :: k in r.live ==> r.live[k] == t.live[k]
    ensures r.next == t.next
    ensures h !in t.live ==> r == t
  {
    t.(live := t.live - {h})
  }
}
