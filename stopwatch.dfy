/**
 * `useStopWatch` of components/hooks/usestopwatch.tsx: a seconds counter
 * driven by `setInterval`, with the handle of the interval in `timerRef`.
 *
 * The host's timer table is modelled explicitly: `live` is the set of
 * intervals that will still fire, and a host tick of interval `id` is the
 * event `Tick(id)`. `startTimer` stores the new handle over the old one
 * without clearing it, and `clearTimer` cancels only the stored handle.
 */
module StopWatch {
  import opened Wrappers

  type IntervalId = nat

  class StopWatch {
    var timeInSeconds: nat
    var timerRef: Option<IntervalId>
    var live: set<IntervalId>
    var nextId: IntervalId

    ghost predicate Valid()
      reads this
    {
      (forall id :: id in live ==> id < nextId) &&
      (timerRef.Some? ==> timerRef.value < nextId)
    }

    constructor ()
      ensures Valid()
      ensures timeInSeconds == 0 && timerRef == None && live == {}
    {
      timeInSeconds := 0;
      timerRef := None;
      live := {};
      nextId := 0;
    }

    /** `startTimer`: a fresh interval is scheduled and its handle overwrites `timerRef`. */
    method StartTimer() returns (id: IntervalId)
      requires Valid()
      modifies this
      ensures Valid()
      ensures id !in old(live) && live == old(live) + {id}
      ensures timerRef == Some(id)
      ensures timeInSeconds == old(timeInSeconds)
    {
      id := nextId;
      nextId := nextId + 1;
      live := live + {id};
      timerRef := Some(id);
    }

    /** The host fires interval `id`; a cancelled interval no longer fires. */
    method Tick(id: IntervalId)
      requires Valid()
      modifies this
      ensures Valid()
      ensures timeInSeconds == old(timeInSeconds) + (if id in live then 1 else 0)
      ensures timeInSeconds >= old(timeInSeconds)
      ensures live == old(live) && timerRef == old(timerRef)
    {
      if id in live {
        timeInSeconds := timeInSeconds + 1;
      }
    }

    /**
     * `clearTimer`: cancels the interval stored in `timerRef` (nothing when
     * there is none), leaves `timerRef` as it is and resets the count.
     */
    method ClearTimer()
      requires Valid()
      modifies this
      ensures Valid()
      ensures live == if old(timerRef).Some? then old(live) - {old(timerRef).value} else old(live)
      ensures timerRef == old(timerRef)
      ensures timeInSeconds == 0
    {
      if timerRef.Some? {
        live := live - {timerRef.value};
      }
      timeInSeconds := 0;
    }
  }

  /**
   * Two starts and one clear leave the first interval running: its next
   * tick moves the freshly cleared count from 0 to 1.
   */
  method OverwrittenIntervalKeepsTicking() returns (leaked: IntervalId, count: nat)
    ensures count == 1
  {
    var watch := new StopWatch();
    leaked := watch.StartTimer();
    var second := watch.StartTimer();
    watch.ClearTimer();
    assert leaked in watch.live;
    watch.Tick(leaked);
    count := watch.timeInSeconds;
  }

  /** After one start, a clear stops the count for good: later ticks leave it at 0. */
  method ClearedIntervalIsSilent(ticks: nat) returns (count: nat)
    ensures count == 0
  {
    var watch := new StopWatch();
    var id := watch.StartTimer();
    watch.Tick(id);
    watch.ClearTimer();
    var i := 0;
    while i < ticks
      invariant watch.Valid() && watch.timeInSeconds == 0 && id !in watch.live
    {
      watch.Tick(id);
      i := i + 1;
    }
    count := watch.timeInSeconds;
  }
}
