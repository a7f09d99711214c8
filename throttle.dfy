/**
 * `throttle` of lib/utils.ts. The returned wrapper shares one closure
 * variable, `timerFlag`: `null` while idle, a pending timeout once a call got
 * through. A call made while idle invokes the wrapped function with its
 * arguments and then arms the timer; a call made while armed is dropped; the
 * timeout, `delay` milliseconds later, sets the flag back to `null`. The
 * timer is armed only after the wrapped function returns: if it throws, the
 * exception leaves the wrapper and the flag stays `null`.
 *
 * Time is not modelled: the timeout firing is the explicit event `Expire`.
 * Every event is recorded in a ghost log so that properties of whole runs can
 * be stated over it.
 */
module Throttling {

  datatype Event<A> =
    | Invoked(args: A)   // a call that reached the wrapped function, which returned and armed the timer
    | Threw(args: A)     // a call that reached the wrapped function, which threw
    | Dropped(args: A)   // a call swallowed while the timer was pending
    | Expired            // the pending timeout fired

  /** Whether a timeout is pending after the events of `log`. */
  ghost function Pending<A>(log: seq<Event<A>>): bool {
    if log == [] then false
    else match log[|log| - 1]
      case Invoked(_) => true
      case Expired => false
      case Threw(_) => Pending(log[..|log| - 1])
      case Dropped(_) => Pending(log[..|log| - 1])
  }

  /** Whether event `e` can happen after the events of `before`. */
  ghost predicate Allowed<A>(before: seq<Event<A>>, e: Event<A>) {
    match e
    case Invoked(_) => !Pending(before)
    case Threw(_) => !Pending(before)
    case Dropped(_) => Pending(before)
    case Expired => Pending(before)
  }

  /** The logs a throttled wrapper can produce. */
  ghost predicate Legal<A>(log: seq<Event<A>>) {
    forall k :: 0 <= k < |log| ==> Allowed(log[..k], log[k])
  }

  /** The calls in `log` that returned normally; throwing calls are not counted. */
  ghost function Invocations<A>(log: seq<Event<A>>): nat {
    if log == [] then 0
    else Invocations(log[..|log| - 1]) + (if log[|log| - 1].Invoked? then 1 else 0)
  }

  ghost function Expiries<A>(log: seq<Event<A>>): nat {
    if log == [] then 0
    else Expiries(log[..|log| - 1]) + (if log[|log| - 1].Expired? then 1 else 0)
  }

  class Throttle<A> {
    /** The timeout length in milliseconds; only the `Expire` event stands for it here. */
    const delay: int
    /** `timerFlag !== null`. */
    var timerPending: bool
    ghost var log: seq<Event<A>>

    ghost predicate Valid()
      reads this
    {
      Legal(log) && timerPending == Pending(log)
    }

    constructor (delay: int)
      ensures Valid() && this.delay == delay
      ensures !timerPending && log == []
    {
      this.delay := delay;
      timerPending := false;
      log := [];
    }

    /**
     * One call of the wrapper. `invoked` tells whether the wrapped function
     * was called, once, with `args`; `returnsNormally` is whether that call
     * returns rather than throws. A throw propagates before the timer is
     * armed, so the wrapper stays idle.
     */
    method Call(args: A, returnsNormally: bool) returns (invoked: bool)
      requires Valid()
      modifies this
      ensures Valid()
      ensures invoked == !old(timerPending)
      ensures timerPending == (old(timerPending) || returnsNormally)
      ensures log == old(log) + [if !invoked then Dropped(args) else if returnsNormally then Invoked(args) else Threw(args)]
    {
      invoked := !timerPending;
      if invoked {
        if returnsNormally {
          timerPending := true;
          log := log + [Invoked(args)];
        } else {
          log := log + [Threw(args)];
        }
      } else {
        log := log + [Dropped(args)];
      }
      assert log[..|log| - 1] == old(log);
      assert forall k :: 0 <= k < |old(log)| ==> log[..k] == old(log)[..k];
    }

    /** The pending timeout fires and clears the flag. */
    method Expire()
      requires Valid() && timerPending
      modifies this
      ensures Valid()
      ensures !timerPending
      ensures log == old(log) + [Expired]
    {
      timerPending := false;
      log := log + [Expired];
      assert log[..|log| - 1] == old(log);
      assert forall k :: 0 <= k < |old(log)| ==> log[..k] == old(log)[..k];
    }
  }

  lemma LegalPrefix<A>(log: seq<Event<A>>, n: nat)
    requires Legal(log) && n <= |log|
    ensures Legal(log[..n])
  {
    forall k | 0 <= k < n
      ensures Allowed(log[..n][..k], log[..n][k])
    {
      assert log[..n][..k] == log[..k];
    }
  }

  /**
   * Calls that returned normally (and so armed the timer) number exactly one
   * per expiry, plus one more while a timeout is pending; so there are never
   * more than expiries + 1 of them. Calls whose wrapped function threw are not
   * bounded: they leave the wrapper idle (see `ThrowKeepsIdle`).
   */
  lemma {:induction false} InvocationsBound<A>(log: seq<Event<A>>)
    requires Legal(log)
    ensures Invocations(log) == Expiries(log) + (if Pending(log) then 1 else 0)
    ensures Invocations(log) <= Expiries(log) + 1
    decreases |log|
  {
    if log != [] {
      var n := |log| - 1;
      LegalPrefix(log, n);
      InvocationsBound(log[..n]);
      assert Allowed(log[..n], log[n]);
    }
  }

  /**
   * A call whose wrapped function throws leaves the wrapper idle: the next
   * call reaches the wrapped function again, with no expiry in between.
   */
  lemma ThrowKeepsIdle<A>(log: seq<Event<A>>, a: A, b: A)
    requires Legal(log) && !Pending(log)
    ensures Legal(log + [Threw(a), Invoked(b)])
    ensures Expiries(log + [Threw(a), Invoked(b)]) == Expiries(log)
  {
    var l1 := log + [Threw(a)];
    var l2 := l1 + [Invoked(b)];
    assert log + [Threw(a), Invoked(b)] == l2;
    assert l1[..|l1| - 1] == log;
    assert l2[..|l2| - 1] == l1;
    forall k | 0 <= k < |l2|
      ensures Allowed(l2[..k], l2[k])
    {
      if k < |log| {
        assert l2[..k] == log[..k];
      } else if k == |log| {
        assert l2[..k] == log;
      } else {
        assert l2[..k] == l1;
      }
    }
  }

  /** After a call that returned normally the timer stays pending until an expiry. */
  lemma {:induction false} PendingUntilExpiry<A>(log: seq<Event<A>>, i: nat, k: nat)
    requires i < k <= |log|
    requires log[i].Invoked?
    requires forall m :: i < m < k ==> !log[m].Expired?
    ensures Pending(log[..k])
    decreases k
  {
    var p := log[..k];
    assert p[..k - 1] == log[..k - 1];
    if k - 1 > i {
      PendingUntilExpiry(log, i, k - 1);
    }
  }

  /**
   * Between two calls that returned normally the timeout has always fired.
   * Calls that threw need no expiry in between (see `ThrowKeepsIdle`).
   */
  lemma ExpiryBetweenInvocations<A>(log: seq<Event<A>>, i: nat, j: nat)
    requires Legal(log)
    requires i < j < |log|
    requires log[i].Invoked? && log[j].Invoked?
    ensures exists k :: i < k < j && log[k].Expired?
  {
    if forall m :: i < m < j ==> !log[m].Expired? {
      PendingUntilExpiry(log, i, j);
      assert false;
    }
  }
}
