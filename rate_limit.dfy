/**
 * `throttle` and `debounce`: a wrapper around a callback with one timer
 * slot. The timer is not real here: `Fire` stands for the moment the
 * scheduled `setTimeout` callback runs, and the callback's invocations are
 * recorded, with their arguments, in `delivered`.
 */
module RateLimit {
  import opened Wrappers

  /** The timer slot (the arguments of the scheduled call, if any) and the calls made so far. */
  datatype Slot<A> = Slot(pending: Option<A>, delivered: seq<A>)

  /** A call of the throttled wrapper with arguments `a`. */
  function ThrottleCall<A>(s: Slot<A>, wait: int, a: A): Slot<A> {
    if s.pending.Some? then s
    else if wait <= 0 then s.(delivered := s.delivered + [a])
    else s.(pending := Some(a))
  }

  /** The scheduled callback runs: the slot is emptied, then the callback is invoked. */
  function TimerFires<A>(s: Slot<A>): Slot<A> {
    match s.pending
    case None => s
    case Some(a) => Slot(None, s.delivered + [a])
  }

  /** `cancel`: a pending timer is cleared and its call never happens. */
  function CancelTimer<A>(s: Slot<A>): (r: Slot<A>)
    ensures r.pending == None && r.delivered == s.delivered
  {
    s.(pending := None)
  }

  /** A call of the debounced wrapper: cancel, then call the throttled function. */
  function DebounceCall<A>(s: Slot<A>, wait: int, a: A): Slot<A> {
    ThrottleCall(CancelTimer(s), wait, a)
  }

  /** A burst of throttled calls with no timer firing in between. */
  function ThrottleBurst<A>(s: Slot<A>, wait: int, args: seq<A>): Slot<A>
    decreases |args|
  {
    if args == [] then s else ThrottleBurst(ThrottleCall(s, wait, args[0]), wait, args[1..])
  }

  /** A burst of debounced calls with no timer firing in between. */
  function DebounceBurst<A>(s: Slot<A>, wait: int, args: seq<A>): Slot<A>
    decreases |args|
  {
    if args == [] then s else DebounceBurst(DebounceCall(s, wait, args[0]), wait, args[1..])
  }

  /** While a timer is pending, throttled calls are ignored. */
  lemma {:induction false} PendingIgnoresCalls<A>(s: Slot<A>, wait: int, args: seq<A>)
    requires s.pending.Some?
    ensures ThrottleBurst(s, wait, args) == s
    decreases |args|
  {
    if args != [] { PendingIgnoresCalls(s, wait, args[1..]); }
  }

  /**
   * Throttle keeps the first call of a burst: after the burst one call is
   * scheduled, with the first arguments, and when it fires exactly those are
   * delivered.
   */
  lemma ThrottleDeliversFirst<A>(s: Slot<A>, wait: int, args: seq<A>)
    requires s.pending == None && wait > 0 && args != []
    ensures ThrottleBurst(s, wait, args) == Slot(Some(args[0]), s.delivered)
    ensures TimerFires(ThrottleBurst(s, wait, args)).delivered == s.delivered + [args[0]]
  {
    PendingIgnoresCalls(ThrottleCall(s, wait, args[0]), wait, args[1..]);
  }

  /** With `wait <= 0` every call runs at once and no timer is ever set. */
  lemma {:induction false} ThrottleWithoutWaitIsSynchronous<A>(s: Slot<A>, wait: int, args: seq<A>)
    requires s.pending == None && wait <= 0
    ensures ThrottleBurst(s, wait, args) == Slot(None, s.delivered + args)
    decreases |args|
  {
    if args == [] {
      assert s.delivered + args == s.delivered;
    } else {
      var s' := ThrottleCall(s, wait, args[0]);
      ThrottleWithoutWaitIsSynchronous(s', wait, args[1..]);
      assert s.delivered + [args[0]] + args[1..] == s.delivered + args;
    }
  }

  /**
   * Debounce keeps the last call of a burst: whatever was pending before,
   * after the burst one call is scheduled, with the last arguments, and
   * nothing was delivered in the meantime.
   */
  lemma {:induction false} DebounceDeliversLast<A>(s: Slot<A>, wait: int, args: seq<A>)
    requires wait > 0 && args != []
    ensures DebounceBurst(s, wait, args) == Slot(Some(args[|args| - 1]), s.delivered)
    ensures TimerFires(DebounceBurst(s, wait, args)).delivered == s.delivered + [args[|args| - 1]]
    decreases |args|
  {
    var s' := DebounceCall(s, wait, args[0]);
    if |args| > 1 {
      DebounceDeliversLast(s', wait, args[1..]);
    }
  }

  /**
   * A cancelled call never runs, and the next call after a cancel schedules
   * afresh, whatever was pending before.
   */
  lemma CancelThenCall<A>(s: Slot<A>, wait: int, a: A)
    requires wait > 0
    ensures TimerFires(CancelTimer(s)).delivered == s.delivered
    ensures ThrottleCall(CancelTimer(s), wait, a).pending == Some(a)
  {
  }

  /** The throttled wrapper returned by `throttle(fn, wait)`, with its timer slot. */
  class Throttled<A> {
    const wait: int
    var pending: Option<A>
    var delivered: seq<A>

    function State(): Slot<A>
      reads this
    {
      Slot(pending, delivered)
    }

    constructor (wait: int)
      ensures this.wait == wait && State() == Slot(None, [])
    {
      this.wait := wait;
      pending := None;
      delivered := [];
    }

    method Call(a: A)
      modifies this
      ensures State() == ThrottleCall(old(State()), wait, a)
    {
      if pending.Some? {
        return;
      }
      if wait <= 0 {
        delivered := delivered + [a];
      } else {
        pending := Some(a);
      }
    }

    method Fire()
      modifies this
      ensures State() == TimerFires(old(State()))
    {
      if pending.Some? {
        var a := pending.value;
        pending := None;
        delivered := delivered + [a];
      }
    }

    method Cancel()
      modifies this
      ensures State() == CancelTimer(old(State()))
    {
      if pending.Some? {
        pending := None;
      }
    }
  }

  /** The debounced wrapper returned by `debounce(fn, wait)`: a throttled wrapper cancelled before every call. */
  class Debounced<A> {
    const throttled: Throttled<A>

    constructor (wait: int)
      ensures fresh(throttled) && throttled.wait == wait && throttled.State() == Slot(None, [])
    {
      throttled := new Throttled(wait);
    }

    method Call(a: A)
      modifies throttled
      ensures throttled.State() == DebounceCall(old(throttled.State()), throttled.wait, a)
    {
      throttled.Cancel();
      throttled.Call(a);
    }

    /** `cancel` of the debounced wrapper forwards to the throttled one. */
    method Cancel()
      modifies throttled
      ensures throttled.State() == CancelTimer(old(throttled.State()))
    {
      throttled.Cancel();
    }
  }
}
