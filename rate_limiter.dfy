/**
  The request rate limiter of the Behance source plugin.

  Every request of a sourcing run goes through one limiter, which remembers
  the instant at which it let the previous request through.  A request
  arriving at `now` is let through at the later of `now` and that instant
  plus 500 ms; the limiter only computes how long the request must wait.
  Instants are integer millisecond timestamps.
 */
module RateLimiting {

  datatype Option<+T> = None | Some(value: T)

  /** Minimum spacing, in milliseconds, between the instants at which two
      consecutive requests are let through. */
  const RateLimit: int := 500

  function Max(a: int, b: int): int {
    if a >= b then a else b
  }

  /** The instant at which a request arriving at `now` is let through, given
      the instant `last` at which the previous request was (None before the
      first request): the earliest instant that is not before `now` and at
      least `RateLimit` after `last`. */
  function Scheduled(last: Option<int>, now: int): (t: int)
    ensures t >= now
    ensures last.Some? ==> t >= last.value + RateLimit
    ensures t == now || (last.Some? && t == last.value + RateLimit)
  {
    match last
    case None => now
    case Some(p) => Max(now, p + RateLimit)
  }

  /** The limiter's state: when the last request was let through. */
  class RateLimiter {
    var lastCalled: Option<int>

    /** A fresh limiter has let no request through. */
    constructor ()
      ensures lastCalled == None
    {
      lastCalled := None;
    }

    /** A request arrives at `now`: returns how long it must wait and
        records the instant at which it is let through. */
    method Call(now: int) returns (wait: int)
      modifies this
      ensures lastCalled == Some(Scheduled(old(lastCalled), now))
      ensures wait == Scheduled(old(lastCalled), now) - now
      ensures wait >= 0
      ensures old(lastCalled).None? ==> wait == 0
    {
      if lastCalled.Some? {
        lastCalled := Some(lastCalled.value + RateLimit);
        wait := lastCalled.value - now;
        if wait > 0 {
          return;
        }
      }
      lastCalled := Some(now);
      wait := 0;
    }
  }

  /** The limiter's state after the requests whose instants are `slots`,
      starting from `last`. */
  function Latest(last: Option<int>, slots: seq<int>): Option<int> {
    if |slots| == 0 then last else Some(slots[|slots| - 1])
  }

  /** `u` is an admissible schedule for requests arriving at `times`, after
      a request let through at `last`: no request is let through before it
      arrives, and consecutive ones are at least `RateLimit` apart. */
  predicate Admissible(last: Option<int>, times: seq<int>, u: seq<int>) {
    && |u| == |times|
    && (forall i :: 0 <= i < |u| ==> u[i] >= times[i])
    && (forall i :: 0 < i < |u| ==> u[i] >= u[i - 1] + RateLimit)
    && (last.Some? && |u| > 0 ==> u[0] >= last.value + RateLimit)
  }

  /** The instants at which a limiter in state `last` lets through requests
      arriving at `times`, in order.  They form an admissible schedule. */
  function Slots(last: Option<int>, times: seq<int>): (s: seq<int>)
    ensures Admissible(last, times, s)
  {
    if |times| == 0 then []
    else
      var prev := Slots(last, times[..|times| - 1]);
      prev + [Scheduled(Latest(last, prev), times[|times| - 1])]
  }

  /** Requests are let through at least `RateLimit` apart per request in
      between: no two requests share an instant, and the instants strictly
      increase. */
  lemma {:induction false} SlotsSpaced(last: Option<int>, times: seq<int>, i: nat, j: nat)
    requires i <= j < |times|
    ensures Slots(last, times)[j] >= Slots(last, times)[i] + RateLimit * (j - i)
  {
    if i < j {
      SlotsSpaced(last, times, i, j - 1);
    }
  }

  /** The slot of the i-th request is computed from the slot of the one
      before it, or from `last` for the first. */
  lemma {:induction false} SlotsAt(last: Option<int>, times: seq<int>, i: nat)
    requires i < |times|
    ensures Slots(last, times)[i] ==
            Scheduled(if i == 0 then last else Some(Slots(last, times)[i - 1]), times[i])
  {
    var n := |times|;
    var init := times[..n - 1];
    if i < n - 1 {
      SlotsAt(last, init, i);
    }
  }

  /** Of all admissible schedules, the limiter's is the earliest: no request
      is held back longer than the spacing forces. */
  lemma {:induction false} SlotsEarliest(last: Option<int>, times: seq<int>, u: seq<int>, i: nat)
    requires Admissible(last, times, u)
    requires i < |times|
    ensures Slots(last, times)[i] <= u[i]
  {
    SlotsAt(last, times, i);
    if i > 0 {
      SlotsEarliest(last, times, u, i - 1);
    }
  }

  /** A burst: requests all arriving at `t` on a fresh limiter.  The k-th
      (from 0) is let through at exactly `t + RateLimit * k`. */
  lemma {:induction false} BurstSlots(t: int, times: seq<int>, k: nat)
    requires forall i :: 0 <= i < |times| ==> times[i] == t
    requires k < |times|
    ensures Slots(None, times)[k] == t + RateLimit * k
  {
    SlotsAt(None, times, k);
    if k > 0 {
      BurstSlots(t, times, k - 1);
    }
  }

  /** Requests already arriving at least `RateLimit` apart on a fresh
      limiter are never held back. */
  lemma {:induction false} SpacedRequestsNotDelayed(times: seq<int>, i: nat)
    requires forall j :: 0 < j < |times| ==> times[j] >= times[j - 1] + RateLimit
    requires i < |times|
    ensures Slots(None, times)[i] == times[i]
  {
    SlotsAt(None, times, i);
    if i > 0 {
      SpacedRequestsNotDelayed(times, i - 1);
    }
  }

  /** A fresh limiter, as created at the start of a sourcing run, receiving
      requests whose clock readings are `times`, in order: the wait of each
      request is the distance from its arrival to its slot. */
  method RunRequests(times: seq<int>) returns (waits: seq<int>)
    ensures |waits| == |times|
    ensures forall i :: 0 <= i < |times| ==> waits[i] == Slots(None, times)[i] - times[i]
  {
    ghost var slots := Slots(None, times);
    var limiter := new RateLimiter();
    waits := [];
    var i := 0;
    while i < |times|
      invariant 0 <= i <= |times|
      invariant |waits| == i
      invariant forall j :: 0 <= j < i ==> waits[j] == slots[j] - times[j]
      invariant limiter.lastCalled == if i == 0 then None else Some(slots[i - 1])
    {
      SlotsAt(None, times, i);
      var w := limiter.Call(times[i]);
      waits := waits + [w];
      i := i + 1;
    }
  }
}
