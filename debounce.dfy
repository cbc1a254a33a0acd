/**
 * `debounce(fn, delay)`: a trailing-edge debouncer. The wrapper keeps one
 * timer handle; every call cancels the pending timer and schedules a new one
 * that runs `fn` with that call's arguments once `delay` has passed. Timers
 * are modelled by logical clock events instead of `setTimeout`.
 */
module Debounce {
  import opened Wrappers

  /** The invocation a wrapper holds: the arguments of a call and when it was made. */
  datatype Pending<A> = Pending(args: A, calledAt: int)

  /** What the wrapper sees: a call, or the clock reaching `now` (due timers run). */
  datatype Event<A> = Called(args: A, at: int) | Clock(now: int)

  /** A timer set with `setTimeout(.., delay)` at `calledAt` may run at `now`. */
  predicate Due<A>(delay: nat, p: Pending<A>, now: int) {
    now >= p.calledAt + delay
  }

  /** One event: the pending slot afterwards, and the arguments `fn` runs with, if it runs. */
  datatype Outcome<A> = Outcome(pending: Option<Pending<A>>, ran: Option<A>)

  function Step<A>(delay: nat, pending: Option<Pending<A>>, e: Event<A>): Outcome<A> {
    match e
    case Called(args, at) => Outcome(Some(Pending(args, at)), None)
    case Clock(now) =>
      if pending.Some? && Due(delay, pending.value, now) then Outcome(None, Some(pending.value.args))
      else Outcome(pending, None)
  }

  /** A run over a trace of events: the final pending slot and every invocation of `fn`, in order. */
  datatype Trace<A> = Trace(pending: Option<Pending<A>>, ran: seq<A>)

  function Run<A>(delay: nat, pending: Option<Pending<A>>, events: seq<Event<A>>): Trace<A>
    decreases |events|
  {
    if events == [] then Trace(pending, [])
    else
      var o := Step(delay, pending, events[0]);
      var rest := Run(delay, o.pending, events[1..]);
      Trace(rest.pending, (if o.ran.Some? then [o.ran.value] else []) + rest.ran)
  }

  /** The most recent call in a trace. */
  function LatestCall<A>(events: seq<Event<A>>): Option<Pending<A>>
    decreases |events|
  {
    if events == [] then None
    else
      var later := LatestCall(events[1..]);
      if later.Some? then later
      else if events[0].Called? then Some(Pending(events[0].args, events[0].at))
      else None
  }

  function CallCount<A>(events: seq<Event<A>>): nat
    decreases |events|
  {
    if events == [] then 0 else (if events[0].Called? then 1 else 0) + CallCount(events[1..])
  }

  /** No clock event in the trace reaches the due time of the latest call before it. */
  predicate Quiet<A>(delay: nat, since: int, events: seq<Event<A>>)
    decreases |events|
  {
    events == [] ||
    match events[0]
    case Called(_, at) => Quiet(delay, at, events[1..])
    case Clock(now) => now < since + delay && Quiet(delay, since, events[1..])
  }

  // ---------------------------------------------------------------------
  // Properties of a run

  /** Running two traces one after the other is running their concatenation. */
  lemma {:induction false} RunAppend<A>(delay: nat, pending: Option<Pending<A>>, xs: seq<Event<A>>, ys: seq<Event<A>>)
    ensures var first := Run(delay, pending, xs);
      var second := Run(delay, first.pending, ys);
      Run(delay, pending, xs + ys) == Trace(second.pending, first.ran + second.ran)
    decreases |xs|
  {
    if xs == [] {
      assert xs + ys == ys;
    } else {
      assert (xs + ys)[0] == xs[0];
      assert (xs + ys)[1..] == xs[1..] + ys;
      var o := Step(delay, pending, xs[0]);
      RunAppend(delay, o.pending, xs[1..], ys);
      var head := if o.ran.Some? then [o.ran.value] else [];
      var tail := Run(delay, o.pending, xs[1..]);
      var second := Run(delay, tail.pending, ys);
      assert head + (tail.ran + second.ran) == (head + tail.ran) + second.ran;
    }
  }

  /** The only invocation ever pending is the latest call (or the one held before the trace). */
  lemma {:induction false} PendingIsLatestCall<A>(delay: nat, pending: Option<Pending<A>>, events: seq<Event<A>>)
    ensures var p := Run(delay, pending, events).pending;
      p.Some? ==> p == (if LatestCall(events).Some? then LatestCall(events) else pending)
    decreases |events|
  {
    if events != [] {
      PendingIsLatestCall(delay, Step(delay, pending, events[0]).pending, events[1..]);
    }
  }

  /** Every invocation consumes a call: `fn` runs at most once per call to the wrapper. */
  lemma {:induction false} RunsAtMostOncePerCall<A>(delay: nat, pending: Option<Pending<A>>, events: seq<Event<A>>)
    ensures var t := Run(delay, pending, events);
      |t.ran| + (if t.pending.Some? then 1 else 0) <= CallCount(events) + (if pending.Some? then 1 else 0)
    decreases |events|
  {
    if events != [] {
      RunsAtMostOncePerCall(delay, Step(delay, pending, events[0]).pending, events[1..]);
    }
  }

  /** A call never runs `fn`; it only replaces what is pending. */
  lemma CallOnlySchedules<A>(delay: nat, events: seq<Event<A>>, args: A, at: int)
    ensures var before := Run(delay, None, events);
      Run(delay, None, events + [Called(args, at)]) == Trace(Some(Pending(args, at)), before.ran)
  {
    RunAppend(delay, None, events, [Called(args, at)]);
  }

  /**
   * When the clock reaches `now`, `fn` runs exactly when a call is pending and
   * `delay` has passed since it; it then runs with the arguments of the most
   * recent call.
   */
  lemma ClockRunsLatestCall<A>(delay: nat, events: seq<Event<A>>, now: int)
    ensures var before := Run(delay, None, events);
      var after := Run(delay, None, events + [Clock(now)]);
      var latest := LatestCall(events);
      && (before.pending.Some? ==> before.pending == latest)
      && (if before.pending.Some? && Due(delay, latest.value, now)
          then after == Trace(None, before.ran + [latest.value.args])
          else after == Trace(before.pending, before.ran))
  {
    RunAppend(delay, None, events, [Clock(now)]);
    PendingIsLatestCall(delay, None, events);
  }

  /** While no clock event reaches the due time, calls keep replacing the pending one and nothing runs. */
  lemma {:induction false} QuietRunsNothing<A>(delay: nat, p: Pending<A>, events: seq<Event<A>>)
    requires Quiet(delay, p.calledAt, events)
    ensures Run(delay, Some(p), events) == Trace(Some(LatestCall(events).GetOr(p)), [])
    decreases |events|
  {
    if events != [] {
      var next := Step(delay, Some(p), events[0]).pending.value;
      QuietRunsNothing(delay, next, events[1..]);
    }
  }

  /**
   * A burst of calls with no quiet period of `delay` between them, followed by
   * the clock reaching `delay` after the last call, runs `fn` exactly once,
   * with the arguments of the last call, whatever was pending before.
   */
  lemma BurstRunsOnce<A>(delay: nat, pending: Option<Pending<A>>, args: A, at: int,
                         events: seq<Event<A>>, now: int)
    requires Quiet(delay, at, events)
    requires now >= LatestCall(events).GetOr(Pending(args, at)).calledAt + delay
    ensures Run(delay, pending, [Called(args, at)] + events + [Clock(now)])
         == Trace(None, [LatestCall(events).GetOr(Pending(args, at)).args])
  {
    var first := Pending(args, at);
    QuietRunsNothing(delay, first, events);
    RunAppend(delay, Some(first), events, [Clock(now)]);
    var all := [Called(args, at)] + events + [Clock(now)];
    assert all[0] == Called(args, at);
    assert all[1..] == events + [Clock(now)];
  }

  // ---------------------------------------------------------------------
  // The wrapper as an object

  /**
   * The closure `debounce` returns, with its one variable `timeoutID` as the
   * pending slot. `events` and `ran` record, for the proofs, every event so far
   * and every invocation of `fn`.
   */
  class Debounced<A> {
    const delay: nat
    var pending: Option<Pending<A>>
    ghost var events: seq<Event<A>>
    ghost var ran: seq<A>

    ghost predicate Valid()
      reads this
    {
      Run(delay, None, events) == Trace(pending, ran)
    }

    constructor(delay: nat)
      ensures Valid() && this.delay == delay
      ensures pending == None && events == [] && ran == []
    {
      this.delay := delay;
      pending := None;
      events := [];
      ran := [];
    }

    /** Calling the wrapper: cancel what is pending and schedule `fn` with these arguments. */
    method Call(args: A, now: int)
      requires Valid()
      modifies this
      ensures Valid()
      ensures pending == Some(Pending(args, now))
      ensures events == old(events) + [Called(args, now)] && ran == old(ran)
    {
      CallOnlySchedules(delay, events, args, now);
      pending := Some(Pending(args, now));
      events := events + [Called(args, now)];
    }

    /** The clock reaches `now`: a due timer runs `fn`, returned here as the arguments it runs with. */
    method Tick(now: int) returns (fired: Option<A>)
      requires Valid()
      modifies this
      ensures Valid()
      ensures events == old(events) + [Clock(now)]
      ensures fired.Some? <==> old(pending).Some? && Due(delay, old(pending).value, now)
      ensures fired.Some? ==> fired.value == old(pending).value.args && pending == None
      ensures fired.Some? ==> old(pending) == LatestCall(old(events))
      ensures fired.None? ==> pending == old(pending)
      ensures ran == old(ran) + (if fired.Some? then [fired.value] else [])
    {
      ClockRunsLatestCall(delay, events, now);
      if pending.Some? && Due(delay, pending.value, now) {
        fired := Some(pending.value.args);
        ran := ran + [pending.value.args];
        pending := None;
      } else {
        fired := None;
      }
      events := events + [Clock(now)];
    }
  }
}
