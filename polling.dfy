/**
  The dashboard's polling hook (dashboard/src/hooks/usePolling.js) as an
  event state machine. One effect instance holds the closure's `mounted`
  flag and `timer` handle; the events are the effect's mount, the settling
  of an awaited fn call, the firing of the timer and the effect's cleanup.
  Functions are named by a number; time is the clock reading at the event.
*/
module Polling {

  datatype Timer = NoTimer | Pending(due: int)

  /** One fn call: which function fnRef.current was, and when it started. */
  datatype Call = Call(fn: nat, start: int)

  /**
    One effect instance: the closure's `mounted` and `timer`, the interval it
    captured, how many of its fn calls have not settled, and every call it
    has started.
  */
  datatype Effect = Effect(mounted: bool, timer: Timer, inFlight: nat, interval: int, calls: seq<Call>)

  datatype Event =
    | FnSettled(now: int, threw: bool)
    | TimerFired(now: int, current: nat)
    | Cleanup

  /** The effect body: mounted, no timer, and run() calls fn at once. */
  function Mount(fn: nat, interval: int, now: int): (e: Effect)
    ensures e.mounted && e.timer == NoTimer && e.interval == interval
    ensures e.calls == [Call(fn, now)] && e.inFlight == 1
  {
    Effect(true, NoTimer, 1, interval, [Call(fn, now)])
  }

  /**
    One event. A call settling (thrown or not) sets the next timer from that
    moment if still mounted; a due timer runs run(), which calls the current
    fn if still mounted; cleanup clears mounted and the timer. A settling
    with no call out, or a timer that is absent or not yet due, is no event.
  */
  function Step(e: Effect, ev: Event): Effect
  {
    match ev
    case FnSettled(now, _) =>
      if e.inFlight == 0 then e
      else if !e.mounted then e.(inFlight := e.inFlight - 1)
      else e.(inFlight := e.inFlight - 1, timer := Pending(now + e.interval))
    case TimerFired(now, current) =>
      if !e.timer.Pending? || now < e.timer.due then e
      else if !e.mounted then e.(timer := NoTimer)
      else e.(timer := NoTimer, inFlight := e.inFlight + 1, calls := e.calls + [Call(current, now)])
    case Cleanup =>
      e.(mounted := false, timer := NoTimer)
  }

  /** The events in order. */
  function Run(e: Effect, evs: seq<Event>): Effect
    decreases |evs|
  {
    if evs == [] then e else Run(Step(e, evs[0]), evs[1..])
  }

  /**
    At most one call out; while it is out no timer is set; an unmounted
    effect has no timer; and a mounted effect always has either a call out
    or a timer pending, so polling never stops by itself.
  */
  ghost predicate Inv(e: Effect)
  {
    && e.inFlight <= 1
    && (e.inFlight == 1 ==> e.timer == NoTimer)
    && (!e.mounted ==> e.timer == NoTimer)
    && (e.mounted ==> e.inFlight == 1 || e.timer.Pending?)
  }

  lemma MountInv(fn: nat, interval: int, now: int)
    ensures Inv(Mount(fn, interval, now))
  {
  }

  lemma StepInv(e: Effect, ev: Event)
    requires Inv(e)
    ensures Inv(Step(e, ev))
  {
  }

  lemma {:induction false} RunInv(e: Effect, evs: seq<Event>)
    requires Inv(e)
    ensures Inv(Run(e, evs))
    decreases |evs|
  {
    if evs != [] {
      StepInv(e, evs[0]);
      RunInv(Step(e, evs[0]), evs[1..]);
    }
  }

  /** A step starts at most one call, and only when none is out. */
  lemma NoOverlap(e: Effect, ev: Event)
    requires Inv(e)
    ensures |Step(e, ev).calls| <= |e.calls| + 1
    ensures Step(e, ev).calls[..|e.calls|] == e.calls
    ensures |Step(e, ev).calls| > |e.calls| ==> e.inFlight == 0 && Step(e, ev).inFlight == 1
  {
  }

  /** A call that throws is handled exactly as one that succeeds. */
  lemma ThrowSwallowed(e: Effect, now: int)
    ensures Step(e, FnSettled(now, true)) == Step(e, FnSettled(now, false))
  {
  }

  /**
    The delay runs from the call's completion: settling at `now` sets the
    timer for now + interval and a tick before then does nothing.
  */
  lemma DelayFromCompletion(e: Effect, settled: int, tick: int, current: nat)
    requires Inv(e) && e.mounted && e.inFlight == 1
    requires tick < settled + e.interval
    ensures Step(e, FnSettled(settled, false)).timer == Pending(settled + e.interval)
    ensures Step(Step(e, FnSettled(settled, false)), TimerFired(tick, current)) == Step(e, FnSettled(settled, false))
  {
  }

  /** A due timer calls the fn current at that moment. */
  lemma TickCallsCurrent(e: Effect, now: int, current: nat)
    requires Inv(e) && e.mounted && e.timer.Pending? && now >= e.timer.due
    ensures Step(e, TimerFired(now, current)).calls == e.calls + [Call(current, now)]
  {
  }

  /** After cleanup the effect is unmounted and holds no timer. */
  ghost predicate Retired(e: Effect)
  {
    !e.mounted && e.timer == NoTimer
  }

  lemma {:induction false} RetiredStaysQuiet(e: Effect, evs: seq<Event>)
    requires Retired(e)
    ensures Retired(Run(e, evs)) && Run(e, evs).calls == e.calls && Run(e, evs).inFlight <= e.inFlight
    decreases |evs|
  {
    if evs != [] {
      RetiredStaysQuiet(Step(e, evs[0]), evs[1..]);
    }
  }

  /**
    After cleanup, whatever happens next (including the settling of a call
    that was out) no call starts and no timer is set.
  */
  lemma NothingAfterCleanup(e: Effect, evs: seq<Event>)
    ensures Run(Step(e, Cleanup), evs).calls == e.calls
    ensures Run(Step(e, Cleanup), evs).timer == NoTimer
    ensures !Run(Step(e, Cleanup), evs).mounted
  {
    RetiredStaysQuiet(Step(e, Cleanup), evs);
  }

  // ------------------------------------------------------------------ hook

  /** The hook: fnRef.current, the interval of the last render, its effect. */
  datatype Hook = Hook(fnRef: nat, interval: int, effect: Effect)

  function FirstRender(fn: nat, interval: int, now: int): Hook
  {
    Hook(fn, interval, Mount(fn, interval, now))
  }

  /**
    A re-render: fnRef.current becomes fn; the effect depends on interval
    only, so it is torn down and mounted again exactly when interval changed.
    The old effect, cleaned up, is returned beside the hook.
  */
  function Render(h: Hook, fn: nat, interval: int, now: int): (Hook, Effect)
  {
    if interval == h.interval then (h.(fnRef := fn), h.effect)
    else (Hook(fn, interval, Mount(fn, interval, now)), Step(h.effect, Cleanup))
  }

  /** A timer firing inside the hook calls whatever fnRef holds then. */
  function Tick(h: Hook, now: int): Hook
  {
    h.(effect := Step(h.effect, TimerFired(now, h.fnRef)))
  }

  /** A new fn with the same interval keeps the loop and is used at the next tick. */
  lemma NewFnNoRestart(h: Hook, fn: nat, now: int, tick: int)
    requires Inv(h.effect) && h.effect.mounted && h.effect.timer.Pending? && tick >= h.effect.timer.due
    ensures Render(h, fn, h.interval, now).0.effect == h.effect
    ensures Tick(Render(h, fn, h.interval, now).0, tick).effect.calls == h.effect.calls + [Call(fn, tick)]
  {
  }

  /** A new interval cleans the old effect up and starts a fresh one, calling fn at once. */
  lemma NewIntervalRestarts(h: Hook, fn: nat, interval: int, now: int)
    requires interval != h.interval
    ensures Retired(Render(h, fn, interval, now).1)
    ensures Render(h, fn, interval, now).0.effect == Mount(fn, interval, now)
  {
  }

  /**
    No-overlap holds per effect instance only. Changing the interval while a
    call is out cleans the old effect up without cancelling that call, and
    the new effect calls fn at once: two calls are out together.
  */
  lemma IntervalChangeOverlaps(h: Hook, fn: nat, interval: int, now: int)
    requires h.effect.inFlight == 1 && interval != h.interval
    ensures Render(h, fn, interval, now).1.inFlight == 1
    ensures Render(h, fn, interval, now).0.effect.inFlight == 1
    ensures Render(h, fn, interval, now).0.effect.calls == [Call(fn, now)]
  {
  }

  // ---------------------------------------------------------- the closure

  /** One effect instance as the closure's mutable locals. */
  class PollingEffect {
    var mounted: bool
    var timer: Timer
    var inFlight: nat
    const interval: int
    var calls: seq<Call>

    function State(): Effect
      reads this
    {
      Effect(mounted, timer, inFlight, interval, calls)
    }

    /** `mounted = true; timer = null; run()`: the first call starts now. */
    constructor (fn: nat, interval: int, now: int)
      ensures State() == Mount(fn, interval, now)
    {
      mounted := true;
      timer := NoTimer;
      this.interval := interval;
      inFlight := 1;
      calls := [Call(fn, now)];
    }

    /** The awaited fn call settles; a throw is swallowed. */
    method Settle(now: int, threw: bool)
      requires inFlight > 0
      modifies this
      ensures State() == Step(old(State()), FnSettled(now, threw))
    {
      inFlight := inFlight - 1;
      if !mounted {
        return;
      }
      timer := Pending(now + interval);
    }

    /** setTimeout's callback: run() with the fn current at this moment. */
    method Fire(now: int, current: nat)
      requires timer.Pending? && now >= timer.due
      modifies this
      ensures State() == Step(old(State()), TimerFired(now, current))
    {
      timer := NoTimer;
      if !mounted {
        return;
      }
      inFlight := inFlight + 1;
      calls := calls + [Call(current, now)];
    }

    /** The cleanup: `mounted = false; if (timer) clearTimeout(timer)`. */
    method Cleanup()
      modifies this
      ensures State() == Step(old(State()), Event.Cleanup)
    {
      mounted := false;
      if timer.Pending? {
        timer := NoTimer;
      }
    }
  }
}
