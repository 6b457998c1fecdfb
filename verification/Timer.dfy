/** `Timer` of `src/timer.rs` against the reactor's timer store. */
module TimerClient {
  import opened Wrappers
  import opened TimerStore
  import opened Reactors

  /** The extreme `Instant`s (a signed 64-bit number of seconds and the nanoseconds below one) and
      `Duration::MAX` (an unsigned one), in nanoseconds. */
  const INSTANT_MIN: Instant := -0x8000_0000_0000_0000 * 1_000_000_000
  const INSTANT_MAX: Instant := 0x7FFF_FFFF_FFFF_FFFF * 1_000_000_000 + 999_999_999
  const DURATION_MAX: nat := 0xFFFF_FFFF_FFFF_FFFF * 1_000_000_000 + 999_999_999

  function CheckedAdd(at: Instant, duration: nat): Option<Instant> {
    if at + duration <= INSTANT_MAX then Some(at + duration) else None
  }

  /** The id of the reactor entry and the waker it was registered with. */
  datatype Registration = Registration(id: nat, waker: Waker)

  datatype TimerState = TimerState(registration: Option<Registration>, deadline: Option<Instant>, period: nat)

  const NEVER := TimerState(None, None, DURATION_MAX)

  function IntervalAt(start: Instant, period: nat): TimerState {
    TimerState(None, Some(start), period)
  }

  /** A timer together with the store it shares with the others. */
  datatype Pair = Pair(timer: TimerState, store: Timers)

  /** Takes the registration, and the reactor entry with it. */
  function Unregister(p: Pair): Pair {
    var t := p.timer;
    Pair(t.(registration := None),
         if t.registration.Some? && t.deadline.Some?
         then Remove(p.store, Key(t.deadline.value, t.registration.value.id)) else p.store)
  }

  /** Enters the timer into the reactor at its deadline. */
  function Register(p: Pair, cx: Waker): Pair
    requires p.timer.deadline.Some?
  {
    Pair(p.timer.(registration := Some(Registration(p.store.nextId, cx))),
         Insert(p.store, p.timer.deadline.value, cx))
  }

  function WithDeadline(p: Pair, deadline: Option<Instant>, period: nat): Pair {
    p.(timer := p.timer.(deadline := deadline, period := period))
  }

  /** `set_never`. */
  function SetNever(p: Pair): Pair {
    WithDeadline(Unregister(p), None, p.timer.period)
  }

  /** `set_interval_at`: by the time it looks for a registration to renew, `clear` has taken it. */
  function SetIntervalAt(p: Pair, start: Instant, period: nat): Pair {
    WithDeadline(Unregister(p), Some(start), period)
  }

  /** The result of `poll_next`: an instant if the deadline has passed. */
  function Result(t: TimerState, now: Instant): Option<Instant> {
    if t.deadline.Some? && t.deadline.value < now then t.deadline else None
  }

  function PollNext(p: Pair, now: Instant, cx: Waker): Pair {
    var t := p.timer;
    if t.deadline.None? then p
    else if t.deadline.value < now then
      var next := WithDeadline(Unregister(p), CheckedAdd(t.deadline.value, t.period), t.period);
      if next.timer.deadline.Some? then Register(next, cx) else next
    else if t.registration.None? then Register(p, cx)
    else if t.registration.value.waker != cx then Register(Unregister(p), cx)
    else p
  }

  /** The reactor after a timer operation that left the store as `store`. */
  function After(r: Shared, store: Timers): Shared {
    var r1 := r.(timers := store);
    if store.nextId != r.timers.nextId then Notify(r1) else r1
  }

  class Timer {
    const reactor: Reactor
    var idAndWaker: Option<Registration>
    var deadline: Option<Instant>
    var period: nat

    function State(): TimerState
      reads this
    {
      TimerState(idAndWaker, deadline, period)
    }

    ghost function View(): Pair
      reads this, reactor
    {
      Pair(State(), reactor.view.timers)
    }

    /** A registered timer has a deadline. */
    ghost predicate Valid()
      reads this, reactor
    {
      reactor.Valid() && (idAndWaker.Some? ==> deadline.Some?)
    }

    /** `Timer::never`. */
    constructor NeverFires(reactor: Reactor)
      requires reactor.Valid()
      ensures this.reactor == reactor && Valid() && State() == NEVER
    {
      this.reactor := reactor;
      idAndWaker, deadline, period := None, None, DURATION_MAX;
    }

    /** `Timer::interval_at`; `at` is this with a period of `Duration::MAX`. */
    constructor IntervalFrom(reactor: Reactor, start: Instant, period: nat)
      requires reactor.Valid()
      ensures this.reactor == reactor && Valid() && State() == IntervalAt(start, period)
    {
      this.reactor := reactor;
      idAndWaker, deadline := None, Some(start);
      this.period := period;
    }

    /** `Timer::clear`, which `drop` also runs. */
    method Clear()
      requires Valid()
      modifies this, reactor
      ensures Valid() && View() == SetNever(old(View()))
      ensures reactor.view == After(old(reactor.view), reactor.view.timers)
    {
      var d, r := deadline, idAndWaker;
      deadline, idAndWaker := None, None;
      if d.Some? && r.Some? {
        reactor.RemoveTimer(d.value, r.value.id);
      }
    }

    /** `Timer::set_interval_at`. The branch that would renew the registration needs one to be left after
        `clear`, and none is. */
    method SetInterval(start: Instant, period: nat)
      requires Valid()
      modifies this, reactor
      ensures Valid() && View() == SetIntervalAt(old(View()), start, period)
      ensures reactor.view == After(old(reactor.view), reactor.view.timers)
      ensures idAndWaker.None?
    {
      Clear();
      deadline := Some(start);
      this.period := period;
    }

    /** `Timer::set_after` at time `now`. */
    method SetAfter(now: Instant, duration: nat)
      requires Valid()
      modifies this, reactor
      ensures Valid()
      ensures View() == match CheckedAdd(now, duration)
        case Some(at) => SetIntervalAt(old(View()), at, DURATION_MAX)
        case None => SetNever(old(View()))
      ensures reactor.view == After(old(reactor.view), reactor.view.timers)
    {
      match CheckedAdd(now, duration) {
        case Some(at) => SetInterval(at, DURATION_MAX);
        case None => Clear();
      }
    }

    /** `Timer::poll_next` at time `now`. */
    method Poll(now: Instant, cx: Waker) returns (p: Poll<Instant>)
      requires Valid()
      modifies this, reactor
      ensures Valid() && View() == PollNext(old(View()), now, cx)
      ensures reactor.view == After(old(reactor.view), reactor.view.timers)
      ensures p == match Result(old(State()), now) case Some(at) => Ready(at) case None => Pending
    {
      if deadline.None? {
        return Pending;
      }
      if deadline.value < now {
        if idAndWaker.Some? {
          var r := idAndWaker.value;
          idAndWaker := None;
          reactor.RemoveTimer(deadline.value, r.id);
        }
        var result := deadline.value;
        match CheckedAdd(deadline.value, period) {
          case Some(next) =>
            deadline := Some(next);
            var id := reactor.InsertTimer(next, cx);
            idAndWaker := Some(Registration(id, cx));
          case None =>
            deadline := None;
        }
        return Ready(result);
      }
      if idAndWaker.None? {
        var id := reactor.InsertTimer(deadline.value, cx);
        idAndWaker := Some(Registration(id, cx));
      } else if idAndWaker.value.waker != cx {
        reactor.RemoveTimer(deadline.value, idAndWaker.value.id);
        var id := reactor.InsertTimer(deadline.value, cx);
        idAndWaker := Some(Registration(id, cx));
      }
      return Pending;
    }
  }
}
