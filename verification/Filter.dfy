/** `Filter` of `src/filter.rs`, updated in place, with `handle_event` proved to compute `Handle`. */
module Filters {
  import opened Wrappers
  import opened TimerStore
  import opened Reactors
  import opened FilterSpec

  class Filter {
    const reactor: Reactor
    var deadline: Option<Instant>
    var wakers: seq<Firing>
    var yielding: bool
    // The control flow set on the event loop last.
    var flow: ControlFlow

    ghost var view: Loop

    ghost predicate Valid()
      reads this, reactor
    {
      && reactor.Valid()
      && view.shared == reactor.view && view.deadline == deadline && view.wakers == wakers
      && view.yielding == yielding && view.flow == flow
    }

    /** `Filter::new`. */
    constructor (reactor: Reactor)
      requires reactor.Valid() && reactor.notifier.None?
      modifies reactor
      ensures this.reactor == reactor && Valid() && view == NewFilter(old(reactor.view))
    {
      this.reactor := reactor;
      deadline, wakers, yielding, flow := None, [], false, Wait;
      view := NewFilter(reactor.view);
      new;
      reactor.SetProxy(Notifier(true, false, 0));
    }

    /** The calls a future makes on the reactor while it is polled. */
    method Perform(acts: seq<Act>)
      requires Valid()
      modifies this`view, reactor
      ensures Valid() && view == old(view).(shared := Acts(old(view).shared, acts))
    {
      ghost var r := reactor.view;
      for i := 0 to |acts|
        modifies reactor
        invariant reactor.Valid() && Acts(reactor.view, acts[i..]) == Acts(r, acts)
      {
        assert acts[i..][0] == acts[i] && acts[i..][1..] == acts[i + 1..];
        match acts[i] {
          case PushOp(op) => reactor.PushEventLoopOp(op);
          case AddTimer(at, waker) => var _ := reactor.InsertTimer(at, waker);
          case CancelTimer(key) => reactor.RemoveTimer(key.deadline, key.id);
          case Wake(waker) => reactor.Wake(waker);
          case Exit(code) => reactor.RequestExit(code);
        }
      }
      assert acts[|acts|..] == [];
      view := view.(shared := reactor.view);
    }

    method Drain()
      requires Valid()
      modifies this`view, reactor
      ensures Valid() && view == old(view).(shared := Drained(old(view).shared))
    {
      reactor.DrainLoopQueue();
      view := view.(shared := reactor.view);
    }

    /** `process_timers` into `self.wakers`. */
    method CollectTimers(now: Instant) returns (next: Option<Instant>)
      requires Valid()
      modifies this`view, this`wakers, reactor
      ensures Valid() && view == Collect(old(view), now)
      ensures next == NextDeadline(old(view).shared.timers.live, now)
    {
      var fired: seq<Firing>;
      fired, next := reactor.ProcessTimers(now);
      wakers := wakers + fired;
      view := view.(shared := reactor.view, wakers := wakers);
    }

    /** `for waker in self.wakers.drain(..)`. */
    method WakeCollected()
      requires Valid()
      modifies this`view, this`wakers, reactor
      ensures Valid()
      ensures view == old(view).(shared := WakeAll(old(view).shared, old(wakers)),
                                 wokenTimers := old(view).wokenTimers + old(wakers), wakers := [])
    {
      ghost var r, ws := reactor.view, wakers;
      while wakers != []
        modifies this`wakers, reactor
        invariant reactor.Valid() && WakeAll(reactor.view, wakers) == WakeAll(r, ws)
        decreases |wakers|
      {
        var w := wakers[0].waker;
        wakers := wakers[1..];
        reactor.Wake(w);
      }
      view := view.(shared := reactor.view, wokenTimers := view.wokenTimers + ws, wakers := []);
    }

    /** The effect of `NewEvents` before the event is posted. */
    method Start(e: Event, now: Instant)
      requires Valid()
      modifies this, reactor
      ensures Valid() && view == StartEvent(old(view), e, now)
    {
      if e.NewEvents? {
        yielding := false;
        reactor.SetAwake();
        view := view.(yielding := false, shared := reactor.view);
        var next := CollectTimers(now);
        deadline := next;
        view := view.(deadline := next);
      }
    }

    /** The drive loop: poll, drain, process timers, wake, park, until the driver is ready. */
    method DriveAndPark(rounds: seq<Round>, last: seq<Act>)
      requires Valid()
      modifies this, reactor
      ensures Valid() && view == Drive(old(view), rounds, last)
    {
      yielding := false;
      view := view.(yielding := false);
      Drain();
      ghost var start := view;
      var i := 0;
      while true
        invariant 0 <= i <= |rounds| && Valid()
        invariant Turns(view, rounds[i..]) == Turns(start, rounds)
        decreases |rounds| - i
      {
        Perform(if i < |rounds| then rounds[i].acts else last);
        if i == |rounds| {
          break;
        }
        assert rounds[i..][0] == rounds[i] && rounds[i..][1..] == rounds[i + 1..];
        Drain();
        var current := CollectTimers(rounds[i].now);
        var until := Earlier(current, deadline);
        WakeCollected();
        view := view.(parks := view.parks + [Park(view.shared.ops, view.wakers, until)]);
        i := i + 1;
      }
    }

    /** The body of the trailing loop, its flag just consumed. */
    method PollOnce(acts: seq<Act>)
      requires Valid() && view.shared == Swapped(view.shared) && !yielding
      modifies this, reactor
      ensures Valid() && view == TrailTurn(old(view), acts)
    {
      ghost var before := view;
      Perform(acts);
      if reactor.IsNotified() {
        yielding := true;
      }
      view := view.(yielding := yielding);
      Drain();
      view := view.(polls := view.polls + 1);
    }

    /** The test of the trailing loop: `!yielding && notified.swap(false)`. */
    method TakeFlag() returns (taken: bool)
      requires Valid()
      modifies this`view, reactor
      ensures Valid() && taken == (!yielding && Flagged(old(view).shared))
      ensures view == if taken then old(view).(shared := Swapped(old(view).shared)) else old(view)
    {
      if yielding {
        return false;
      }
      taken := reactor.SwapNotified();
      view := view.(shared := reactor.view);
    }

    /** The trailing loop, and how many polls it made. */
    method PollWhileNotified(trail: nat -> seq<Act>) returns (polls: nat)
      requires Valid()
      modifies this, reactor
      ensures Valid() && view == Trail(old(view), 0, trail)
      ensures polls <= Potential(old(view)) && view.polls == old(view).polls + polls
    {
      polls := 0;
      ghost var start := view;
      while true
        invariant Valid() && Trail(view, polls, trail) == Trail(start, 0, trail)
        invariant polls + Potential(view) <= Potential(start) && view.polls == start.polls + polls
        decreases Potential(view)
      {
        ghost var before := view;
        var taken := TakeFlag();
        if !taken {
          break;
        }
        PollOnce(trail(polls));
        TrailDecreases(before, trail(polls));
        polls := polls + 1;
      }
    }

    /** The control flow is set from the exit request, the yield and the deadline, in this order. */
    method SetControlFlow()
      requires Valid()
      modifies this`flow, this`view
      ensures Valid() && view == old(view).(flow := FlowOf(old(view)))
    {
      var code := reactor.ExitRequested();
      if code.Some? {
        flow := ExitLoop;
      } else if yielding {
        flow := PollAgain;
      } else if deadline.Some? {
        flow := WaitUntil(deadline.value);
      } else {
        flow := Wait;
      }
      view := view.(flow := flow);
    }

    /** `Filter::handle_event`. */
    method HandleEvent(e: Event, s: Script)
      requires Valid()
      modifies this, reactor
      ensures Valid() && view == Handle(old(view), e, s)
    {
      Start(e, s.now);
      Perform(PostActs(e, s));
      if !PostReady(e, s) {
        DriveAndPark(s.drive, s.last);
      }
      var _ := PollWhileNotified(s.trail);
      SetControlFlow();
    }
  }
}
