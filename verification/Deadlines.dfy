/** How long the event loop waits after `handle_event`, and whether it waits past a live timer. */
module Deadlines {
  import opened Wrappers
  import opened TimerStore
  import opened Reactors
  import opened FilterSpec
  import opened FilterProofs

  /** No live timer is due before the deadline. */
  ghost predicate Covers(deadline: Option<Instant>, live: Wheel) {
    forall k :: k in live ==> deadline.Some? && deadline.value <= k.deadline
  }

  lemma NextDeadlineCovers(t: Timers, now: Instant)
    ensures Covers(NextDeadline(t.live, now), Process(t, now).live)
  {
    ProcessExact(t, now);
    if t.live != map[] {
      assert Due(t.live, now) == map[] ==> IsLeast(Least(t.live), t.live);
    }
  }

  lemma {:induction false} WakeAllTimers(r: Shared, ws: seq<Firing>)
    ensures WakeAll(r, ws).timers == r.timers
    decreases |ws|
  {
    if ws != [] {
      WakeAllTimers(WakeOne(r, ws[0].waker), ws[1..]);
    }
  }

  /** The deadline the drive loop parks with covers every timer that is live then. */
  lemma ParkCovers(l: Loop, round: Round)
    ensures var l' := Turn(l, round);
      && l'.parks != [] && l'.parks[..|l'.parks| - 1] == l.parks
      && Covers(l'.parks[|l'.parks| - 1].deadline, l'.shared.timers.live)
  {
    var polled := l.(shared := Drained(Acts(l.shared, round.acts)));
    var c := Collect(polled, round.now);
    WakeAllTimers(c.shared, c.wakers);
    NextDeadlineCovers(polled.shared.timers, round.now);
  }

  /** The deadline `process_timers` gives, told from the live keys: none without timers, `now` if one is
      due, and otherwise that of the key which precedes all others. */
  ghost predicate IsNext(deadline: Option<Instant>, live: Wheel, now: Instant) {
    && (deadline.None? <==> live == map[])
    && (deadline == Some(now) <==> exists k :: k in live && k.deadline <= now)
    && (deadline.Some? && deadline.value != now ==>
          exists k :: k in live && deadline.value == k.deadline && forall j :: j in live && j != k ==> Before(k, j))
  }

  lemma NextDeadlineIsNext(live: Wheel, now: Instant)
    ensures IsNext(NextDeadline(live, now), live, now)
  {
    var d := NextDeadline(live, now);
    if Due(live, now) != map[] {
      var k :| k in Due(live, now);
      assert k in live && k.deadline <= now;
    } else {
      forall k | k in live ensures k.deadline > now { assert k !in Due(live, now); }
      if live != map[] {
        assert IsLeast(Least(live), live);
      }
    }
  }

  /** After `NewEvents` the filter's deadline is exactly that of the timers live when it started. */
  lemma NewEventsDeadline(l: Loop, s: Script)
    requires Inv(l) && QueueFlagged(l.shared)
    ensures IsNext(Handle(l, NewEvents, s).deadline, l.shared.timers.live, s.now)
  {
    NextDeadlineIsNext(l.shared.timers.live, s.now);
    TrailCancels(Posted(l, NewEvents, s), 0, s.trail);
  }

  /** The earlier of two deadlines, either of which may be missing. */
  predicate IsEarlier(d: Option<Instant>, a: Option<Instant>, b: Option<Instant>) {
    && (d == a || d == b)
    && (a.Some? ==> d.Some? && d.value <= a.value)
    && (b.Some? ==> d.Some? && d.value <= b.value)
  }

  /** The thread parks until the filter's deadline or the one of the timers live after the poll, whichever
      is earlier. */
  lemma ParkDeadline(l: Loop, round: Round)
    ensures var live, parks := Acts(l.shared, round.acts).timers.live, Turn(l, round).parks;
      && |parks| == |l.parks| + 1
      && exists due :: IsNext(due, live, round.now) && IsEarlier(parks[|l.parks|].deadline, due, l.deadline)
  {
    var live := Acts(l.shared, round.acts).timers.live;
    DrainExact(Acts(l.shared, round.acts));
    NextDeadlineIsNext(live, round.now);
    var due := NextDeadline(live, round.now);
    assert IsEarlier(Earlier(due, l.deadline), due, l.deadline);
  }

  // ----- cancelling in the trailing loop -----

  function CancelledBy(acts: seq<Act>): set<Key> {
    set a | a in acts && a.CancelTimer? :: a.key
  }

  /** The keys cancelled by the `n` polls from the `k`-th on. */
  function CancelledIn(trail: nat -> seq<Act>, k: nat, n: nat): set<Key>
    decreases n
  {
    if n == 0 then {} else CancelledBy(trail(k)) + CancelledIn(trail, k + 1, n - 1)
  }

  /** A poll that leaves the flag down takes exactly the timers it cancels out, and asks for no exit. */
  lemma {:induction false} ActsCancel(r: Shared, acts: seq<Act>)
    requires r.notifier.Some?
    ensures var r' := Acts(r, acts);
      Flagged(r') || (r'.timers.live == r.timers.live - CancelledBy(acts) && r'.exits == r.exits)
    decreases |acts|
  {
    if acts != [] {
      var r1 := ActOn(r, acts[0]);
      assert CancelledBy(acts) == CancelledBy([acts[0]]) + CancelledBy(acts[1..]) by {
        assert acts == [acts[0]] + acts[1..];
      }
      ActsFlag(r1, acts[1..]);
      ActsCancel(r1, acts[1..]);
    }
  }

  /** The same of the trailing loop, when the filter does not yield after it. */
  lemma {:induction false} TrailCancels(l: Loop, k: nat, trail: nat -> seq<Act>)
    requires l.shared.notifier.Some?
    ensures var l' := Trail(l, k, trail);
      && l.polls <= l'.polls && l'.deadline == l.deadline && (l.yielding ==> l'.yielding)
      && (l'.yielding ||
          (l'.shared.timers.live == l.shared.timers.live - CancelledIn(trail, k, l'.polls - l.polls)
           && l'.shared.exits == l.shared.exits))
    decreases Potential(l)
  {
    if !l.yielding && Flagged(l.shared) {
      var r := Acts(Swapped(l.shared), trail(k));
      ActsFlag(Swapped(l.shared), trail(k));
      ActsCancel(Swapped(l.shared), trail(k));
      DrainFlag(r);
      DrainExact(r);
      TrailDecreases(l, trail(k));
      var l1 := TrailTurn(l, trail(k));
      TrailCancels(l1, k + 1, trail);
    }
  }

  // ----- waiting past a timer -----

  /** The event loop is left waiting, without a deadline or until one that is later than a live timer. */
  ghost predicate WaitsPast(l: Loop) {
    match l.flow
    case Wait => l.shared.timers.live != map[]
    case WaitUntil(d) => exists k :: k in l.shared.timers.live && k.deadline < d
    case _ => false
  }

  /** The filter's deadline is missing or too late for a timer that is live when the trailing loop starts
      and that the loop's polls do not cancel; and no exit has been requested, nor does a poll make the
      filter yield. */
  ghost predicate Overlooks(p: Loop, trail: nat -> seq<Act>) {
    && p.shared.exits == [] && !Yields(p, trail)
    && !Covers(p.deadline, p.shared.timers.live - CancelledIn(trail, 0, PollCount(p, trail)))
  }

  lemma WaitsPastIs(l: Loop)
    requires Settled(l)
    ensures WaitsPast(l) <==>
      l.shared.exits == [] && !l.yielding && !Covers(l.deadline, l.shared.timers.live)
  {
    assert Sound(l.shared);
    if l.flow.Wait? && l.shared.timers.live != map[] {
      var k :| k in l.shared.timers.live;
      assert !Covers(l.deadline, l.shared.timers.live);
    }
  }

  /** An event leaves the event loop waiting past a live timer if and only if, when its trailing loop
      starts, the filter overlooks one. */
  lemma WaitsPastIff(l: Loop, e: Event, s: Script)
    requires Inv(l) && QueueFlagged(l.shared)
    ensures WaitsPast(Handle(l, e, s)) <==> Overlooks(Posted(l, e, s), s.trail)
  {
    var p := Posted(l, e, s);
    PostedKeeps(l, e, s);
    HandleSettles(l, e, s);
    TrailShape(p, s.trail);
    TrailCancels(p, 0, s.trail);
    WaitsPastIs(Handle(l, e, s));
  }

  /** After a `NewEvents` event the loop never waits past a live timer. */
  lemma NewEventsCovers(l: Loop, s: Script)
    requires Inv(l) && QueueFlagged(l.shared)
    ensures var l' := Handle(l, NewEvents, s);
      !WaitsPast(l') && (l'.yielding || Covers(l'.deadline, l'.shared.timers.live))
  {
    var p := Posted(l, NewEvents, s);
    NextDeadlineCovers(Awaken(l.shared).timers, s.now);
    assert p.shared == Acts(p.shared, []) == StartEvent(l, NewEvents, s.now).shared;
    assert Covers(p.deadline, p.shared.timers.live);
    TrailCancels(p, 0, s.trail);
    WaitsPastIff(l, NewEvents, s);
  }

  // ----- sequences of events -----

  ghost predicate NeverWaitsPast(l: Loop, es: seq<(Event, Script)>)
    decreases |es|
  {
    es == [] ||
    var l' := Handle(l, es[0].0, es[0].1);
    !WaitsPast(l') && NeverWaitsPast(l', es[1..])
  }

  /** No event but `NewEvents`, for which it cannot happen, starts its trailing loop overlooking a timer. */
  ghost predicate NeverOverlooks(l: Loop, es: seq<(Event, Script)>)
    decreases |es|
  {
    es == [] ||
    ((es[0].0.OtherEvent? ==> !Overlooks(Posted(l, es[0].0, es[0].1), es[0].1.trail))
      && NeverOverlooks(Handle(l, es[0].0, es[0].1), es[1..]))
  }

  /** Over every sequence of events, the loop never waits past a live timer if and only if no event but
      `NewEvents` overlooks one. */
  lemma {:induction false} NeverWaitsPastIff(l: Loop, es: seq<(Event, Script)>)
    requires Inv(l) && QueueFlagged(l.shared)
    ensures NeverWaitsPast(l, es) <==> NeverOverlooks(l, es)
    decreases |es|
  {
    if es != [] {
      var (e, s) := es[0];
      HandleSettles(l, e, s);
      WaitsPastIff(l, e, s);
      if e.NewEvents? {
        NewEventsCovers(l, s);
      }
      NeverWaitsPastIff(Handle(l, e, s), es[1..]);
    }
  }

  lemma OtherKeepsDeadline(l: Loop, s: Script)
    requires Inv(l) && QueueFlagged(l.shared)
    ensures Handle(l, OtherEvent, s).deadline == l.deadline
  {
    var posted := l.(shared := Acts(l.shared, s.first));
    ActsSound(l.shared, s.first);
    if !s.ready {
      DriveKeeps(posted, s.drive, s.last);
    }
    PostedKeeps(l, OtherEvent, s);
    TrailKeeps(Posted(l, OtherEvent, s), 0, s.trail);
  }

  lemma {:induction false} OthersKeepDeadline(l: Loop, es: seq<(Event, Script)>)
    requires Inv(l) && QueueFlagged(l.shared)
    requires forall i :: 0 <= i < |es| ==> es[i].0.OtherEvent?
    ensures HandleAll(l, es).deadline == l.deadline
    decreases |es|
  {
    if es != [] {
      HandleSettles(l, es[0].0, es[0].1);
      OtherKeepsDeadline(l, es[0].1);
      OthersKeepDeadline(Handle(l, es[0].0, es[0].1), es[1..]);
    }
  }

  /** Only recent timers are overlooked: until the next `NewEvents`, the filter's deadline covers every live
      timer that was inserted before the last one. */
  lemma {:induction false} OverlookedIsRecent(l: Loop, s: Script, es: seq<(Event, Script)>)
    requires Inv(l) && QueueFlagged(l.shared)
    requires forall i :: 0 <= i < |es| ==> es[i].0.OtherEvent?
    ensures var l' := HandleAll(Handle(l, NewEvents, s), es);
      forall k :: k in l'.shared.timers.live && k.id < l.shared.timers.nextId ==>
        l'.deadline.Some? && l'.deadline.value <= k.deadline
  {
    var started := StartEvent(l, NewEvents, s.now);
    NextDeadlineCovers(Awaken(l.shared).timers, s.now);
    HandleOnward(l, NewEvents, s);
    HandleSettles(l, NewEvents, s);
    TrailCancels(Posted(l, NewEvents, s), 0, s.trail);
    OthersKeepDeadline(Handle(l, NewEvents, s), es);
    AlwaysOnward(Handle(l, NewEvents, s), es);
  }

  // ----- two ways to overlook a timer -----

  /** A timer added while the drive loop blocks is not covered: its wake-up is consumed by the trailing
      poll, and the loop is left waiting for events with the timer live. */
  lemma WaitsPastTimer(w: Waker, trail: nat -> seq<Act>)
    requires trail(0) == []
    ensures var s := Script(0, [], false, [Round([AddTimer(100, w)], 0)], [], trail);
      var l' := Handle(NewFilter(EMPTY), OtherEvent, s);
      l'.flow == Wait && l'.shared.timers.live == map[Key(100, 1) := w] && WaitsPast(l')
  {
    var l := NewFilter(EMPTY);
    var round := Round([AddTimer(100, w)], 0);
    var r := Acts(l.shared, round.acts);
    assert r == Acts(ActOn(l.shared, round.acts[0]), round.acts[1..]) == TimerInserted(l.shared, 100, w);
    assert r.timers.live == map[Key(100, 1) := w];
    assert Due(r.timers.live, 0) == map[];
    assert Later(r.timers.live, 0) == r.timers.live;
    assert Key(100, 1) in r.timers.live;
    var l1 := Turn(l, round);
    assert l1.shared == r.(timers := Process(r.timers, 0)) && l1.wakers == [];
    assert Turns(l, [round]) == l1 by { assert [round][1..] == []; }
    var d := Drive(l, [round], []);
    assert Drained(l.shared) == l.shared;
    assert d.shared == l1.shared;
    var l2 := TrailTurn(d, trail(0));
    assert !Flagged(l2.shared) && !l2.yielding;
    assert Trail(d, 0, trail) == Trail(l2, 1, trail);
  }
  /** A timer added in a trailing poll makes the filter yield; the next event that blocks takes that back,
      its trailing poll consumes the wake-up, and the loop is left waiting with the timer live. */
  lemma WaitsAfterYield(w: Waker, adds: nat -> seq<Act>, idle: nat -> seq<Act>)
    requires adds(0) == [AddTimer(100, w)] && idle(0) == []
    ensures var s1, s2 := Script(0, [], true, [], [], adds), Script(0, [], false, [], [], idle);
      var l1 := Handle(NewFilter(EMPTY), OtherEvent, s1);
      var l' := Handle(l1, OtherEvent, s2);
      && l1.flow == PollAgain
      && l'.flow == Wait && l'.shared.timers.live == map[Key(100, 1) := w] && WaitsPast(l')
  {
    var s1, s2 := Script(0, [], true, [], [], adds), Script(0, [], false, [], [], idle);
    AddsOneTimer(NewFilter(EMPTY), OtherEvent, s1, w);
    var l1 := Handle(NewFilter(EMPTY), OtherEvent, s1);
    var p := Posted(l1, OtherEvent, s2);
    assert Drained(l1.shared) == l1.shared;
    assert p == l1.(yielding := false);
    assert Key(100, 1) in p.shared.timers.live;
    PollsOnceIdly(p, idle);
  }
}
