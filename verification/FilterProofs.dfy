/** What `handle_event` keeps and guarantees, over every event and every behaviour of the futures. */
module FilterProofs {
  import opened Wrappers
  import opened TimerStore
  import opened Reactors
  import opened FilterSpec
  import ExitCode

  // ----- the reactor's part of the invariant -----

  /** Operations run in the order they were pushed and none twice; the exit cell tells the last request,
      if there was one; the timers are conserved. */
  ghost predicate Sound(r: Shared) {
    && r.notifier.Some?
    && r.pushed == r.executed + r.ops
    && ExitCode.Unpack(r.exitCode) == (if r.exits == [] then None else Some(r.exits[|r.exits| - 1]))
    && Conserved(r.timers)
  }

  /** An operation that waits has raised the flag. */
  predicate QueueFlagged(r: Shared) {
    r.ops != [] ==> Flagged(r)
  }

  lemma ActSound(r: Shared, a: Act)
    requires Sound(r)
    ensures Sound(ActOn(r, a)) && ActOn(r, a).timers.fired == r.timers.fired
    ensures QueueFlagged(r) ==> QueueFlagged(ActOn(r, a))
  {
    match a
    case PushOp(op) => assert (r.executed + r.ops) + [op] == r.executed + (r.ops + [op]);
    case AddTimer(deadline, waker) => InsertConserves(r.timers, deadline, waker);
    case CancelTimer(key) => RemoveConserves(r.timers, key);
    case Wake(waker) =>
    case Exit(code) => ExitCode.RoundTrip(code);
  }

  lemma {:induction false} ActsSound(r: Shared, acts: seq<Act>)
    requires Sound(r)
    ensures Sound(Acts(r, acts)) && Acts(r, acts).timers.fired == r.timers.fired
    ensures QueueFlagged(r) ==> QueueFlagged(Acts(r, acts))
    decreases |acts|
  {
    if acts != [] {
      ActSound(r, acts[0]);
      ActsSound(ActOn(r, acts[0]), acts[1..]);
    }
  }

  lemma {:induction false} DrainSound(r: Shared)
    requires Sound(r)
    ensures Sound(Drained(r)) && Drained(r).timers == r.timers && Drained(r).ops == []
    decreases |r.ops|
  {
    if r.ops != [] {
      var r1 := Execute(r.(ops := r.ops[1..]), r.ops[0]);
      assert r1.executed + r1.ops == r.executed + r.ops;
      DrainSound(r1);
    }
  }

  lemma {:induction false} WakeAllSound(r: Shared, ws: seq<Firing>)
    requires Sound(r)
    ensures Sound(WakeAll(r, ws)) && WakeAll(r, ws).timers == r.timers && WakeAll(r, ws).ops == r.ops
    ensures QueueFlagged(r) ==> QueueFlagged(WakeAll(r, ws))
    decreases |ws|
  {
    if ws != [] {
      WakeAllSound(WakeOne(r, ws[0].waker), ws[1..]);
    }
  }

  // ----- the filter's part -----

  /** Every timer waker that fired has been woken or is still collected, in the order of firing; and the
      thread never parked with an operation queued or a collected waker unwoken. */
  ghost predicate Inv(l: Loop) {
    && Sound(l.shared)
    && l.shared.timers.fired == l.wokenTimers + l.wakers
    && (forall p :: p in l.parks ==> p.ops == [] && p.wakers == [])
  }

  lemma ProcessSound(r: Shared, now: Instant)
    requires Sound(r)
    ensures Sound(TimersProcessed(r, now))
    ensures TimersProcessed(r, now).timers.fired == r.timers.fired + InOrder(Due(r.timers.live, now))
  {
    assert Conserved(Process(r.timers, now)) by { ProcessConserves(r.timers, now); }
  }

  lemma CollectOrder(l: Loop, now: Instant)
    requires l.shared.timers.fired == l.wokenTimers + l.wakers
    ensures Collect(l, now).shared.timers.fired == Collect(l, now).wokenTimers + Collect(l, now).wakers
  {
    var fs := InOrder(Due(l.shared.timers.live, now));
    assert (l.wokenTimers + l.wakers) + fs == l.wokenTimers + (l.wakers + fs);
  }

  lemma CollectKeeps(l: Loop, now: Instant)
    requires Inv(l)
    ensures Inv(Collect(l, now))
  {
    ProcessSound(l.shared, now);
    CollectOrder(l, now);
  }

  lemma StartKeeps(l: Loop, e: Event, now: Instant)
    requires Inv(l) && QueueFlagged(l.shared)
    ensures Inv(StartEvent(l, e, now)) && QueueFlagged(StartEvent(l, e, now).shared)
  {
    if e.NewEvents? {
      CollectKeeps(l.(yielding := false, shared := Awaken(l.shared)), now);
    }
  }

  lemma TurnKeeps(l: Loop, round: Round)
    requires Inv(l)
    ensures Inv(Turn(l, round)) && Turn(l, round).shared.ops == [] && Turn(l, round).wakers == []
    ensures Turn(l, round).deadline == l.deadline && Turn(l, round).yielding == l.yielding
  {
    ActsSound(l.shared, round.acts);
    DrainSound(Acts(l.shared, round.acts));
    var polled := l.(shared := Drained(Acts(l.shared, round.acts)));
    CollectKeeps(polled, round.now);
    var c := Collect(polled, round.now);
    WakeAllSound(c.shared, c.wakers);
  }

  lemma {:induction false} TurnsKeep(l: Loop, rounds: seq<Round>)
    requires Inv(l) && l.shared.ops == []
    ensures var l' := Turns(l, rounds);
      && Inv(l') && l'.shared.ops == [] && l'.deadline == l.deadline && l'.yielding == l.yielding
      && (rounds != [] ==> l'.wakers == []) && (rounds == [] ==> l' == l)
    decreases |rounds|
  {
    if rounds != [] {
      TurnKeeps(l, rounds[0]);
      TurnsKeep(Turn(l, rounds[0]), rounds[1..]);
    }
  }

  lemma DriveKeeps(l: Loop, rounds: seq<Round>, last: seq<Act>)
    requires Inv(l)
    ensures var l' := Drive(l, rounds, last);
      && Inv(l') && QueueFlagged(l'.shared) && l'.deadline == l.deadline && !l'.yielding
      && l'.wakers == if rounds == [] then l.wakers else []
  {
    DrainSound(l.shared);
    var l0 := l.(yielding := false, shared := Drained(l.shared));
    TurnsKeep(l0, rounds);
    ActsSound(Turns(l0, rounds).shared, last);
  }

  lemma TrailTurnKeeps(l: Loop, acts: seq<Act>)
    requires Inv(l)
    ensures Inv(TrailTurn(l, acts)) && TrailTurn(l, acts).shared.ops == []
  {
    ActsSound(Swapped(l.shared), acts);
    DrainSound(Acts(Swapped(l.shared), acts));
  }

  /** The trailing loop makes at most `Potential` polls; it stops with the flag down or the filter
      yielding, and never with an operation queued and the flag down. */
  lemma {:induction false} TrailKeeps(l: Loop, k: nat, trail: nat -> seq<Act>)
    requires Inv(l) && QueueFlagged(l.shared)
    ensures var l' := Trail(l, k, trail);
      && Inv(l') && QueueFlagged(l'.shared)
      && (Flagged(l'.shared) ==> l'.yielding)
      && l.polls <= l'.polls <= l.polls + Potential(l)
      && l'.deadline == l.deadline && l'.wakers == l.wakers && l'.wokenTimers == l.wokenTimers
      && l'.parks == l.parks
    decreases Potential(l)
  {
    if !l.yielding && Flagged(l.shared) {
      TrailTurnKeeps(l, trail(k));
      TrailDecreases(l, trail(k));
      TrailKeeps(TrailTurn(l, trail(k)), k + 1, trail);
    }
  }

  // ----- one event -----

  /** Between events: a wake that no poll has served since makes the loop poll again, a queued operation
      counts as one, and the control flow is the one the state calls for. */
  ghost predicate Settled(l: Loop) {
    && Inv(l)
    && QueueFlagged(l.shared)
    && (Flagged(l.shared) ==> l.yielding)
    && l.flow == FlowOf(l)
  }

  predicate Parks(e: Event, s: Script) {
    !PostReady(e, s) && s.drive != []
  }

  /** Before the trailing loop: an event that parks leaves no collected waker behind, and one that does
      not wakes none. */
  lemma PostedKeeps(l: Loop, e: Event, s: Script)
    requires Inv(l) && QueueFlagged(l.shared)
    ensures Inv(Posted(l, e, s)) && QueueFlagged(Posted(l, e, s).shared) && Posted(l, e, s).polls == l.polls
    ensures if Parks(e, s) then Posted(l, e, s).wakers == []
      else Posted(l, e, s).wakers == StartEvent(l, e, s.now).wakers && Posted(l, e, s).wokenTimers == l.wokenTimers
  {
    StartKeeps(l, e, s.now);
    var started := StartEvent(l, e, s.now);
    ActsSound(started.shared, PostActs(e, s));
    if !PostReady(e, s) {
      var posted := started.(shared := Acts(started.shared, PostActs(e, s)));
      DriveKeeps(posted, s.drive, s.last);
      TurnsPolls(posted.(yielding := false, shared := Drained(posted.shared)), s.drive);
    }
  }

  /** No wake is forgotten: whatever the futures do, an event ends settled, with at most two polls in the
      trailing loop. */
  lemma HandleSettles(l: Loop, e: Event, s: Script)
    requires Inv(l) && QueueFlagged(l.shared)
    ensures Settled(Handle(l, e, s))
    ensures l.polls <= Handle(l, e, s).polls <= l.polls + 2
  {
    PostedKeeps(l, e, s);
    TrailKeeps(Posted(l, e, s), 0, s.trail);
  }

  lemma {:induction false} TurnsPolls(l: Loop, rounds: seq<Round>)
    ensures Turns(l, rounds).polls == l.polls
    decreases |rounds|
  {
    if rounds != [] {
      TurnsPolls(Turn(l, rounds[0]), rounds[1..]);
    }
  }

  lemma FreshFilter()
    ensures Inv(NewFilter(EMPTY)) && QueueFlagged(NewFilter(EMPTY).shared) && !IsAwake(NewFilter(EMPTY).shared)
  {
  }

  /** The same over every sequence of events. */
  lemma {:induction false} AlwaysSettled(l: Loop, es: seq<(Event, Script)>)
    requires Inv(l) && QueueFlagged(l.shared)
    ensures Inv(HandleAll(l, es)) && (es != [] ==> Settled(HandleAll(l, es)))
    ensures HandleAll(l, es).polls <= l.polls + 2 * |es|
    decreases |es|
  {
    if es != [] {
      HandleSettles(l, es[0].0, es[0].1);
      AlwaysSettled(Handle(l, es[0].0, es[0].1), es[1..]);
    }
  }

  /** So a task that was woken and not polled since, and one that waits for a queued operation, finds the
      loop polling again or exiting. The loop exits exactly when that has been requested; otherwise it
      polls when yielding, and else waits until the deadline, if there is one. */
  lemma WokenMeansPolling(l: Loop, es: seq<(Event, Script)>)
    requires Inv(l) && QueueFlagged(l.shared) && es != []
    ensures var l' := HandleAll(l, es);
      && (Flagged(l'.shared) || l'.shared.ops != [] ==> l'.flow == PollAgain || l'.flow == ExitLoop)
      && (l'.flow == ExitLoop <==> l'.shared.exits != [])
      && (l'.flow == PollAgain <==> l'.shared.exits == [] && l'.yielding)
      && (forall d :: l'.flow == WaitUntil(d) <==>
            l'.shared.exits == [] && !l'.yielding && l'.deadline == Some(d))
  {
    AlwaysSettled(l, es);
  }

  /** Over every sequence of events: operations are executed in the order they were pushed, none twice and
      none left out; the thread parks with an empty queue and no collected waker; and the exit code is
      the one requested last, if any was. */
  lemma OpsInOrderParksClean(l: Loop, es: seq<(Event, Script)>)
    requires Inv(l) && QueueFlagged(l.shared)
    ensures var l' := HandleAll(l, es);
      && l'.shared.executed <= l'.shared.pushed
      && l'.shared.ops == l'.shared.pushed[|l'.shared.executed|..]
      && (forall p :: p in l'.parks ==> p.ops == [] && p.wakers == [])
      && (l'.shared.exits == [] <==> ExitCode.Unpack(l'.shared.exitCode) == None)
      && (l'.shared.exits != [] ==>
            ExitCode.Unpack(l'.shared.exitCode) == Some(l'.shared.exits[|l'.shared.exits| - 1]))
  {
    AlwaysSettled(l, es);
    assert Sound(HandleAll(l, es).shared);
  }

  ghost predicate Contains(fs: seq<Firing>, k: Key, w: Waker) {
    Firing(k, w) in fs
  }

  /** Every waker ever given to a timer is in exactly one place: with a live timer (queued or in the map),
      cancelled, collected by the filter, or woken. */
  lemma EveryWakerAccounted(l: Loop, es: seq<(Event, Script)>, k: Key)
    requires Inv(l) && QueueFlagged(l.shared) && k in HandleAll(l, es).shared.timers.issued
    ensures var l' := HandleAll(l, es);
      var t, w := l'.shared.timers, l'.shared.timers.issued[k];
      var live, cancelled := k in t.live && t.live[k] == w, k in t.cancelled;
      var collected, woken := Contains(l'.wakers, k, w), Contains(l'.wokenTimers, k, w);
      && (live || cancelled || collected || woken)
      && !(live && cancelled) && !(live && collected) && !(live && woken)
      && !(cancelled && collected) && !(cancelled && woken) && !(collected && woken)
  {
    AlwaysSettled(l, es);
    var l' := HandleAll(l, es);
    var t := l'.shared.timers;
    assert Sound(l'.shared);
    FiredIsPlaced(t, l'.wokenTimers, l'.wakers, k);
  }

  lemma FiredIsPlaced(t: Timers, woken: seq<Firing>, collected: seq<Firing>, k: Key)
    requires Conserved(t) && t.fired == woken + collected && k in t.issued
    ensures FiredKey(t, k) <==> Contains(woken, k, t.issued[k]) || Contains(collected, k, t.issued[k])
    ensures !(Contains(woken, k, t.issued[k]) && Contains(collected, k, t.issued[k]))
  {
    var f := Firing(k, t.issued[k]);
    if FiredKey(t, k) {
      var i :| 0 <= i < |t.fired| && t.fired[i].key == k;
      assert t.fired[i] == f;
      assert if i < |woken| then woken[i] == f else collected[i - |woken|] == f;
    }
    if f in woken {
      var i :| 0 <= i < |woken| && woken[i] == f;
      assert t.fired[i].key == k;
    }
    if f in collected {
      var j :| 0 <= j < |collected| && collected[j] == f;
      assert t.fired[|woken| + j].key == k;
    }
    forall i, j | 0 <= i < |woken| && 0 <= j < |collected| ensures woken[i].key != collected[j].key {
      assert t.fired[i] == woken[i] && t.fired[|woken| + j] == collected[j];
    }
  }

  // ----- what the two drains do -----

  function Answers(ops: seq<LoopOp>): seq<Waker> {
    if ops == [] then []
    else (if ops[0].answer.Some? then [ops[0].answer.value] else []) + Answers(ops[1..])
  }

  function WakersOf(ws: seq<Firing>): (r: seq<Waker>)
    ensures |r| == |ws| && forall i :: 0 <= i < |ws| ==> r[i] == ws[i].waker
  {
    if ws == [] then [] else [ws[0].waker] + WakersOf(ws[1..])
  }

  /** Draining executes every queued operation once, in order, and wakes exactly their answers. */
  lemma {:induction false} DrainExact(r: Shared)
    ensures var r' := Drained(r);
      && r'.ops == [] && r'.executed == r.executed + r.ops && r'.woken == r.woken + Answers(r.ops)
      && r'.pushed == r.pushed && r'.timers == r.timers && r'.exits == r.exits
    decreases |r.ops|
  {
    if r.ops != [] {
      DrainExact(Execute(r.(ops := r.ops[1..]), r.ops[0]));
    }
  }

  /** Waking the collected wakers wakes each once, in order. */
  lemma {:induction false} WakeAllExact(r: Shared, ws: seq<Firing>)
    ensures WakeAll(r, ws).woken == r.woken + WakersOf(ws)
    decreases |ws|
  {
    if ws != [] {
      WakeAllExact(WakeOne(r, ws[0].waker), ws[1..]);
      assert WakersOf(ws) == [ws[0].waker] + WakersOf(ws[1..]);
    }
  }

  // ----- which wakers reach the filter -----

  /** Waking either of the filter's own wakers raises the flag; waking a task's raises it exactly when the
      task belongs to the filter. */
  lemma WakingRaises(r: Shared, task: nat, relays: bool)
    requires r.notifier.Some?
    ensures Flagged(WakeOne(r, LoopWaker)) && Flagged(WakeOne(r, ParkWaker))
    ensures Flagged(WakeOne(r, TaskWaker(task, relays))) <==> Flagged(r) || relays
  {
  }

  lemma {:induction false} ActsJoin(r: Shared, a: seq<Act>, b: seq<Act>)
    ensures Acts(r, a + b) == Acts(Acts(r, a), b)
    decreases |a|
  {
    if a == [] {
      assert a + b == b;
    } else {
      assert (a + b)[1..] == a[1..] + b;
      ActsJoin(ActOn(r, a[0]), a[1..], b);
    }
  }

  /** A future that wakes itself at the end of a trailing poll yields: the loop will poll it again as soon
      as possible, unless an exit has been requested. */
  lemma SelfWakeYields(l: Loop, e: Event, s: Script, acts: seq<Act>, w: Waker)
    requires Inv(l) && QueueFlagged(l.shared)
    requires var p := Posted(l, e, s); !p.yielding && Flagged(p.shared)
    requires s.trail(0) == acts + [Wake(w)] && (w.LoopWaker? || w.ParkWaker?)
    ensures var l' := Handle(l, e, s);
      l'.yielding && l'.flow == (if l'.shared.exits == [] then PollAgain else ExitLoop)
  {
    var p := Posted(l, e, s);
    PostedKeeps(l, e, s);
    HandleSettles(l, e, s);
    var r := Acts(Swapped(p.shared), acts);
    ActsJoin(Swapped(p.shared), acts, [Wake(w)]);
    ActsFlag(Swapped(p.shared), acts);
    WakingRaises(r, 0, false);
    assert Acts(r, [Wake(w)]) == WakeOne(r, w) by { assert [Wake(w)][1..] == []; }
    TrailShape(p, s.trail);
    assert Sound(Handle(l, e, s).shared);
  }

  // ----- when the future is polled -----

  /** The filter still yields when the trailing loop starts: the event neither is `NewEvents` nor blocks. */
  predicate StillYields(l: Loop, e: Event, s: Script) {
    l.yielding && e.OtherEvent? && s.ready
  }

  /** The trailing loop polls the future if and only if it has a wake to serve and the filter does not
      yield any more; and no wake from before the event is lost until then. */
  lemma PolledIff(l: Loop, e: Event, s: Script)
    requires Inv(l) && QueueFlagged(l.shared)
    ensures Posted(l, e, s).yielding <==> StillYields(l, e, s)
    ensures Flagged(l.shared) ==> Flagged(Posted(l, e, s).shared)
    ensures Handle(l, e, s).polls > l.polls <==> Flagged(Posted(l, e, s).shared) && !StillYields(l, e, s)
  {
    var p := Posted(l, e, s);
    PostedKeeps(l, e, s);
    PostedOnward(l, e, s);
    PostedFlag(l, e, s);
    TrailShape(p, s.trail);
  }

  lemma PostedFlag(l: Loop, e: Event, s: Script)
    requires Inv(l) && QueueFlagged(l.shared)
    ensures Flagged(l.shared) ==> Flagged(Posted(l, e, s).shared)
    ensures Posted(l, e, s).yielding <==> StillYields(l, e, s)
  {
    var started := StartEvent(l, e, s.now);
    StartKeeps(l, e, s.now);
    ActsSound(started.shared, PostActs(e, s));
    ActsFlag(started.shared, PostActs(e, s));
    if !PostReady(e, s) {
      var posted := started.(shared := Acts(started.shared, PostActs(e, s)));
      var l0 := posted.(yielding := false, shared := Drained(posted.shared));
      DrainFlag(posted.shared);
      DrainSound(posted.shared);
      TurnsFlag(l0, s.drive);
      TurnsKeep(l0, s.drive);
      ActsFlag(Turns(l0, s.drive).shared, s.last);
    }
  }

  lemma {:induction false} TurnsFlag(l: Loop, rounds: seq<Round>)
    requires l.shared.notifier.Some?
    ensures Turns(l, rounds).shared.notifier.Some? && (Flagged(l.shared) ==> Flagged(Turns(l, rounds).shared))
    decreases |rounds|
  {
    if rounds != [] {
      var r := Acts(l.shared, rounds[0].acts);
      ActsFlag(l.shared, rounds[0].acts);
      DrainFlag(r);
      var c := Collect(l.(shared := Drained(r)), rounds[0].now);
      WakeAllOnward(c.shared, c.wakers);
      TurnsFlag(Turn(l, rounds[0]), rounds[1..]);
    }
  }

  /** In particular the first event of a new filter polls the future, whatever the event is, and so does the
      next `NewEvents` after an event that left a wake unserved. */
  lemma UnservedIsPolled(l: Loop, e: Event, s: Script)
    requires (l == NewFilter(EMPTY)) || (Inv(l) && QueueFlagged(l.shared) && Flagged(l.shared) && e.NewEvents?)
    ensures Handle(l, e, s).polls > l.polls
  {
    PolledIff(l, e, s);
  }

  // ----- what only moves on: the proxy, and the timer ids -----

  /** Once the loop has started, nothing is sent through the proxy any more. */
  ghost predicate Quiet(r: Shared, r': Shared) {
    r.notifier.Some? && r.notifier.value.awake ==>
      r'.notifier.Some? && r'.notifier.value.awake && r'.notifier.value.sends == r.notifier.value.sends
  }

  /** Until the loop has started, one wake-up is sent, exactly when the flag goes up. */
  ghost predicate Rings(r: Shared, r': Shared) {
    r.notifier.Some? ==>
      && r'.notifier.Some? && r'.notifier.value.awake == r.notifier.value.awake
      && (Flagged(r) ==> Flagged(r'))
      && r'.notifier.value.sends
         == r.notifier.value.sends
            + if !r.notifier.value.awake && !Flagged(r) && Flagged(r') then 1 else 0
  }

  predicate IsAwake(r: Shared) {
    r.notifier.Some? && r.notifier.value.awake
  }

  ghost predicate SameAwake(r: Shared, r': Shared) {
    r.notifier.Some? ==> r'.notifier.Some? && (IsAwake(r') <==> IsAwake(r))
  }

  /** A timer that is live was live before, or has a new id. */
  ghost predicate NoneRevived(t: Timers, t': Timers) {
    t.nextId <= t'.nextId && forall k :: k in t'.live ==> k in t.live || k.id >= t.nextId
  }

  ghost predicate Onward(r: Shared, r': Shared) {
    Quiet(r, r') && NoneRevived(r.timers, r'.timers)
  }

  lemma {:induction false} ActsOnward(r: Shared, acts: seq<Act>)
    ensures Onward(r, Acts(r, acts)) && Rings(r, Acts(r, acts))
    decreases |acts|
  {
    if acts != [] {
      ActsOnward(ActOn(r, acts[0]), acts[1..]);
    }
  }

  lemma {:induction false} DrainOnward(r: Shared)
    ensures Onward(r, Drained(r)) && Rings(r, Drained(r))
    decreases |r.ops|
  {
    if r.ops != [] {
      DrainOnward(Execute(r.(ops := r.ops[1..]), r.ops[0]));
    }
  }

  lemma {:induction false} WakeAllOnward(r: Shared, ws: seq<Firing>)
    ensures Onward(r, WakeAll(r, ws)) && Rings(r, WakeAll(r, ws))
    decreases |ws|
  {
    if ws != [] {
      WakeAllOnward(WakeOne(r, ws[0].waker), ws[1..]);
    }
  }

  lemma {:induction false} TurnsOnward(l: Loop, rounds: seq<Round>)
    ensures Onward(l.shared, Turns(l, rounds).shared) && SameAwake(l.shared, Turns(l, rounds).shared)
    decreases |rounds|
  {
    if rounds != [] {
      var r := Acts(l.shared, rounds[0].acts);
      ActsOnward(l.shared, rounds[0].acts);
      DrainOnward(r);
      var c := Collect(l.(shared := Drained(r)), rounds[0].now);
      WakeAllOnward(c.shared, c.wakers);
      TurnsOnward(Turn(l, rounds[0]), rounds[1..]);
    }
  }

  lemma {:induction false} TrailOnward(l: Loop, k: nat, trail: nat -> seq<Act>)
    ensures Onward(l.shared, Trail(l, k, trail).shared) && SameAwake(l.shared, Trail(l, k, trail).shared)
    decreases Potential(l)
  {
    if !l.yielding && Flagged(l.shared) {
      ActsOnward(Swapped(l.shared), trail(k));
      DrainOnward(Acts(Swapped(l.shared), trail(k)));
      TrailDecreases(l, trail(k));
      TrailOnward(TrailTurn(l, trail(k)), k + 1, trail);
    }
  }

  lemma PostedOnward(l: Loop, e: Event, s: Script)
    ensures Onward(StartEvent(l, e, s.now).shared, Posted(l, e, s).shared)
    ensures SameAwake(StartEvent(l, e, s.now).shared, Posted(l, e, s).shared)
  {
    var started := StartEvent(l, e, s.now);
    var posted := started.(shared := Acts(started.shared, PostActs(e, s)));
    ActsOnward(started.shared, PostActs(e, s));
    if !PostReady(e, s) {
      var l0 := posted.(yielding := false, shared := Drained(posted.shared));
      DrainOnward(posted.shared);
      TurnsOnward(l0, s.drive);
      ActsOnward(Turns(l0, s.drive).shared, s.last);
    }
  }

  lemma HandleOnward(l: Loop, e: Event, s: Script)
    ensures Onward(StartEvent(l, e, s.now).shared, Handle(l, e, s).shared)
    ensures Onward(l.shared, Handle(l, e, s).shared)
    ensures SameAwake(StartEvent(l, e, s.now).shared, Handle(l, e, s).shared)
  {
    PostedOnward(l, e, s);
    TrailOnward(Posted(l, e, s), 0, s.trail);
  }

  lemma {:induction false} AlwaysOnward(l: Loop, es: seq<(Event, Script)>)
    ensures Onward(l.shared, HandleAll(l, es).shared)
    decreases |es|
  {
    if es != [] {
      HandleOnward(l, es[0].0, es[0].1);
      AlwaysOnward(Handle(l, es[0].0, es[0].1), es[1..]);
    }
  }

  /** The loop counts as started once there has been a `NewEvents`, and not before. */
  lemma {:induction false} LoopStartedIff(l: Loop, es: seq<(Event, Script)>)
    requires l.shared.notifier.Some?
    ensures var r' := HandleAll(l, es).shared;
      r'.notifier.Some? &&
      (IsAwake(r') <==> IsAwake(l.shared) || exists i :: 0 <= i < |es| && es[i].0.NewEvents?)
    decreases |es|
  {
    if es != [] {
      HandleOnward(l, es[0].0, es[0].1);
      LoopStartedIff(Handle(l, es[0].0, es[0].1), es[1..]);
      assert forall i :: 0 < i < |es| ==> es[i] == es[1..][i - 1];
      if i :| 0 <= i < |es[1..]| && es[1..][i].0.NewEvents? {
        assert es[i + 1].0.NewEvents?;
      }
    }
  }

  /** From the first `NewEvents` on, the proxy is left alone: whatever happens then and in later events,
      no further wake-up is sent through it. */
  lemma NoSendsOnceStarted(l: Loop, s: Script, es: seq<(Event, Script)>)
    requires l.shared.notifier.Some?
    ensures var r' := HandleAll(Handle(l, NewEvents, s), es).shared;
      r'.notifier.Some? && r'.notifier.value.sends == l.shared.notifier.value.sends
  {
    HandleOnward(l, NewEvents, s);
    AlwaysOnward(Handle(l, NewEvents, s), es);
  }

  // ----- timer wakers are woken by parking only -----

  /** An event that parks leaves no collected waker behind; one that does not wakes none, and adds those
      of the timers that are due when it starts. */
  lemma CollectedUnlessParked(l: Loop, e: Event, s: Script)
    requires Inv(l) && QueueFlagged(l.shared)
    ensures var l' := Handle(l, e, s);
      if Parks(e, s) then l'.wakers == []
      else l'.wakers == StartEvent(l, e, s.now).wakers && l'.wokenTimers == l.wokenTimers
  {
    PostedKeeps(l, e, s);
    TrailKeeps(Posted(l, e, s), 0, s.trail);
  }

  /** A program whose events never park never wakes a timer, though every due timer is taken out of the
      reactor: the wakers of all that fired stay in the filter. */
  lemma {:induction false} TimersNeedParking(l: Loop, es: seq<(Event, Script)>)
    requires Inv(l) && QueueFlagged(l.shared)
    requires forall i :: 0 <= i < |es| ==> !Parks(es[i].0, es[i].1)
    ensures var l' := HandleAll(l, es);
      l'.wokenTimers == l.wokenTimers && l.wakers <= l'.wakers
      && l'.shared.timers.fired == l.wokenTimers + l'.wakers
    decreases |es|
  {
    if es != [] {
      HandleSettles(l, es[0].0, es[0].1);
      CollectedUnlessParked(l, es[0].0, es[0].1);
      TimersNeedParking(Handle(l, es[0].0, es[0].1), es[1..]);
    }
  }

  /** Such a program: a timer inserted while the future is polled fires at a later `NewEvents`, is taken
      out of the reactor, and its waker stays in the filter. */
  lemma CollectedNotWoken(w: Waker, adds: nat -> seq<Act>, idle: nat -> seq<Act>)
    requires adds(0) == [AddTimer(100, w)] && idle(0) == []
    ensures var es := [(NewEvents, Script(0, [], true, [], [], adds)), (NewEvents, Script(200, [], true, [], [], idle))];
      var l' := HandleAll(NewFilter(EMPTY), es);
      && (forall i :: 0 <= i < |es| ==> !Parks(es[i].0, es[i].1))
      && l'.shared.timers.fired == l'.wakers == [Firing(Key(100, 1), w)]
      && l'.shared.timers.live == map[] && l'.wokenTimers == [] && l'.flow == WaitUntil(200)
  {
    hide Handle;
    var s1, s2 := Script(0, [], true, [], [], adds), Script(200, [], true, [], [], idle);
    AddsOneTimer(NewFilter(EMPTY), NewEvents, s1, w);
    CollectsOneTimer(Handle(NewFilter(EMPTY), NewEvents, s1), s2, w);
    TwoEvents(NewFilter(EMPTY), (NewEvents, s1), (NewEvents, s2));
  }

  lemma TwoEvents(l: Loop, a: (Event, Script), b: (Event, Script))
    ensures HandleAll(l, [a, b]) == Handle(Handle(l, a.0, a.1), b.0, b.1)
  {
    assert [a, b][1..] == [b];
    assert [b][1..] == [];
    assert HandleAll(Handle(l, a.0, a.1), [b]) == HandleAll(Handle(Handle(l, a.0, a.1), b.0, b.1), []);
  }

  /** The `NewEvents` after it, when the timer is due and the trailing poll does nothing. */
  lemma CollectsOneTimer(l: Loop, s: Script, w: Waker)
    requires l.shared.timers == Insert(NO_TIMERS, 100, w) && l.shared.ops == [] && l.shared.exitCode == 0
    requires Flagged(l.shared) && l.wakers == [] && s.now == 200 && s.trail(0) == []
    ensures var l' := Handle(l, NewEvents, s);
      && l'.shared.timers.fired == l'.wakers == [Firing(Key(100, 1), w)]
      && l'.shared.timers.live == map[] && l'.wokenTimers == l.wokenTimers && l'.flow == WaitUntil(200)
  {
    var one, none: Wheel := map[Key(100, 1) := w], map[];
    assert l.shared.timers.live == one;
    assert Due(one, 200) == one && Later(one, 200) == none;
    OneListed(one, Key(100, 1), w);
    var p := Posted(l, NewEvents, s);
    assert p == StartEvent(l, NewEvents, s.now);
    PollsOnceIdly(p, s.trail);
  }

  /** The first event of a new filter, when it finds nothing to do and its trailing poll inserts a timer. */
  lemma AddsOneTimer(l: Loop, e: Event, s: Script, w: Waker)
    requires l == NewFilter(EMPTY) && s.trail(0) == [AddTimer(100, w)]
    requires e.NewEvents? || (s.first == [] && s.ready)
    ensures var l' := Handle(l, e, s);
      && l'.shared.timers == Insert(NO_TIMERS, 100, w) && l'.shared.ops == [] && l'.shared.exits == []
      && l'.shared.exitCode == 0 && l'.yielding && l'.flow == PollAgain && Flagged(l'.shared)
      && l'.wakers == [] && l'.wokenTimers == [] && l'.deadline == None
  {
    var started := StartEvent(l, e, s.now);
    var none: Wheel := map[];
    assert Due(none, s.now) == none && Later(none, s.now) == none && InOrder(none) == [];
    assert started.shared.timers == NO_TIMERS;
    var p := Posted(l, e, s);
    assert p == started.(shared := Acts(started.shared, []));
    var r := Swapped(p.shared);
    assert Acts(r, [AddTimer(100, w)]) == Acts(ActOn(r, AddTimer(100, w)), []) by {
      assert [AddTimer(100, w)][1..] == [];
    }
    var l1 := TrailTurn(p, s.trail(0));
    assert l1.yielding && l1.shared.timers == Insert(NO_TIMERS, 100, w);
    TrailDecreases(p, s.trail(0));
    assert Trail(p, 0, s.trail) == Trail(l1, 1, s.trail) == l1;
  }

  /** A trailing poll that does nothing lowers the flag, and the loop ends. */
  lemma PollsOnceIdly(l: Loop, idle: nat -> seq<Act>)
    requires !l.yielding && Flagged(l.shared) && l.shared.ops == [] && idle(0) == []
    ensures Trail(l, 0, idle) == l.(shared := Swapped(l.shared), polls := l.polls + 1)
  {
    var l1 := TrailTurn(l, idle(0));
    assert l1 == l.(shared := Swapped(l.shared), polls := l.polls + 1);
    TrailDecreases(l, idle(0));
    assert Trail(l, 0, idle) == Trail(l1, 1, idle) == l1;
  }

  // ----- what the trailing loop does -----

  /** Draining what is queued answers a task of the filter. */
  predicate AnswersLoop(ops: seq<LoopOp>) {
    exists i :: 0 <= i < |ops| && AnswerReachesLoop(ops[i])
  }

  /** The reactor after the first poll of the trailing loop, and after the second. */
  function FirstPoll(l: Loop, trail: nat -> seq<Act>): Shared {
    Acts(Swapped(l.shared), trail(0))
  }

  function SecondPoll(l: Loop, trail: nat -> seq<Act>): Shared {
    Acts(Swapped(Drained(FirstPoll(l, trail))), trail(1))
  }

  /** How often the trailing loop polls: a second time exactly when the first poll neither wakes the filter
      nor queues an operation, and one queued before is answered to a task of the filter. */
  function PollCount(l: Loop, trail: nat -> seq<Act>): nat {
    if l.yielding || !Flagged(l.shared) then 0
    else if Flagged(FirstPoll(l, trail)) || !AnswersLoop(l.shared.ops) then 1
    else 2
  }

  /** The filter yields after the trailing loop: it did before, or the last poll leaves the flag up. */
  predicate Yields(l: Loop, trail: nat -> seq<Act>) {
    l.yielding ||
    match PollCount(l, trail)
    case 0 => false
    case 1 => Flagged(FirstPoll(l, trail))
    case _ => Flagged(SecondPoll(l, trail))
  }

  /** The trailing loop polls that often, for every future, and yields in exactly that case. */
  lemma TrailShape(l: Loop, trail: nat -> seq<Act>)
    requires Inv(l) && QueueFlagged(l.shared)
    ensures Trail(l, 0, trail).polls == l.polls + PollCount(l, trail)
    ensures Trail(l, 0, trail).yielding <==> Yields(l, trail)
  {
    if !l.yielding && Flagged(l.shared) {
      var r := FirstPoll(l, trail);
      ActsFlag(Swapped(l.shared), trail(0));
      DrainFlag(r);
      var l1 := TrailTurn(l, trail(0));
      TrailTurnKeeps(l, trail(0));
      TrailDecreases(l, trail(0));
      assert Trail(l, 0, trail) == Trail(l1, 1, trail);
      if Potential(l1) > 0 {
        LastTurn(l1, trail);
      }
    }
  }

  /** A turn that finds the queue empty is the last. */
  lemma LastTurn(l: Loop, trail: nat -> seq<Act>)
    requires !l.yielding && Flagged(l.shared) && l.shared.ops == []
    ensures Trail(l, 1, trail) == TrailTurn(l, trail(1))
  {
    TrailDecreases(l, trail(1));
  }
}
