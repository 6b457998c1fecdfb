/** Any number of timers sharing one reactor: what every run of polls, settings, drops and
    `process_timers` calls keeps. */
module TimerSystem {
  import opened Wrappers
  import opened TimerStore
  import opened TimerClient

  /** The timers by name, the store they share, and the latest reading of the clock. */
  datatype World = World(timers: map<nat, TimerState>, store: Timers, clock: Instant)

  datatype Action =
    | Create(name: nat, timer: TimerState)
    | Poll(name: nat, now: Instant, cx: Waker)
    | Never(name: nat)
    | Interval(name: nat, start: Instant, period: nat)
    | Drop(name: nat)
    | Tick(now: Instant)

  function PairOf(w: World, name: nat): Pair
    requires name in w.timers
  {
    Pair(w.timers[name], w.store)
  }

  function With(w: World, name: nat, p: Pair): World {
    w.(timers := w.timers[name := p.timer], store := p.store)
  }

  /** The clock does not run backwards, a name is used while its timer exists, and constructors make
      unregistered timers. */
  predicate Enabled(w: World, a: Action) {
    match a
    case Create(name, timer) => name !in w.timers && timer.registration.None?
    case Poll(name, now, _) => name in w.timers && w.clock <= now
    case Never(name) => name in w.timers
    case Interval(name, _, _) => name in w.timers
    case Drop(name) => name in w.timers
    case Tick(now) => w.clock <= now
  }

  ghost function Step(w: World, a: Action): World
    requires Enabled(w, a)
  {
    match a
    case Create(name, timer) => w.(timers := w.timers[name := timer])
    case Poll(name, now, cx) => With(w, name, PollNext(PairOf(w, name), now, cx)).(clock := now)
    case Never(name) => With(w, name, SetNever(PairOf(w, name)))
    case Interval(name, start, period) => With(w, name, SetIntervalAt(PairOf(w, name), start, period))
    case Drop(name) => var p := SetNever(PairOf(w, name)); World(w.timers - {name}, p.store, w.clock)
    case Tick(now) => w.(store := Process(w.store, now), clock := now)
  }

  ghost predicate Legal(w: World, actions: seq<Action>)
    decreases |actions|
  {
    actions == [] || (Enabled(w, actions[0]) && Legal(Step(w, actions[0]), actions[1..]))
  }

  ghost function After(w: World, actions: seq<Action>): World
    requires Legal(w, actions)
    decreases |actions|
  {
    if actions == [] then w else After(Step(w, actions[0]), actions[1..])
  }

  /** The timer is registered under the key. */
  predicate Owns(t: TimerState, k: Key) {
    t.registration.Some? && t.deadline == Some(k.deadline) && t.registration.value.id == k.id
  }

  /** A registered timer has a deadline, and its key was issued with its latest waker and not cancelled,
      so that it is live or has fired. */
  predicate Registered(t: TimerState, s: Timers) {
    t.registration.Some? ==>
      t.deadline.Some? &&
      var k := Key(t.deadline.value, t.registration.value.id);
      k in s.issued && s.issued[k] == t.registration.value.waker && k !in s.cancelled
  }

  ghost predicate AllRegistered(w: World) {
    forall n :: n in w.timers ==> Registered(w.timers[n], w.store)
  }

  ghost predicate DistinctIds(w: World) {
    forall n, m :: n in w.timers && m in w.timers && n != m
      && w.timers[n].registration.Some? && w.timers[m].registration.Some?
      ==> w.timers[n].registration.value.id != w.timers[m].registration.value.id
  }

  ghost predicate OwnedBySome(timers: map<nat, TimerState>, k: Key) {
    exists n :: n in timers && Owns(timers[n], k)
  }

  ghost predicate AllOwned(w: World) {
    forall k :: k in w.store.live ==> OwnedBySome(w.timers, k)
  }

  ghost predicate FiredByNow(w: World) {
    forall i :: 0 <= i < |w.store.fired| ==> w.store.fired[i].key.deadline <= w.clock
  }

  ghost predicate Inv(w: World) {
    Conserved(w.store) && AllRegistered(w) && DistinctIds(w) && AllOwned(w) && FiredByNow(w)
  }

  // ----- the moves an action is made of -----

  lemma UnregisterOwned(w: World, name: nat)
    requires AllOwned(w) && AllRegistered(w) && name in w.timers
    ensures AllOwned(With(w, name, Unregister(PairOf(w, name))))
  {
    var w' := With(w, name, Unregister(PairOf(w, name)));
    forall k | k in w'.store.live ensures OwnedBySome(w'.timers, k) {
      var n :| n in w.timers && Owns(w.timers[n], k);
      assert n != name by { assert Registered(w.timers[name], w.store); }
      assert n in w'.timers && Owns(w'.timers[n], k);
    }
  }

  lemma UnregisterRegistered(w: World, name: nat)
    requires AllRegistered(w) && DistinctIds(w) && name in w.timers
    ensures AllRegistered(With(w, name, Unregister(PairOf(w, name))))
    ensures DistinctIds(With(w, name, Unregister(PairOf(w, name))))
  {
    var w' := With(w, name, Unregister(PairOf(w, name)));
    forall n | n in w'.timers ensures Registered(w'.timers[n], w'.store) {
      assert n != name ==> Registered(w.timers[n], w.store);
    }
  }

  lemma UnregisterKeeps(w: World, name: nat)
    requires Inv(w) && name in w.timers
    ensures Inv(With(w, name, Unregister(PairOf(w, name))))
  {
    var t := w.timers[name];
    UnregisterOwned(w, name);
    UnregisterRegistered(w, name);
    if t.registration.Some? && t.deadline.Some? {
      RemoveConserves(w.store, Key(t.deadline.value, t.registration.value.id));
    }
  }

  lemma RegisterOwned(w: World, name: nat, cx: Waker)
    requires AllOwned(w) && name in w.timers
    requires w.timers[name].registration.None? && w.timers[name].deadline.Some?
    ensures AllOwned(With(w, name, Register(PairOf(w, name), cx)))
  {
    var w' := With(w, name, Register(PairOf(w, name), cx));
    forall k | k in w'.store.live ensures OwnedBySome(w'.timers, k) {
      if k in w.store.live {
        var n :| n in w.timers && Owns(w.timers[n], k);
        assert n in w'.timers && Owns(w'.timers[n], k);
      } else {
        assert Owns(w'.timers[name], k);
      }
    }
  }

  /** A new registration has an id that no timer has and no key was issued with. */
  lemma RegisterRegistered(w: World, name: nat, cx: Waker)
    requires AllRegistered(w) && DistinctIds(w) && name in w.timers
    requires forall k :: k in w.store.issued ==> k.id < w.store.nextId
    requires forall k :: k in w.store.cancelled ==> k in w.store.issued
    requires w.timers[name].registration.None? && w.timers[name].deadline.Some?
    ensures AllRegistered(With(w, name, Register(PairOf(w, name), cx)))
    ensures DistinctIds(With(w, name, Register(PairOf(w, name), cx)))
  {
    var w' := With(w, name, Register(PairOf(w, name), cx));
    forall n | n in w'.timers
      ensures Registered(w'.timers[n], w'.store)
      ensures n != name && w'.timers[n].registration.Some? ==> w'.timers[n].registration.value.id < w.store.nextId
    {
      if n != name {
        assert Registered(w.timers[n], w.store);
      }
    }
  }

  lemma RegisterKeeps(w: World, name: nat, cx: Waker)
    requires Inv(w) && name in w.timers
    requires w.timers[name].registration.None? && w.timers[name].deadline.Some?
    ensures Inv(With(w, name, Register(PairOf(w, name), cx)))
  {
    RegisterOwned(w, name, cx);
    RegisterRegistered(w, name, cx);
    InsertConserves(w.store, w.timers[name].deadline.value, cx);
  }

  /** An unregistered timer can be changed, made or dropped freely. */
  lemma EditKeeps(w: World, timers: map<nat, TimerState>)
    requires Inv(w)
    requires forall n :: n in w.timers && w.timers[n].registration.Some? ==> n in timers && timers[n] == w.timers[n]
    requires forall n :: n in timers && timers[n].registration.Some? ==> n in w.timers && timers[n] == w.timers[n]
    ensures Inv(w.(timers := timers))
  {
    forall k | k in w.store.live ensures OwnedBySome(timers, k) {
      var n :| n in w.timers && Owns(w.timers[n], k);
      assert n in timers && Owns(timers[n], k);
    }
  }

  lemma TickKeeps(w: World, now: Instant)
    requires Inv(w) && w.clock <= now
    ensures Inv(w.(store := Process(w.store, now), clock := now))
  {
    ProcessConserves(w.store, now);
    ProcessExact(w.store, now);
    var s := Process(w.store, now);
    forall i | 0 <= i < |s.fired| ensures s.fired[i].key.deadline <= now {
      if i >= |w.store.fired| {
        assert s.fired[i] in InOrder(Due(w.store.live, now));
      }
    }
  }

  // ----- every action -----

  /** Taking a timer's registration and then changing its deadline. */
  lemma ReplaceKeeps(w: World, name: nat, deadline: Option<Instant>, period: nat)
    requires Inv(w) && name in w.timers
    ensures Inv(With(w, name, WithDeadline(Unregister(PairOf(w, name)), deadline, period)))
  {
    var w1 := With(w, name, Unregister(PairOf(w, name)));
    UnregisterKeeps(w, name);
    EditKeeps(w1, w1.timers[name := w1.timers[name].(deadline := deadline, period := period)]);
    assert With(w, name, WithDeadline(Unregister(PairOf(w, name)), deadline, period)).timers
        == w1.timers[name := w1.timers[name].(deadline := deadline, period := period)];
  }

  lemma PollKeeps(w: World, name: nat, now: Instant, cx: Waker)
    requires Inv(w) && name in w.timers
    ensures Inv(With(w, name, PollNext(PairOf(w, name), now, cx)))
  {
    var t := w.timers[name];
    if t.deadline.None? {
      assert With(w, name, PairOf(w, name)).timers == w.timers;
    } else if t.deadline.value < now {
      var next := WithDeadline(Unregister(PairOf(w, name)), CheckedAdd(t.deadline.value, t.period), t.period);
      ReplaceKeeps(w, name, CheckedAdd(t.deadline.value, t.period), t.period);
      if next.timer.deadline.Some? {
        RegisterAgain(w, name, next, cx);
      }
    } else if t.registration.None? {
      RegisterKeeps(w, name, cx);
    } else if t.registration.value.waker != cx {
      UnregisterKeeps(w, name);
      RegisterAgain(w, name, Unregister(PairOf(w, name)), cx);
    } else {
      assert With(w, name, PairOf(w, name)).timers == w.timers;
    }
  }

  lemma RegisterAgain(w: World, name: nat, p: Pair, cx: Waker)
    requires name in w.timers && Inv(With(w, name, p))
    requires p.timer.registration.None? && p.timer.deadline.Some?
    ensures Inv(With(w, name, Register(p, cx)))
  {
    var w1 := With(w, name, p);
    RegisterKeeps(w1, name, cx);
    assert PairOf(w1, name) == p;
    assert With(w1, name, Register(p, cx)).timers == With(w, name, Register(p, cx)).timers;
  }

  lemma LaterClock(w: World, now: Instant)
    requires Inv(w) && w.clock <= now
    ensures Inv(w.(clock := now))
  {
  }

  lemma StepKeeps(w: World, a: Action)
    requires Inv(w) && Enabled(w, a)
    ensures Inv(Step(w, a))
  {
    match a
    case Create(name, timer) => EditKeeps(w, w.timers[name := timer]);
    case Poll(name, now, cx) =>
      PollKeeps(w, name, now, cx);
      LaterClock(With(w, name, PollNext(PairOf(w, name), now, cx)), now);
    case Never(name) => ReplaceKeeps(w, name, None, w.timers[name].period);
    case Interval(name, start, period) => ReplaceKeeps(w, name, Some(start), period);
    case Drop(name) =>
      var w1 := With(w, name, SetNever(PairOf(w, name)));
      ReplaceKeeps(w, name, None, w.timers[name].period);
      EditKeeps(w1, w1.timers - {name});
      assert w1.timers - {name} == w.timers - {name};
    case Tick(now) => TickKeeps(w, now);
  }

  lemma {:induction false} RunKeeps(w: World, actions: seq<Action>)
    requires Inv(w) && Legal(w, actions)
    ensures Inv(After(w, actions))
    decreases |actions|
  {
    if actions != [] {
      StepKeeps(w, actions[0]);
      RunKeeps(Step(w, actions[0]), actions[1..]);
    }
  }

  /** `n` is the one timer registered under `k`, and `k` carries its latest waker. */
  ghost predicate SoleOwner(w: World, n: nat, k: Key)
    requires k in w.store.live
  {
    && n in w.timers && Owns(w.timers[n], k)
    && w.store.live[k] == w.timers[n].registration.value.waker
    && (forall m :: m in w.timers && Owns(w.timers[m], k) ==> m == n)
  }

  /** The key a registered timer stands under. */
  ghost function KeyOf(t: TimerState): Key
    requires t.registration.Some? && t.deadline.Some?
  {
    Key(t.deadline.value, t.registration.value.id)
  }

  /** In every reachable world each live reactor key belongs to exactly one timer, which is registered
      under it with the waker the key carries; and a registered timer's key is live or has fired. */
  lemma KeysAndTimersMatch(clock: Instant, actions: seq<Action>)
    requires Legal(World(map[], NO_TIMERS, clock), actions)
    ensures var w := After(World(map[], NO_TIMERS, clock), actions);
      && (forall k :: k in w.store.live ==> exists n :: SoleOwner(w, n, k))
      && (forall n :: n in w.timers && w.timers[n].registration.Some? ==>
            w.timers[n].deadline.Some?
            && (KeyOf(w.timers[n]) in w.store.live || FiredKey(w.store, KeyOf(w.timers[n]))))
  {
    var w0 := World(map[], NO_TIMERS, clock);
    assert Inv(w0);
    RunKeeps(w0, actions);
    var w := After(w0, actions);
    forall k | k in w.store.live ensures exists n :: SoleOwner(w, n, k) {
      assert OwnedBySome(w.timers, k);
      var n :| n in w.timers && Owns(w.timers[n], k);
      assert Registered(w.timers[n], w.store);
      assert SoleOwner(w, n, k);
    }
    forall n | n in w.timers && w.timers[n].registration.Some?
      ensures w.timers[n].deadline.Some?
            && (KeyOf(w.timers[n]) in w.store.live || FiredKey(w.store, KeyOf(w.timers[n])))
    {
      assert Registered(w.timers[n], w.store);
    }
  }

  // ----- what clearing and polling leave behind -----

  /** The timer is in the reactor at its deadline, with this waker. */
  ghost predicate ArmedWith(t: TimerState, s: Timers, waker: Waker) {
    t.registration.Some? && t.deadline.Some? && t.registration.value.waker == waker
    && KeyOf(t) in s.live && s.live[KeyOf(t)] == waker
  }

  /** Dropping a timer, or setting it anew, takes its entry out of the reactor, whatever is done next. */
  lemma ClearedNeverFires(w: World, name: nat, cs: seq<Command>)
    requires Inv(w) && name in w.timers && w.timers[name].registration.Some?
    ensures w.timers[name].deadline.Some?
    ensures var key, s := KeyOf(w.timers[name]), SetNever(PairOf(w, name)).store;
      && key !in s.live && key !in DoAll(s, cs).live
      && |s.fired| <= |DoAll(s, cs).fired|
      && forall i :: |s.fired| <= i < |DoAll(s, cs).fired| ==> DoAll(s, cs).fired[i].key != key
  {
    assert Registered(w.timers[name], w.store);
    RemovedNeverFires(w.store, KeyOf(w.timers[name]), cs);
  }

  /** A pending poll of a timer that can fire leaves its entry in the reactor, unless the timer was
      registered with the same waker before and that entry has fired; then, and only then, nothing is
      left that could wake the task. It takes a poll at the very instant of the deadline. */
  lemma PendingPollArmedIff(w: World, name: nat, now: Instant, cx: Waker)
    requires Inv(w) && name in w.timers && w.clock <= now
    requires w.timers[name].deadline.Some? && now <= w.timers[name].deadline.value
    ensures var t, p := w.timers[name], PollNext(PairOf(w, name), now, cx);
      && p.timer.registration.Some? && p.timer.deadline == t.deadline
      && p.timer.registration.value.waker == cx && Result(t, now).None?
      && (KeyOf(p.timer) !in p.store.live
          <==> t.registration.Some? && t.registration.value.waker == cx && FiredKey(w.store, KeyOf(t)))
      && (KeyOf(p.timer) !in p.store.live ==> t.deadline.value == now)
  {
    var t := w.timers[name];
    assert Registered(t, w.store);
    if t.registration.Some? && FiredKey(w.store, KeyOf(t)) {
      var i :| 0 <= i < |w.store.fired| && w.store.fired[i].key == KeyOf(t);
      assert t.deadline.value <= w.clock;
    }
  }

  /** A ready poll: the timer gives its deadline, and its old entry is gone. If the next instant can be
      represented, it is at once in the reactor with the waker of the poll; otherwise the timer has
      stopped. The other timers' entries stay. */
  lemma ReadyPollRearms(w: World, name: nat, now: Instant, cx: Waker)
    requires Inv(w) && name in w.timers
    requires w.timers[name].deadline.Some? && w.timers[name].deadline.value < now
    ensures var t, p := w.timers[name], PollNext(PairOf(w, name), now, cx);
      var next := t.deadline.value + t.period;
      && Result(t, now) == t.deadline && p.timer.period == t.period
      && (t.registration.Some? ==> KeyOf(t) !in p.store.live)
      && (if next <= INSTANT_MAX then p.timer.deadline == Some(next) && ArmedWith(p.timer, p.store, cx)
          else p.timer.deadline.None? && p.timer.registration.None?)
      && (forall k :: k in w.store.live && !Owns(t, k) ==> k in p.store.live && p.store.live[k] == w.store.live[k])
  {
    hide Conserved, AllRegistered, DistinctIds, AllOwned, FiredByNow;
    KeysAreOld(w, name);
  }

  lemma KeysAreOld(w: World, name: nat)
    requires Inv(w) && name in w.timers
    ensures forall k :: k in w.store.live ==> k.id < w.store.nextId
    ensures w.timers[name].registration.Some? ==>
      w.timers[name].deadline.Some? && KeyOf(w.timers[name]).id < w.store.nextId
  {
    assert Registered(w.timers[name], w.store);
  }

  lemma Prepend(w: World, a: Action, rest: seq<Action>)
    requires Enabled(w, a) && Legal(Step(w, a), rest)
    ensures Legal(w, [a] + rest) && After(w, [a] + rest) == After(Step(w, a), rest)
  {
    assert ([a] + rest)[1..] == rest;
  }

  /** Such a run: the timer fires when the clock reads its deadline, the task polls it at that very
      reading, and the timer stays pending with no entry left in the reactor. */
  lemma StrandedTimer(cx: Waker)
    ensures var actions := [Create(0, IntervalAt(5, DURATION_MAX))] + ([Poll(0, 3, cx)] + ([Tick(5)] + [Poll(0, 5, cx)]));
      var w0 := World(map[], NO_TIMERS, 0);
      && Legal(w0, actions)
      && After(w0, actions).store.live == map[]
      && After(w0, actions).store.fired == [Firing(Key(5, 1), cx)]
      && After(w0, actions).timers == map[0 := TimerState(Some(Registration(1, cx)), Some(5), DURATION_MAX)]
  {
    var w0 := World(map[], NO_TIMERS, 0);
    var w1 := Step(w0, Create(0, IntervalAt(5, DURATION_MAX)));
    var w2 := Step(w1, Poll(0, 3, cx));
    assert w2.store.live == map[Key(5, 1) := cx];
    assert Due(w2.store.live, 5) == w2.store.live;
    OneListed(w2.store.live, Key(5, 1), cx);
    var w3 := Step(w2, Tick(5));
    assert w3.store.live == map[];
    var w4 := Step(w3, Poll(0, 5, cx));
    assert [Poll(0, 5, cx)] + [] == [Poll(0, 5, cx)];
    Prepend(w3, Poll(0, 5, cx), []);
    Prepend(w2, Tick(5), [Poll(0, 5, cx)]);
    Prepend(w1, Poll(0, 3, cx), [Tick(5)] + [Poll(0, 5, cx)]);
    Prepend(w0, Create(0, IntervalAt(5, DURATION_MAX)), [Poll(0, 3, cx)] + ([Tick(5)] + [Poll(0, 5, cx)]));
  }

  // ----- setting a registered timer -----

  /** Setting a timer keeps it armed for the task it was registered for, which is what renewing the
      registration was for, if and only if it was not registered. */
  lemma SettingKeepsArmedIff(w: World, name: nat, start: Instant, period: nat)
    requires name in w.timers
    ensures var t, w' := w.timers[name], Step(w, Interval(name, start, period));
      (t.registration.Some? ==> ArmedWith(w'.timers[name], w'.store, t.registration.value.waker))
      <==> t.registration.None?
  {
  }

  /** The stretch neither polls this timer nor makes another one of its name. */
  predicate LeavesAlone(actions: seq<Action>, name: nat) {
    forall i :: 0 <= i < |actions| ==>
      !(actions[i].Poll? && actions[i].name == name) && !(actions[i].Create? && actions[i].name == name)
  }

  predicate Unregistered(w: World, name: nat) {
    name in w.timers ==> w.timers[name].registration.None?
  }

  /** From `s` to `s'` the key was not live and did not fire. */
  ghost predicate NotSeen(s: Timers, s': Timers, key: Key) {
    && key !in s'.live && s.nextId <= s'.nextId && |s.fired| <= |s'.fired|
    && forall i :: |s.fired| <= i < |s'.fired| ==> s'.fired[i].key != key
  }

  lemma StepNotSeen(w: World, a: Action, key: Key)
    requires Enabled(w, a) && key !in w.store.live && key.id < w.store.nextId
    ensures NotSeen(w.store, Step(w, a).store, key)
    ensures w.store.fired <= Step(w, a).store.fired
  {
    if a.Tick? {
      var fs := InOrder(Due(w.store.live, a.now));
      InOrderSorted(Due(w.store.live, a.now));
      forall i | |w.store.fired| <= i < |Step(w, a).store.fired|
        ensures Step(w, a).store.fired[i].key != key
      {
        assert Step(w, a).store.fired[i] in fs;
      }
    }
  }

  lemma {:induction false} RunNotSeen(w: World, actions: seq<Action>, key: Key)
    requires Legal(w, actions) && key !in w.store.live && key.id < w.store.nextId
    ensures NotSeen(w.store, After(w, actions).store, key)
    ensures w.store.fired <= After(w, actions).store.fired
    decreases |actions|
  {
    if actions != [] {
      StepNotSeen(w, actions[0], key);
      RunNotSeen(Step(w, actions[0]), actions[1..], key);
    }
  }

  lemma {:induction false} StaysUnregistered(w: World, actions: seq<Action>, name: nat)
    requires Legal(w, actions) && LeavesAlone(actions, name) && Unregistered(w, name)
    ensures Unregistered(After(w, actions), name)
    decreases |actions|
  {
    if actions != [] {
      assert Unregistered(Step(w, actions[0]), name);
      StaysUnregistered(Step(w, actions[0]), actions[1..], name);
    }
  }

  /** After a setting, and until its next poll, the timer is unregistered: every live entry belongs to
      another timer, and the entry it had before neither comes back nor fires, whatever the clock and the
      other timers do. */
  lemma SetIsUnregisteredUntilPolled(w: World, name: nat, start: Instant, period: nat, actions: seq<Action>)
    requires Inv(w) && name in w.timers
    requires Legal(Step(w, Interval(name, start, period)), actions) && LeavesAlone(actions, name)
    ensures var w1 := Step(w, Interval(name, start, period));
      var w' := After(w1, actions);
      && Unregistered(w', name)
      && (forall k :: k in w'.store.live ==> exists n :: n != name && SoleOwner(w', n, k))
      && (w.timers[name].registration.Some? ==>
            w.timers[name].deadline.Some? && NotSeen(w1.store, w'.store, KeyOf(w.timers[name])))
  {
    var w1 := Step(w, Interval(name, start, period));
    var w' := After(w1, actions);
    StepKeeps(w, Interval(name, start, period));
    RunKeeps(w1, actions);
    StaysUnregistered(w1, actions, name);
    forall k | k in w'.store.live ensures exists n :: n != name && SoleOwner(w', n, k) {
      var n :| n in w'.timers && Owns(w'.timers[n], k);
      assert Registered(w'.timers[n], w'.store);
      assert n != name && SoleOwner(w', n, k);
    }
    if w.timers[name].registration.Some? {
      assert Registered(w.timers[name], w.store);
      RunNotSeen(w1, actions, KeyOf(w.timers[name]));
    }
  }

  /** Such a run: a task waits for a timer, the timer is set to a later instant, that instant passes, and
      nothing has fired. */
  lemma ForgottenTimer(cx: Waker)
    ensures var actions := [Create(0, IntervalAt(5, DURATION_MAX))] + ([Poll(0, 3, cx)] + ([Interval(0, 8, DURATION_MAX)] + [Tick(9)]));
      var w0 := World(map[], NO_TIMERS, 0);
      && Legal(w0, actions)
      && After(w0, actions).timers == map[0 := IntervalAt(8, DURATION_MAX)]
      && After(w0, actions).store.live == map[] && After(w0, actions).store.fired == []
  {
    var w0 := World(map[], NO_TIMERS, 0);
    var w1 := Step(w0, Create(0, IntervalAt(5, DURATION_MAX)));
    var w2 := Step(w1, Poll(0, 3, cx));
    var w3 := Step(w2, Interval(0, 8, DURATION_MAX));
    assert w3.store.live == map[];
    var none: Wheel := map[];
    assert Due(none, 9) == none && Later(none, 9) == none && InOrder(none) == [];
    assert [Tick(9)] + [] == [Tick(9)];
    Prepend(w3, Tick(9), []);
    Prepend(w2, Interval(0, 8, DURATION_MAX), [Tick(9)]);
    Prepend(w1, Poll(0, 3, cx), [Interval(0, 8, DURATION_MAX)] + [Tick(9)]);
    Prepend(w0, Create(0, IntervalAt(5, DURATION_MAX)), [Poll(0, 3, cx)] + ([Interval(0, 8, DURATION_MAX)] + [Tick(9)]));
  }

  /** Its next poll, if that is pending, registers it with the waker of the poll. */
  lemma PollAfterSettingArms(w: World, name: nat, start: Instant, period: nat, actions: seq<Action>, now: Instant, cx: Waker)
    requires Inv(w) && name in w.timers
    requires Legal(Step(w, Interval(name, start, period)), actions) && LeavesAlone(actions, name)
    requires var w' := After(Step(w, Interval(name, start, period)), actions);
      name in w'.timers && w'.timers[name].deadline.Some? && w'.clock <= now <= w'.timers[name].deadline.value
    ensures var p := PollNext(PairOf(After(Step(w, Interval(name, start, period)), actions), name), now, cx);
      ArmedWith(p.timer, p.store, cx)
  {
    SetIsUnregisteredUntilPolled(w, name, start, period, actions);
  }

  // ----- interval timers -----

  /** The part of a timer that decides when it is ready. */
  datatype Schedule = Schedule(deadline: Option<Instant>, period: nat)

  function ScheduleOf(t: TimerState): Schedule {
    Schedule(t.deadline, t.period)
  }

  /** The schedule after a poll at `now`. */
  function Advance(s: Schedule, now: Instant): Schedule {
    if s.deadline.Some? && s.deadline.value < now then s.(deadline := CheckedAdd(s.deadline.value, s.period)) else s
  }

  /** A poll moves the schedule on as the clock says, whatever the registration and the store are. */
  lemma PollAdvances(p: Pair, now: Instant, cx: Waker)
    ensures ScheduleOf(PollNext(p, now, cx).timer) == Advance(ScheduleOf(p.timer), now)
  {
  }

  /** One poll: the time, the task, and the store as the rest of the program has left it by then. */
  datatype PollAt = PollAt(now: Instant, cx: Waker, store: Timers)

  /** The ready results of the polls of a timer that nothing sets meanwhile, each with the time of its
      poll. */
  function TimerResults(t: TimerState, polls: seq<PollAt>): seq<(Instant, Instant)>
    decreases |polls|
  {
    if polls == [] then []
    else
      (match Result(t, polls[0].now) case Some(at) => [(at, polls[0].now)] case None => [])
      + TimerResults(PollNext(Pair(t, polls[0].store), polls[0].now, polls[0].cx).timer, polls[1..])
  }

  function Times(polls: seq<PollAt>): (times: seq<Instant>)
    ensures |times| == |polls|
  {
    if polls == [] then [] else [polls[0].now] + Times(polls[1..])
  }

  /** The ready results a schedule gives to polls at the given times, and the schedule after them. */
  function Results(s: Schedule, times: seq<Instant>): seq<(Instant, Instant)>
    decreases |times|
  {
    if times == [] then []
    else
      (if s.deadline.Some? && s.deadline.value < times[0] then [(s.deadline.value, times[0])] else [])
      + Results(Advance(s, times[0]), times[1..])
  }

  function Polled(s: Schedule, times: seq<Instant>): Schedule
    decreases |times|
  {
    if times == [] then s else Polled(Advance(s, times[0]), times[1..])
  }

  lemma {:induction false} TimerFollowsSchedule(t: TimerState, polls: seq<PollAt>)
    ensures TimerResults(t, polls) == Results(ScheduleOf(t), Times(polls))
    decreases |polls|
  {
    if polls != [] {
      PollAdvances(Pair(t, polls[0].store), polls[0].now, polls[0].cx);
      TimerFollowsSchedule(PollNext(Pair(t, polls[0].store), polls[0].now, polls[0].cx).timer, polls[1..]);
    }
  }

  /** The k-th instant of an interval. */
  function Nth(start: Instant, period: nat, k: nat): Instant
    decreases k
  {
    if k == 0 then start else Nth(start + period, period, k - 1)
  }

  lemma {:induction false} NthIs(start: Instant, period: nat, k: nat)
    ensures Nth(start, period, k) == start + k * period
    decreases k
  {
    if k > 0 {
      NthIs(start + period, period, k - 1);
      assert (k - 1) * period + period == k * period;
    }
  }

  /** The k-th result is the k-th instant of the interval, earlier than the clock at its poll, and every
      one after the first was representable. */
  ghost predicate OnTime(rs: seq<(Instant, Instant)>, start: Instant, period: nat) {
    && (forall k :: 0 <= k < |rs| ==> rs[k].0 == Nth(start, period, k) && rs[k].0 < rs[k].1)
    && (forall k :: 0 < k < |rs| ==> rs[k].0 <= INSTANT_MAX)
  }

  lemma OnTimeStep(rest: seq<(Instant, Instant)>, start: Instant, period: nat, now: Instant)
    requires start < now && start + period <= INSTANT_MAX && OnTime(rest, start + period, period)
    ensures OnTime([(start, now)] + rest, start, period)
  {
    var rs := [(start, now)] + rest;
    forall k | 0 <= k < |rs|
      ensures rs[k].0 == Nth(start, period, k) && rs[k].0 < rs[k].1 && (k > 0 ==> rs[k].0 <= INSTANT_MAX)
    {
      if k > 0 {
        assert rs[k] == rest[k - 1];
      }
    }
  }

  /** Results `rs` that leave an interval of this start and period with the deadline `next`: they are on
      time, and `next` is the instant after them, or none if that one cannot be represented. */
  ghost predicate NotDrifted(rs: seq<(Instant, Instant)>, start: Instant, period: nat, next: Option<Instant>) {
    && OnTime(rs, start, period)
    && var at := Nth(start, period, |rs|);
    next == if rs != [] && at > INSTANT_MAX then None else Some(at)
  }

  lemma NotDriftedStep(rest: seq<(Instant, Instant)>, start: Instant, period: nat, now: Instant, next: Option<Instant>)
    requires start < now && start + period <= INSTANT_MAX
    requires NotDrifted(rest, start + period, period, next)
    ensures NotDrifted([(start, now)] + rest, start, period, next)
  {
    OnTimeStep(rest, start, period, now);
    assert |[(start, now)] + rest| == 1 + |rest|;
    assert Nth(start, period, 1 + |rest|) == Nth(start + period, period, |rest|);
  }

  lemma LastResult(start: Instant, period: nat, now: Instant)
    requires start < now && start + period > INSTANT_MAX
    ensures NotDrifted([(start, now)], start, period, None)
  {
    assert Nth(start, period, 1) == Nth(start + period, period, 0);
  }

  /** An interval does not drift, however late the polls are: its k-th result is exactly
      `start + k * period` (see `NthIs`), earlier than the clock at its poll; it stops for good at the
      first instant that cannot be represented, and not before. */
  lemma {:induction false} NoDrift(s: Schedule, start: Instant, times: seq<Instant>)
    requires s.deadline == Some(start)
    ensures NotDrifted(Results(s, times), start, s.period, Polled(s, times).deadline)
    decreases |times|
  {
    if times != [] {
      var s1 := Advance(s, times[0]);
      if start >= times[0] {
        NoDrift(s1, start, times[1..]);
        assert Results(s, times) == Results(s1, times[1..]);
      } else if start + s.period <= INSTANT_MAX {
        NoDrift(s1, start + s.period, times[1..]);
        NotDriftedStep(Results(s1, times[1..]), start, s.period, times[0], Polled(s, times).deadline);
      } else {
        NeverResults(s1, times[1..]);
        LastResult(start, s.period, times[0]);
        assert Results(s, times) == [(start, times[0])];
      }
    }
  }

  lemma {:induction false} NeverResults(s: Schedule, times: seq<Instant>)
    requires s.deadline.None?
    ensures Results(s, times) == [] && Polled(s, times) == s
    decreases |times|
  {
    if times != [] {
      NeverResults(s, times[1..]);
    }
  }

  /** The same for a timer, whatever happens to its reactor between the polls. */
  lemma TimerDoesNotDrift(t: TimerState, start: Instant, polls: seq<PollAt>)
    requires t.deadline == Some(start)
    ensures OnTime(TimerResults(t, polls), start, t.period)
  {
    TimerFollowsSchedule(t, polls);
    NoDrift(ScheduleOf(t), start, Times(polls));
  }

  /** Setting a timer starts its schedule afresh, whatever it was doing; set to never, it is not ready
      again. */
  lemma SettingRestarts(p: Pair, start: Instant, period: nat, polls: seq<PollAt>)
    ensures OnTime(TimerResults(SetIntervalAt(p, start, period).timer, polls), start, period)
    ensures TimerResults(SetNever(p).timer, polls) == [] == TimerResults(NEVER, polls)
  {
    TimerFollowsSchedule(NEVER, polls);
    NeverResults(ScheduleOf(NEVER), Times(polls));
    TimerDoesNotDrift(SetIntervalAt(p, start, period).timer, start, polls);
    TimerFollowsSchedule(SetNever(p).timer, polls);
    NeverResults(ScheduleOf(SetNever(p).timer), Times(polls));
  }

  /** The clock reads an instant at every poll. */
  predicate Readings(polls: seq<PollAt>) {
    forall i :: 0 <= i < |polls| ==> INSTANT_MIN <= polls[i].now <= INSTANT_MAX
  }

  lemma {:induction false} ResultsAreReadings(t: TimerState, polls: seq<PollAt>)
    requires Readings(polls)
    ensures forall k :: 0 <= k < |TimerResults(t, polls)| ==> TimerResults(t, polls)[k].1 <= INSTANT_MAX
    decreases |polls|
  {
    if polls != [] {
      assert polls[0].now <= INSTANT_MAX;
      ResultsAreReadings(PollNext(Pair(t, polls[0].store), polls[0].now, polls[0].cx).timer, polls[1..]);
    }
  }

  /** `at` and `after` timers fire at most once: `Duration::MAX` reaches past every instant but the last
      from any start, and the last is never in the past. */
  lemma AtFiresOnce(start: Instant, polls: seq<PollAt>)
    requires INSTANT_MIN <= start && Readings(polls)
    ensures |TimerResults(IntervalAt(start, DURATION_MAX), polls)| <= 1
  {
    var rs := TimerResults(IntervalAt(start, DURATION_MAX), polls);
    TimerDoesNotDrift(IntervalAt(start, DURATION_MAX), start, polls);
    ResultsAreReadings(IntervalAt(start, DURATION_MAX), polls);
    SecondResult(rs, start, DURATION_MAX);
  }

  lemma SecondResult(rs: seq<(Instant, Instant)>, start: Instant, period: nat)
    requires OnTime(rs, start, period)
    ensures |rs| > 1 ==> start + period < rs[1].1
  {
    if |rs| > 1 {
      assert rs[1].0 == Nth(start, period, 1) == Nth(start + period, period, 0);
    }
  }
}
