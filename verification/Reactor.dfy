/** The reactor of `src/reactor.rs` with the queues of `src/sync.rs`: timers behind a queue of pending
    operations, the event loop's operation queue, the wake flag and the exit code. */
module Reactors {
  import opened Wrappers
  import opened TimerStore
  import ExitCode

  /** `ReactorWaker`: whether the loop's future has a wake to serve, whether the loop has started, and
      how many wake-ups were sent through the event loop proxy. */
  datatype Notifier = Notifier(notified: bool, awake: bool, sends: nat)

  /** An operation for the event loop thread; answering it wakes the task that waits for the answer. */
  datatype LoopOp = LoopOp(id: nat, answer: Option<Waker>)

  /** The reactor as its clients see it. `exits`, `pushed`, `executed` and `woken` are history: exit
      codes requested, operations pushed and executed, and `wake` calls made, each in order. */
  datatype Shared = Shared(
    timers: Timers,
    notifier: Option<Notifier>,
    ops: seq<LoopOp>,
    exitCode: ExitCode.I64,
    exits: seq<ExitCode.I32>,
    pushed: seq<LoopOp>,
    executed: seq<LoopOp>,
    woken: seq<Waker>)

  const EMPTY := Shared(NO_TIMERS, None, [], 0, [], [], [], [])

  /** `ReactorWaker::notify`. */
  function Notified(n: Notifier): Notifier {
    if n.notified then n
    else n.(notified := true, sends := if n.awake then n.sends else n.sends + 1)
  }

  function Notify(r: Shared): Shared {
    if r.notifier.Some? then r.(notifier := Some(Notified(r.notifier.value))) else r
  }

  /** The loop's future has a wake to serve. */
  predicate Flagged(r: Shared) {
    r.notifier.Some? && r.notifier.value.notified
  }

  /** `notifier.awake.store(true)`. */
  function Awaken(r: Shared): Shared {
    if r.notifier.Some? then r.(notifier := Some(r.notifier.value.(awake := true))) else r
  }

  /** `notifier.notified.swap(false)`. */
  function Swapped(r: Shared): Shared {
    if r.notifier.Some? then r.(notifier := Some(r.notifier.value.(notified := false))) else r
  }

  /** `Waker::wake`: the filter's own wakers, and those that relay to them, notify it. */
  function WakeOne(r: Shared, w: Waker): Shared {
    var r1 := r.(woken := r.woken + [w]);
    if ReachesLoop(w) then Notify(r1) else r1
  }

  function WakeAll(r: Shared, ws: seq<Firing>): Shared
    decreases |ws|
  {
    if ws == [] then r else WakeAll(WakeOne(r, ws[0].waker), ws[1..])
  }

  function Execute(r: Shared, op: LoopOp): Shared {
    var r1 := r.(executed := r.executed + [op]);
    if op.answer.Some? then WakeOne(r1, op.answer.value) else r1
  }

  /** `drain_loop_queue`. */
  function Drained(r: Shared): Shared
    decreases |r.ops|
  {
    if r.ops == [] then r else Drained(Execute(r.(ops := r.ops[1..]), r.ops[0]))
  }

  function Pushed(r: Shared, op: LoopOp): Shared {
    Notify(r.(ops := r.ops + [op], pushed := r.pushed + [op]))
  }

  function TimerInserted(r: Shared, deadline: Instant, w: Waker): Shared {
    Notify(r.(timers := Insert(r.timers, deadline, w)))
  }

  function TimerRemoved(r: Shared, key: Key): Shared {
    r.(timers := Remove(r.timers, key))
  }

  function ExitAsked(r: Shared, code: ExitCode.I32): Shared {
    Notify(r.(exitCode := ExitCode.Pack(code), exits := r.exits + [code]))
  }

  ghost function TimersProcessed(r: Shared, now: Instant): Shared {
    r.(timers := Process(r.timers, now))
  }

  // ----- the deferred timer store -----

  datatype TimerOp = Inserting(key: Key, waker: Waker) | Removing(key: Key)

  function Apply(m: Wheel, op: TimerOp): Wheel {
    match op
    case Inserting(key, waker) => m[key := waker]
    case Removing(key) => m - {key}
  }

  function Applied(m: Wheel, ops: seq<TimerOp>): Wheel
    decreases |ops|
  {
    if ops == [] then m else Applied(Apply(m, ops[0]), ops[1..])
  }

  lemma {:induction false} AppliedLast(m: Wheel, ops: seq<TimerOp>, op: TimerOp)
    ensures Applied(m, ops + [op]) == Apply(Applied(m, ops), op)
    decreases |ops|
  {
    if ops == [] {
      assert Applied(Apply(m, op), []) == Apply(m, op);
    } else {
      assert (ops + [op])[1..] == ops[1..] + [op];
      AppliedLast(Apply(m, ops[0]), ops[1..], op);
    }
  }

  /** The split of `process_timers` at `(now + 1ns, 0)` separates the due timers from the later ones. */
  lemma SplitIsDue(m: Wheel, now: Instant)
    ensures Due(m, now) == map k | k in m && Before(k, Key(now + 1, 0)) :: m[k]
    ensures Later(m, now) == map k | k in m && !Before(k, Key(now + 1, 0)) :: m[k]
  {
  }

  lemma NothingDue(m: Wheel, now: Instant)
    requires Due(m, now) == map[]
    ensures Later(m, now) == m
  {
    forall k | k in m ensures k.deadline > now {
      assert k !in Due(m, now);
    }
  }

  class Reactor {
    /** The capacity of the queue of timer operations: 1024 for `ThreadSafe`; `None` for `ThreadUnsafe`,
        whose queue grows, so that its capacity `usize::MAX` is never less than its length. */
    const bound: Option<nat>

    var queue: seq<TimerOp>
    var wheel: Wheel
    var timerId: nat
    var notifier: Option<Notifier>
    var ops: seq<LoopOp>
    var exitCode: ExitCode.I64
    // The effects on the outside: operations executed and `wake` calls made.
    var executed: seq<LoopOp>
    var woken: seq<Waker>

    ghost var view: Shared

    /** The map after the queued operations, in order, is the set of live timers. */
    ghost predicate StoreValid()
      reads this
    {
      && (bound.Some? ==> bound.value > 0 && |queue| <= bound.value)
      && Applied(wheel, queue) == view.timers.live
    }

    ghost predicate Valid()
      reads this
    {
      && StoreValid() && view.timers.nextId == timerId
      && view.notifier == notifier && view.ops == ops && view.exitCode == exitCode
      && view.executed == executed && view.woken == woken
    }

    /** `Reactor::new`. */
    constructor (bound: Option<nat>)
      requires bound.Some? ==> bound.value > 0
      ensures Valid() && view == EMPTY && this.bound == bound
    {
      this.bound := bound;
      queue, wheel, timerId := [], map[], 1;
      notifier, ops, exitCode := None, [], 0;
      executed, woken := [], [];
      view := EMPTY;
    }

    /** `Reactor::set_proxy`: the first filter's waker is kept. */
    method SetProxy(n: Notifier)
      requires Valid()
      modifies this
      ensures Valid()
      ensures view == if old(notifier).Some? then old(view) else old(view).(notifier := Some(n))
    {
      if notifier.None? {
        notifier := Some(n);
        view := view.(notifier := Some(n));
      }
    }

    /** `Reactor::notify` and `ReactorWaker::notify`. */
    method NotifyLoop()
      requires Valid()
      modifies this`notifier, this`view
      ensures Valid() && view == Notify(old(view))
    {
      if notifier.Some? {
        var n := notifier.value;
        if n.notified {
          return;
        }
        notifier := Some(n.(notified := true));
        if !n.awake {
          notifier := Some(n.(notified := true, sends := n.sends + 1));
        }
      }
      view := Notify(view);
    }

    /** `notified.swap(false)` on the proxy. */
    method SwapNotified() returns (was: bool)
      requires Valid()
      modifies this`notifier, this`view
      ensures Valid() && was == Flagged(old(view)) && view == Swapped(old(view))
    {
      was := IsNotified();
      if notifier.Some? {
        notifier := Some(notifier.value.(notified := false));
      }
      view := view.(notifier := notifier);
    }

    /** `awake.store(true)` on the proxy. */
    method SetAwake()
      requires Valid()
      modifies this`notifier, this`view
      ensures Valid() && view == Awaken(old(view))
    {
      if notifier.Some? {
        notifier := Some(notifier.value.(awake := true));
      }
      view := view.(notifier := notifier);
    }

    /** `notified.load()` on the proxy. */
    predicate IsNotified()
      reads this
    {
      notifier.Some? && notifier.value.notified
    }

    method Wake(w: Waker)
      requires Valid()
      modifies this`notifier, this`woken, this`view
      ensures Valid() && view == WakeOne(old(view), w)
    {
      woken := woken + [w];
      view := view.(woken := view.woken + [w]);
      if ReachesLoop(w) {
        NotifyLoop();
      }
    }

    // ----- timers -----

    /** `ConcurrentQueue::push`: a full queue hands the operation back. */
    method TryPush(op: TimerOp) returns (back: Option<TimerOp>)
      requires StoreValid()
      modifies this`queue
      ensures back == if bound.Some? && |old(queue)| == bound.value then Some(op) else None
      ensures queue == if back.Some? then old(queue) else old(queue) + [op]
    {
      if bound.Some? && |queue| >= bound.value {
        return Some(op);
      }
      queue := queue + [op];
      return None;
    }

    /** `process_timer_ops`: draining moves the queued operations into the map and changes nothing that
        a client could see. */
    method ProcessTimerOps()
      requires StoreValid()
      modifies this`queue, this`wheel
      ensures StoreValid() && queue == [] && wheel == view.timers.live
    {
      var n := 0;
      while queue != [] && (bound.None? || n < bound.value)
        invariant bound.Some? ==> bound.value > 0 && n + |queue| <= bound.value
        invariant Applied(wheel, queue) == view.timers.live
        decreases |queue|
      {
        var op := queue[0];
        queue := queue[1..];
        match op {
          case Inserting(key, waker) => wheel := wheel[key := waker];
          case Removing(key) => wheel := wheel - {key};
        }
        n := n + 1;
      }
    }

    /** The retry loop of `insert_timer` and `remove_timer`: a full queue is drained and the push tried
        again; either way the operation takes effect behind the ones already queued. */
    method Enqueue(op: TimerOp)
      requires StoreValid()
      modifies this`queue, this`wheel
      ensures bound.Some? ==> |queue| <= bound.value
      ensures Applied(wheel, queue) == Apply(view.timers.live, op)
    {
      AppliedLast(wheel, queue, op);
      var back := TryPush(op);
      while back.Some?
        invariant if back.Some? then StoreValid()
          else (bound.Some? ==> |queue| <= bound.value) && Applied(wheel, queue) == Apply(view.timers.live, op)
        decreases if back.Some? then 1 else 0
      {
        ProcessTimerOps();
        AppliedLast(wheel, queue, op);
        back := TryPush(op);
      }
    }

    /** `insert_timer`. */
    method InsertTimer(deadline: Instant, waker: Waker) returns (id: nat)
      requires Valid()
      modifies this`queue, this`wheel, this`timerId, this`notifier, this`view
      ensures Valid() && view == TimerInserted(old(view), deadline, waker)
      ensures id == old(view).timers.nextId
    {
      id := timerId;
      timerId := timerId + 1;
      Enqueue(Inserting(Key(deadline, id), waker));
      view := view.(timers := Insert(view.timers, deadline, waker));
      NotifyLoop();
    }

    /** `remove_timer`. */
    method RemoveTimer(deadline: Instant, id: nat)
      requires Valid()
      modifies this`queue, this`wheel, this`view
      ensures Valid() && view == TimerRemoved(old(view), Key(deadline, id))
    {
      Enqueue(Removing(Key(deadline, id)));
      view := TimerRemoved(view, Key(deadline, id));
    }

    /** `process_timers` at time `now`. */
    method ProcessTimers(now: Instant) returns (fired: seq<Firing>, deadline: Option<Instant>)
      requires Valid()
      modifies this`queue, this`wheel, this`view
      ensures Valid() && view == TimersProcessed(old(view), now)
      ensures fired == InOrder(Due(old(view).timers.live, now))
      ensures deadline == NextDeadline(old(view).timers.live, now)
    {
      ProcessTimerOps();
      SplitIsDue(wheel, now);
      var pending := map k | k in wheel && !Before(k, Key(now + 1, 0)) :: wheel[k];
      var ready := map k | k in wheel && Before(k, Key(now + 1, 0)) :: wheel[k];
      wheel := pending;
      if ready == map[] {
        NothingDue(old(view).timers.live, now);
        deadline := FirstDeadline();
      } else {
        deadline := Some(now);
      }
      fired := IntoValues(ready);
      view := TimersProcessed(view, now);
    }

    /** `timers.keys().next()`, the deadline of the first key. */
    method FirstDeadline() returns (deadline: Option<Instant>)
      ensures deadline == if wheel == map[] then None else Some(Least(wheel).deadline)
    {
      if wheel == map[] {
        return None;
      }
      LeastExists(wheel);
      var k :| k in wheel && forall j :: j in wheel && j != k ==> Before(k, j);
      LeastUnique(wheel, k, Least(wheel));
      return Some(k.deadline);
    }

    // ----- event loop operations and exit -----

    /** `push_event_loop_op`. */
    method PushEventLoopOp(op: LoopOp)
      requires Valid()
      modifies this`ops, this`notifier, this`view
      ensures Valid() && view == Pushed(old(view), op)
    {
      ops := ops + [op];
      view := view.(ops := view.ops + [op], pushed := view.pushed + [op]);
      NotifyLoop();
    }

    /** `EventLoopOp::run`: the operation is carried out and answered. */
    method RunOp(op: LoopOp)
      requires Valid()
      modifies this`executed, this`notifier, this`woken, this`view
      ensures Valid() && view == Execute(old(view), op)
    {
      executed := executed + [op];
      view := view.(executed := view.executed + [op]);
      if op.answer.Some? {
        Wake(op.answer.value);
      }
    }

    /** `drain_loop_queue`. */
    method DrainLoopQueue()
      requires Valid()
      modifies this`ops, this`executed, this`notifier, this`woken, this`view
      ensures Valid() && view == Drained(old(view))
    {
      while ops != []
        invariant Valid() && Drained(view) == Drained(old(view))
        decreases |ops|
      {
        var op := ops[0];
        ops := ops[1..];
        view := view.(ops := view.ops[1..]);
        RunOp(op);
      }
    }

    /** `request_exit`. */
    method RequestExit(code: ExitCode.I32)
      requires Valid()
      modifies this`exitCode, this`notifier, this`view
      ensures Valid() && view == ExitAsked(old(view), code)
    {
      exitCode := ExitCode.SetNeedsExit(ExitCode.ShiftLeft(code));
      view := view.(exitCode := exitCode, exits := view.exits + [code]);
      NotifyLoop();
    }

    /** `exit_requested`. */
    method ExitRequested() returns (code: Option<ExitCode.I32>)
      requires Valid()
      ensures code == ExitCode.Unpack(view.exitCode)
    {
      if ExitCode.NeedsExit(exitCode) {
        return Some(ExitCode.Wrap32(ExitCode.ShiftRight(exitCode)));
      }
      return None;
    }

    // ----- any sequence of timer commands -----

    method PerformOne(c: Command) returns (seen: Seen)
      requires Valid()
      modifies this
      ensures Valid() && view.timers == Do(old(view).timers, c)
      ensures seen == Sees(old(view).timers, c)
    {
      match c {
        case InsertTimer(deadline, waker) =>
          var id := InsertTimer(deadline, waker);
          return Id(id);
        case RemoveTimer(key) =>
          RemoveTimer(key.deadline, key.id);
          return Nothing;
        case ProcessAt(now) =>
          var fired, deadline := ProcessTimers(now);
          return Fired(fired, deadline);
      }
    }

    /** What a client sees of any sequence of inserts, removes and `process_timers` calls, and the set of
        live timers at the end, are those of the immediate store: they do not depend on the queue, on
        when it is drained, nor on whether and how it is bounded. */
    method Perform(commands: seq<Command>) returns (seen: seq<Seen>)
      requires Valid()
      modifies this
      ensures Valid() && view.timers == DoAll(old(view).timers, commands)
      ensures seen == SeesAll(old(view).timers, commands)
    {
      seen := [];
      ghost var t := view.timers;
      for i := 0 to |commands|
        invariant Valid()
        invariant DoAll(view.timers, commands[i..]) == DoAll(t, commands)
        invariant seen + SeesAll(view.timers, commands[i..]) == SeesAll(t, commands)
      {
        assert commands[i..][0] == commands[i] && commands[i..][1..] == commands[i + 1..];
        var one := PerformOne(commands[i]);
        seen := seen + [one];
      }
      assert commands[|commands|..] == [];
    }
  }

  /** `into_values`: the map is consumed in key order. */
  method IntoValues(m: Wheel) returns (values: seq<Firing>)
    ensures values == InOrder(m)
  {
    var rest := m;
    values := [];
    while rest != map[]
      invariant values + InOrder(rest) == InOrder(m)
      decreases |rest|
    {
      LeastExists(rest);
      var k :| k in rest && forall j :: j in rest && j != k ==> Before(k, j);
      LeastUnique(rest, k, Least(rest));
      values := values + [Firing(k, rest[k])];
      rest := rest - {k};
    }
  }

  lemma LeastUnique(m: Wheel, k: Key, j: Key)
    requires IsLeast(k, m) && IsLeast(j, m)
    ensures k == j
  {
  }
}
