/** `Filter::handle_event` of `src/filter.rs` as a function of the filter, the event and what the user's
    future and the event's notifier do when they are polled. The future never completes and everything
    runs on one thread. */
module FilterSpec {
  import opened Wrappers
  import opened TimerStore
  import opened Reactors
  import ExitCode

  /** What a polled future may do: anything the reactor lets it, in any order. */
  datatype Act =
    | PushOp(op: LoopOp)
    | AddTimer(deadline: Instant, waker: Waker)
    | CancelTimer(key: Key)
    | Wake(waker: Waker)
    | Exit(code: ExitCode.I32)

  function ActOn(r: Shared, a: Act): Shared {
    match a
    case PushOp(op) => Pushed(r, op)
    case AddTimer(deadline, waker) => TimerInserted(r, deadline, waker)
    case CancelTimer(key) => TimerRemoved(r, key)
    case Wake(waker) => WakeOne(r, waker)
    case Exit(code) => ExitAsked(r, code)
  }

  function Acts(r: Shared, acts: seq<Act>): Shared
    decreases |acts|
  {
    if acts == [] then r else Acts(ActOn(r, acts[0]), acts[1..])
  }

  /** `OtherEvent` is any event but `NewEvents`. */
  datatype Event = NewEvents | OtherEvent

  /** A poll of the driver that leaves it pending, and the clock when the timers are processed after it. */
  datatype Round = Round(acts: seq<Act>, now: Instant)

  /** What the futures do during one event: the first poll of the future that posts it, whether that was
      ready then, the driver's pending polls and its last one, and the k-th poll of the trailing loop. */
  datatype Script = Script(
    now: Instant,
    first: seq<Act>,
    ready: bool,
    drive: seq<Round>,
    last: seq<Act>,
    trail: nat -> seq<Act>)

  /** `post_event` does nothing with `NewEvents`: it is ready at once and calls nobody. */
  function PostActs(e: Event, s: Script): seq<Act> {
    if e.NewEvents? then [] else s.first
  }

  predicate PostReady(e: Event, s: Script) {
    e.NewEvents? || s.ready
  }

  datatype ControlFlow = ExitLoop | PollAgain | WaitUntil(deadline: Instant) | Wait

  /** The state in which the drive loop parked, and the deadline it parked with. */
  datatype Park = Park(ops: seq<LoopOp>, wakers: seq<Firing>, deadline: Option<Instant>)

  /** The filter with its reactor. `wokenTimers` (the timer wakers woken), `parks` and `polls` (the polls
      of the trailing loop) are history; `flow` is the control flow set last. */
  datatype Loop = Loop(
    shared: Shared,
    deadline: Option<Instant>,
    wakers: seq<Firing>,
    yielding: bool,
    flow: ControlFlow,
    wokenTimers: seq<Firing>,
    parks: seq<Park>,
    polls: nat)

  /** `Filter::new` on a reactor that has no filter yet: the flag is up, so that the future gets its first
      poll. */
  function NewFilter(r: Shared): Loop {
    Loop(r.(notifier := Some(Notifier(true, false, 0))), None, [], false, Wait, [], [], 0)
  }

  function Earlier(a: Option<Instant>, b: Option<Instant>): Option<Instant> {
    match (a, b)
    case (None, None) => None
    case (Some(x), None) => Some(x)
    case (None, Some(x)) => Some(x)
    case (Some(x), Some(y)) => Some(if x < y then x else y)
  }

  /** `process_timers` with the wakers appended to the filter's. */
  ghost function Collect(l: Loop, now: Instant): Loop {
    l.(shared := TimersProcessed(l.shared, now),
       wakers := l.wakers + InOrder(Due(l.shared.timers.live, now)))
  }

  ghost function StartEvent(l: Loop, e: Event, now: Instant): Loop {
    if e.OtherEvent? then l
    else
      var l1 := l.(yielding := false, shared := Awaken(l.shared));
      Collect(l1, now).(deadline := NextDeadline(l1.shared.timers.live, now))
  }

  /** One turn of the drive loop: a pending poll, the queue drained, the timers processed, every collected
      waker woken, and the thread parked. */
  ghost function Turn(l: Loop, round: Round): Loop {
    var polled := l.(shared := Drained(Acts(l.shared, round.acts)));
    var due := NextDeadline(polled.shared.timers.live, round.now);
    var c := Collect(polled, round.now);
    var woken := c.(shared := WakeAll(c.shared, c.wakers), wokenTimers := c.wokenTimers + c.wakers, wakers := []);
    woken.(parks := woken.parks + [Park(woken.shared.ops, woken.wakers, Earlier(due, l.deadline))])
  }

  ghost function Turns(l: Loop, rounds: seq<Round>): Loop
    decreases |rounds|
  {
    if rounds == [] then l else Turns(Turn(l, rounds[0]), rounds[1..])
  }

  /** The part of `handle_event` that blocks until the notifier is done. */
  ghost function Drive(l: Loop, rounds: seq<Round>, last: seq<Act>): Loop {
    var l1 := Turns(l.(yielding := false, shared := Drained(l.shared)), rounds);
    l1.(shared := Acts(l1.shared, last))
  }

  /** One turn of the trailing loop: the flag consumed, the future polled, the yield noticed, the queue
      drained. */
  function TrailTurn(l: Loop, acts: seq<Act>): Loop {
    var r := Acts(Swapped(l.shared), acts);
    l.(shared := Drained(r), yielding := l.yielding || Flagged(r), polls := l.polls + 1)
  }

  /** A bound on the polls the trailing loop has still to make. */
  function Potential(l: Loop): nat {
    if l.yielding || !Flagged(l.shared) then 0 else if l.shared.ops == [] then 1 else 2
  }

  ghost function Trail(l: Loop, k: nat, trail: nat -> seq<Act>): Loop
    decreases Potential(l)
  {
    if l.yielding || !Flagged(l.shared) then l
    else
      TrailDecreases(l, trail(k));
      Trail(TrailTurn(l, trail(k)), k + 1, trail)
  }

  function FlowOf(l: Loop): ControlFlow {
    if ExitCode.Unpack(l.shared.exitCode).Some? then ExitLoop
    else if l.yielding then PollAgain
    else if l.deadline.Some? then WaitUntil(l.deadline.value)
    else Wait
  }

  /** `handle_event` up to its trailing loop. */
  ghost function Posted(l: Loop, e: Event, s: Script): Loop {
    var started := StartEvent(l, e, s.now);
    var posted := started.(shared := Acts(started.shared, PostActs(e, s)));
    if PostReady(e, s) then posted else Drive(posted, s.drive, s.last)
  }

  /** `handle_event`. */
  ghost function Handle(l: Loop, e: Event, s: Script): Loop {
    var trailed := Trail(Posted(l, e, s), 0, s.trail);
    trailed.(flow := FlowOf(trailed))
  }

  ghost function HandleAll(l: Loop, es: seq<(Event, Script)>): Loop
    decreases |es|
  {
    if es == [] then l else HandleAll(Handle(l, es[0].0, es[0].1), es[1..])
  }

  // ----- the flag and the queue -----

  /** Acting never lowers the flag; an operation pushed, an exit requested or a timer inserted raises it. */
  lemma {:induction false} ActsFlag(r: Shared, acts: seq<Act>)
    requires r.notifier.Some?
    ensures var r' := Acts(r, acts);
      && r'.notifier.Some? && (Flagged(r) ==> Flagged(r'))
      && (Flagged(r') ||
          (r'.ops == r.ops && r'.exits == r.exits && r'.timers.nextId == r.timers.nextId))
    decreases |acts|
  {
    if acts != [] {
      ActsFlag(ActOn(r, acts[0]), acts[1..]);
    }
  }

  /** Draining empties the queue; it raises the flag exactly when an answer reaches the filter. */
  lemma {:induction false} DrainFlag(r: Shared)
    requires r.notifier.Some?
    ensures var r' := Drained(r);
      && r'.notifier.Some? && r'.ops == []
      && (Flagged(r') <==> Flagged(r) || exists i :: 0 <= i < |r.ops| && AnswerReachesLoop(r.ops[i]))
    decreases |r.ops|
  {
    if r.ops != [] {
      var r1 := Execute(r.(ops := r.ops[1..]), r.ops[0]);
      DrainFlag(r1);
      assert forall i :: 0 < i < |r.ops| ==> r.ops[i] == r1.ops[i - 1];
      if i :| 0 <= i < |r1.ops| && AnswerReachesLoop(r1.ops[i]) {
        assert r.ops[i + 1] == r1.ops[i];
      }
    }
  }

  predicate AnswerReachesLoop(op: LoopOp) {
    op.answer.Some? && ReachesLoop(op.answer.value)
  }

  /** A turn of the trailing loop either ends it or leaves it with an empty queue, which a turn that does
      not end it must have found non-empty. */
  lemma TrailDecreases(l: Loop, acts: seq<Act>)
    requires !l.yielding && Flagged(l.shared)
    ensures Potential(TrailTurn(l, acts)) < Potential(l)
  {
    ActsFlag(Swapped(l.shared), acts);
    DrainFlag(Acts(Swapped(l.shared), acts));
  }
}
