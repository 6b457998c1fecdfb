/** The event handler of `src/handler.rs` as a transition system.

    A step is one poll or one drop, which hold the handler's lock throughout. The state keeps the
    listeners in list order; the slab and its links are in `Handler.dfy`, whose methods are proved to
    perform exactly these steps. Slab keys are reused, so every listener also carries the number of
    its arrival, which is not. `run`, `finished`, `woken`, `called` and `faults` are history: no step
    reads them to decide what to do. */
module ChainSpec {
  import opened Wrappers

  /** The payload; nothing in the handler looks inside it. */
  type Event(==, !new)

  /** A direct listener (a boxed closure), known by its identity alone. */
  type Direct(==, !new)

  datatype Entry = Entry(key: nat, arrival: nat, notified: bool, held: bool, waker: Option<Waker>)

  /** A direct listener was called with an event. */
  datatype Call = Call(direct: Direct, event: Event)

  datatype Delivery = Delivery(arrival: nat, event: Event)

  /** The history of one run: the arrivals it must account for, the deliveries made so far in order,
      and the members that were dropped before they were served. */
  datatype Run = Run(event: Event, members: set<nat>, served: seq<Delivery>, gone: set<nat>)

  /** Where the suspended `run_with` future stands: not running, awaiting the direct listener
      `taken[done]`, or waiting for the chain, having last been polled with `cx` when `since` wakes had
      been issued. */
  datatype Phase =
    | Idle
    | Directs(event: Event, taken: seq<Direct>, done: nat)
    | Waiting(cx: Waker, since: nat)

  /** Branches the protocol is meant never to take: a notified listener finding no event, a listener
      notified twice, and an access to a slab slot that has just been freed (which panics). */
  datatype Fault = LostEvent | DoubleNotify | FreedSlot

  datatype Machine = Machine(
    entries: seq<Entry>,
    directs: seq<Direct>,
    instance: Option<Event>,
    runner: Option<Waker>,
    phase: Phase,
    arrivals: nat,
    woken: seq<Waker>,
    called: seq<Call>,
    run: Option<Run>,
    finished: seq<Run>,
    faults: set<Fault>)

  datatype Action =
    | Insert(key: nat)
    | Poll(key: nat, cx: Waker)
    | Hold(key: nat, cx: Waker)
    | Release(key: nat)
    | Drop(key: nat)
    | AddDirect(direct: Direct)
    | Begin(event: Event, cx: Waker)
    | DirectReturned(consumed: bool, cx: Waker)
    | Repoll(cx: Waker)

  /** `Literal` is the code. `Forwarding` differs in one step only: dropping a notified listener hands
      the token to the listener after it, which is what the comment at `Waiter::drop` intends. */
  datatype Mode = Literal | Forwarding

  const INITIAL := Machine([], [], None, None, Idle, 0, [], [], None, [], {})

  // ----- looking up listeners -----

  ghost predicate HasKey(es: seq<Entry>, key: nat) {
    exists i :: 0 <= i < |es| && es[i].key == key
  }

  ghost function Pos(es: seq<Entry>, key: nat): (i: nat)
    requires HasKey(es, key)
    ensures i < |es| && es[i].key == key
  {
    var i :| 0 <= i < |es| && es[i].key == key;
    i
  }

  ghost function Arrivals(es: seq<Entry>, from: nat): set<nat> {
    set j | from <= j < |es| :: es[j].arrival
  }

  ghost function Served(r: Run): set<nat> {
    set d | d in r.served :: d.arrival
  }

  // ----- the pieces of a step -----

  function Wake(s: Machine, w: Option<Waker>): Machine {
    if w.Some? then s.(woken := s.woken + [w.value]) else s
  }

  /** `State::notify`, with its waker woken. */
  function NotifyAt(s: Machine, i: nat): Machine
    requires i < |s.entries|
  {
    var e := s.entries[i];
    if e.notified then
      s.(faults := s.faults + {DoubleNotify})
    else
      Wake(s.(entries := s.entries[i := e.(notified := true, waker := None)]), e.waker)
  }

  /** The end of the chain: the event is cleared and the runner's waker taken and woken. */
  function Finish(s: Machine): Machine {
    Wake(s.(instance := None,
            runner := None,
            run := None,
            finished := if s.run.Some? then s.finished + [s.run.value] else s.finished),
         s.runner)
  }

  /** Gives the token to position `i`, or ends the chain when there is none. */
  function PassTo(s: Machine, i: nat): Machine {
    if i < |s.entries| then NotifyAt(s, i) else Finish(s)
  }

  function Deliver(s: Machine, i: nat): Machine
    requires i < |s.entries| && s.instance.Some?
  {
    if s.run.Some? then
      var d := Delivery(s.entries[i].arrival, s.instance.value);
      s.(run := Some(s.run.value.(served := s.run.value.served + [d])))
    else s
  }

  function SetFlags(s: Machine, i: nat, notified: bool, held: bool): Machine
    requires i < |s.entries|
  {
    s.(entries := s.entries[i := s.entries[i].(notified := notified, held := held)])
  }

  function RegisterAt(s: Machine, i: nat, cx: Waker): Machine
    requires i < |s.entries|
  {
    s.(entries := s.entries[i := s.entries[i].(waker := Some(cx))])
  }

  /** `Waiter::poll_next`. */
  function PollAt(s: Machine, i: nat, cx: Waker): Machine
    requires i < |s.entries|
  {
    if !s.entries[i].notified then RegisterAt(s, i, cx)
    else
      var s1 := SetFlags(s, i, false, s.entries[i].held);
      if s.instance.None? then s1.(faults := s1.faults + {LostEvent})
      else PassTo(Deliver(s1, i), i + 1)
  }

  /** One poll of `Waiter::hold`; a delivery leaves the guard open. */
  function HoldAt(s: Machine, i: nat, cx: Waker): Machine
    requires i < |s.entries|
  {
    if !s.entries[i].notified then RegisterAt(s, i, cx)
    else if s.instance.None? then
      var s1 := SetFlags(s, i, false, s.entries[i].held);
      s1.(faults := s1.faults + {LostEvent})
    else Deliver(SetFlags(s, i, false, true), i)
  }

  /** `HoldGuard::drop`. */
  function ReleaseAt(s: Machine, i: nat): Machine
    requires i < |s.entries|
  {
    PassTo(SetFlags(s, i, s.entries[i].notified, false), i + 1)
  }

  ghost function RemoveAt(s: Machine, i: nat): Machine
    requires i < |s.entries|
  {
    var a := s.entries[i].arrival;
    var r := if s.run.None? || a in Served(s.run.value) then s.run
             else Some(s.run.value.(gone := s.run.value.gone + {a}));
    s.(entries := Without(s.entries, i), run := r)
  }

  /** `Waiter::drop`. In `Literal` mode `notify_next` indexes the slot that was just freed. */
  ghost function DropAt(mode: Mode, s: Machine, i: nat): Machine
    requires i < |s.entries|
  {
    var s1 := RemoveAt(s, i);
    if !s.entries[i].notified then s1
    else if mode.Literal? then s1.(faults := s1.faults + {FreedSlot})
    else PassTo(s1, i)
  }

  function InsertKey(s: Machine, key: nat): Machine {
    s.(entries := s.entries + [Entry(key, s.arrivals, false, false, None)],
       arrivals := s.arrivals + 1,
       run := if s.run.Some? then Some(s.run.value.(members := s.run.value.members + {s.arrivals}))
              else None)
  }

  /** The part of `run_with` after the direct listeners, up to its first suspension. */
  ghost function Publish(s: Machine, event: Event, cx: Waker): Machine {
    if s.entries == [] then s.(phase := Idle)
    else
      var r := Run(event, Arrivals(s.entries, 0), [], {});
      var s1 := NotifyAt(s.(instance := Some(event), run := Some(r)), 0);
      s1.(runner := Some(cx), phase := Waiting(cx, |s1.woken|))
  }

  /** `run_with` from its start: with direct listeners they are taken out and the first is called. */
  ghost function BeginRun(s: Machine, event: Event, cx: Waker): Machine {
    if s.directs == [] then Publish(s, event, cx)
    else s.(directs := [], phase := Directs(event, s.directs, 0), called := s.called + [Call(s.directs[0], event)])
  }

  /** The future of direct listener `taken[done]` has completed. */
  ghost function DirectDone(s: Machine, consumed: bool, cx: Waker): Machine
    requires s.phase.Directs?
  {
    var back := s.(directs := s.directs + s.phase.taken);
    if consumed then back.(phase := Idle)
    else if s.phase.done + 1 < |s.phase.taken| then
      var done := s.phase.done + 1;
      s.(phase := s.phase.(done := done), called := s.called + [Call(s.phase.taken[done], s.phase.event)])
    else Publish(back, s.phase.event, cx)
  }

  /** A later poll of the suspended `run_with`. */
  function RepollRunner(s: Machine, cx: Waker): Machine {
    if s.entries == [] || s.instance.None? then s.(phase := Idle)
    else s.(runner := Some(cx), phase := Waiting(cx, |s.woken|))
  }

  // ----- steps and runs -----

  /** What the borrow rules guarantee of a caller: a waiter is used while it exists and not while its
      guard borrows it, and a handler has one `run_with` at a time. */
  ghost predicate Enabled(s: Machine, a: Action) {
    match a
    case Insert(key) => !HasKey(s.entries, key)
    case Poll(key, _) => HasKey(s.entries, key) && !s.entries[Pos(s.entries, key)].held
    case Hold(key, _) => HasKey(s.entries, key) && !s.entries[Pos(s.entries, key)].held
    case Release(key) => HasKey(s.entries, key) && s.entries[Pos(s.entries, key)].held
    case Drop(key) => HasKey(s.entries, key) && !s.entries[Pos(s.entries, key)].held
    case AddDirect(_) => true
    case Begin(_, _) => s.phase.Idle?
    case DirectReturned(_, _) => s.phase.Directs?
    case Repoll(_) => s.phase.Waiting?
  }

  ghost function Step(mode: Mode, s: Machine, a: Action): Machine
    requires Enabled(s, a)
  {
    match a
    case Insert(key) => InsertKey(s, key)
    case Poll(key, cx) => PollAt(s, Pos(s.entries, key), cx)
    case Hold(key, cx) => HoldAt(s, Pos(s.entries, key), cx)
    case Release(key) => ReleaseAt(s, Pos(s.entries, key))
    case Drop(key) => DropAt(mode, s, Pos(s.entries, key))
    case AddDirect(d) => s.(directs := s.directs + [d])
    case Begin(event, cx) => BeginRun(s, event, cx)
    case DirectReturned(consumed, cx) => DirectDone(s, consumed, cx)
    case Repoll(cx) => RepollRunner(s, cx)
  }

  ghost predicate Legal(mode: Mode, s: Machine, actions: seq<Action>)
    decreases |actions|
  {
    actions == [] ||
    (Enabled(s, actions[0]) && Legal(mode, Step(mode, s, actions[0]), actions[1..]))
  }

  ghost function After(mode: Mode, s: Machine, actions: seq<Action>): Machine
    requires Legal(mode, s, actions)
    decreases |actions|
  {
    if actions == [] then s else After(mode, Step(mode, s, actions[0]), actions[1..])
  }

  /** The action drops a listener that holds an untaken notification. */
  ghost predicate DropsToken(s: Machine, a: Action)
    requires Enabled(s, a)
  {
    a.Drop? && s.entries[Pos(s.entries, a.key)].notified
  }

  ghost predicate NeverDropsToken(mode: Mode, s: Machine, actions: seq<Action>)
    requires Legal(mode, s, actions)
    decreases |actions|
  {
    actions == [] ||
    (!DropsToken(s, actions[0]) && NeverDropsToken(mode, Step(mode, s, actions[0]), actions[1..]))
  }

  // ----- the protocol invariant -----

  ghost predicate Ordered(s: Machine) {
    && (forall i, j :: 0 <= i < j < |s.entries| ==>
          s.entries[i].key != s.entries[j].key && s.entries[i].arrival < s.entries[j].arrival)
    && (forall i :: 0 <= i < |s.entries| ==> s.entries[i].arrival < s.arrivals)
  }

  ghost predicate NoToken(es: seq<Entry>) {
    forall i :: 0 <= i < |es| ==> !es[i].notified && !es[i].held
  }

  /** Position `t`, and no other, is notified or held, and not both. */
  ghost predicate TokenAt(es: seq<Entry>, t: nat) {
    && t < |es|
    && es[t].notified != es[t].held
    && (forall i :: 0 <= i < |es| && i != t ==> !es[i].notified && !es[i].held)
  }

  /** Served once each, in order of arrival, all with the run's own event. */
  ghost predicate InOrder(r: Run) {
    && (forall i, j :: 0 <= i < j < |r.served| ==> r.served[i].arrival < r.served[j].arrival)
    && (forall i :: 0 <= i < |r.served| ==> r.served[i].event == r.event)
  }

  /** A completed run: every member was served, or had been dropped before it could be. */
  ghost predicate Complete(r: Run) {
    && InOrder(r)
    && r.members == Served(r) + r.gone
    && Served(r) !! r.gone
  }

  /** A run in progress: the listeners before position `b` have been served, those from `b` on are
      still to come and arrived after all served ones, and with the dropped ones they make up the
      members. */
  ghost predicate Progress(r: Run, es: seq<Entry>, b: nat, arrivals: nat) {
    && b <= |es|
    && InOrder(r)
    && (forall j :: 0 <= j < b ==> es[j].arrival in Served(r))
    && (forall k, j :: 0 <= k < |r.served| && b <= j < |es| ==> r.served[k].arrival < es[j].arrival)
    && r.members == Served(r) + r.gone + Arrivals(es, b)
    && Served(r) !! r.gone
    && (forall j :: 0 <= j < |es| ==> es[j].arrival !in r.gone)
    && (forall a :: a in r.members ==> a < arrivals)
  }

  /** The first position the event has not reached, when the token is at `t`. */
  function Boundary(es: seq<Entry>, t: nat): nat
    requires t < |es|
  {
    if es[t].notified then t else t + 1
  }

  /** The runner is suspended and its latest waker is the stored one. */
  ghost predicate RunnerStored(s: Machine) {
    s.phase.Waiting? && s.runner == Some(s.phase.cx) && s.phase.since <= |s.woken|
  }

  ghost predicate Settled(s: Machine) {
    && Ordered(s)
    && s.faults == {}
    && (forall r :: r in s.finished ==> Complete(r))
    && (s.phase.Directs? ==> s.phase.done < |s.phase.taken|)
  }

  /** The chain is running with the token at position `t`. */
  ghost predicate Running(s: Machine, t: nat) {
    && Settled(s)
    && s.instance.Some? && s.run.Some? && s.run.value.event == s.instance.value
    && RunnerStored(s)
    && TokenAt(s.entries, t)
    && Progress(s.run.value, s.entries, Boundary(s.entries, t), s.arrivals)
  }

  /** No chain is running: nobody has the token, no waker is stored, and a runner that still waits has
      been woken since it was last polled. */
  ghost predicate Resting(s: Machine) {
    && Settled(s)
    && s.instance.None? && s.run.None? && s.runner.None?
    && NoToken(s.entries)
    && (s.phase.Waiting? ==> s.phase.since <= |s.woken| && s.phase.cx in s.woken[s.phase.since..])
  }

  ghost predicate Inv(s: Machine) {
    Resting(s) || exists t :: Running(s, t)
  }
}
