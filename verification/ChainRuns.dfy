/** What the step invariant means for whole runs of a handler: any interleaving of inserts, polls,
    holds, guard drops, waiter drops, direct listeners and runner polls. */
module ChainRuns {
  import opened Wrappers
  import opened ChainSpec
  import opened ChainProofs

  // ----- safety of every interleaving -----

  lemma {:induction false} RunKeeps(mode: Mode, s: Machine, actions: seq<Action>)
    requires Inv(s) && Legal(mode, s, actions)
    requires mode.Forwarding? || NeverDropsToken(mode, s, actions)
    ensures Inv(After(mode, s, actions))
    decreases |actions|
  {
    if actions != [] {
      StepKeeps(mode, s, actions[0]);
      RunKeeps(mode, Step(mode, s, actions[0]), actions[1..]);
    }
  }

  /** In every reachable state there is at most one token, and there is one exactly when an event is
      published; none of the impossible branches has been taken; every completed run served each of its
      members once, in order of arrival and with its own event, save those dropped before their turn. */
  lemma TokenIffEvent(mode: Mode, actions: seq<Action>)
    requires Legal(mode, INITIAL, actions)
    requires mode.Forwarding? || NeverDropsToken(mode, INITIAL, actions)
    ensures var s := After(mode, INITIAL, actions);
      && (s.instance.Some? <==> exists t :: TokenAt(s.entries, t))
      && (s.instance.None? <==> NoToken(s.entries))
      && s.faults == {}
      && (forall r :: r in s.finished ==> Complete(r))
  {
    assert Resting(INITIAL);
    RunKeeps(mode, INITIAL, actions);
    var s := After(mode, INITIAL, actions);
    if t: nat :| Running(s, t) {
      assert TokenAt(s.entries, t);
    }
  }

  lemma FaultsStay(mode: Mode, s: Machine, a: Action)
    requires Enabled(s, a)
    ensures s.faults <= Step(mode, s, a).faults
  {
  }

  lemma {:induction false} FaultsAccumulate(mode: Mode, s: Machine, actions: seq<Action>)
    requires Legal(mode, s, actions)
    ensures s.faults <= After(mode, s, actions).faults
    decreases |actions|
  {
    if actions != [] {
      FaultsStay(mode, s, actions[0]);
      FaultsAccumulate(mode, Step(mode, s, actions[0]), actions[1..]);
    }
  }

  /** The code as written is faultless on exactly the runs in which no waiter is dropped while it holds
      a notification it has not taken. */
  lemma {:induction false} LiteralSafeIff(s: Machine, actions: seq<Action>)
    requires Inv(s) && Legal(Literal, s, actions)
    ensures After(Literal, s, actions).faults == {} <==> NeverDropsToken(Literal, s, actions)
    decreases |actions|
  {
    if actions == [] {
    } else if DropsToken(s, actions[0]) {
      var s' := Step(Literal, s, actions[0]);
      assert FreedSlot in s'.faults;
      FaultsAccumulate(Literal, s', actions[1..]);
    } else {
      StepKeeps(Literal, s, actions[0]);
      LiteralSafeIff(Step(Literal, s, actions[0]), actions[1..]);
    }
  }

  // ----- the end of the chain -----

  /** From `s` to `s'` the chain ended: one complete run more is on record, with the members it had;
      it served every listener still in the list; the runner's latest waker was woken. */
  ghost predicate Ended(s: Machine, s': Machine) {
    && s.run.Some? && s.instance.Some? && s.phase.Waiting?
    && |s'.finished| == |s.finished| + 1
    && s'.finished[..|s.finished|] == s.finished
    && s'.woken == s.woken + [s.phase.cx]
    && var r := s'.finished[|s.finished|];
    && Complete(r) && r.event == s.instance.value && r.members == s.run.value.members
    && (forall e :: e in s'.entries ==> e.arrival in Served(r))
  }

  lemma FinishEnds(s: Machine, s1: Machine, b: nat)
    requires Between(s1, b) && b == |s1.entries|
    requires s1.finished == s.finished && s1.woken == s.woken && s1.phase == s.phase
    requires s1.instance == s.instance && s.run.Some? && s1.run.value.members == s.run.value.members
    ensures Ended(s, Finish(s1))
  {
    FinishRests(s1, b);
    assert Finish(s1).entries == s1.entries;
  }

  lemma PollEnds(s: Machine, i: nat, cx: Waker)
    requires Running(s, i) && s.entries[i].notified && PollAt(s, i, cx).instance.None?
    ensures Ended(s, PollAt(s, i, cx))
  {
    hide Progress, Ordered;
    PollDelivers(s, i, cx);
    var s1 := Deliver(SetFlags(s, i, false, false), i);
    assert Between(s1, i + 1) by { DeliverBetween(s, i); }
    FinishEnds(s, s1, i + 1);
  }

  lemma ReleaseEnds(s: Machine, i: nat)
    requires Running(s, i) && s.entries[i].held && ReleaseAt(s, i).instance.None?
    ensures Ended(s, ReleaseAt(s, i))
  {
    hide Progress, Ordered;
    ReleaseBetween(s, i);
    FinishEnds(s, SetFlags(s, i, false, false), i + 1);
  }

  lemma ForwardEnds(s: Machine, i: nat)
    requires Running(s, i) && s.entries[i].notified && DropAt(Forwarding, s, i).instance.None?
    ensures Ended(s, DropAt(Forwarding, s, i))
  {
    OrderedWithout(s, i);
    RemoveWaiting(s, i, i);
    FinishEnds(s, RemoveAt(s, i), i);
  }

  /** Any step that clears the event ends the chain in that sense. */
  lemma EndOfChain(mode: Mode, s: Machine, a: Action)
    requires Inv(s) && Enabled(s, a) && s.instance.Some?
    requires mode.Forwarding? || !DropsToken(s, a)
    requires Step(mode, s, a).instance.None?
    ensures Ended(s, Step(mode, s, a))
  {
    hide Progress, Ordered;
    assert !Resting(s);
    var i := Pos(s.entries, a.key);
    HolderRuns(s, i);
    match a
    case Poll(key, cx) => PollEnds(s, i, cx);
    case Release(key) => ReleaseEnds(s, i);
    case Drop(key) => ForwardEnds(s, i);
  }

  // ----- who belongs to a run -----

  /** The event stays published over the whole of a stretch of steps. */
  ghost predicate StaysPublished(mode: Mode, s: Machine, actions: seq<Action>)
    requires Legal(mode, s, actions)
    decreases |actions|
  {
    s.instance.Some? &&
    (actions == [] || StaysPublished(mode, Step(mode, s, actions[0]), actions[1..]))
  }

  /** `after` is `before` and the numbers from `lo` up to `hi`. */
  ghost predicate GrownBy(before: set<nat>, after: set<nat>, lo: nat, hi: nat) {
    lo <= hi && forall a :: a in after <==> a in before || lo <= a < hi
  }

  lemma MembersStep(mode: Mode, s: Machine, a: Action)
    requires Enabled(s, a) && s.instance.Some? && s.run.Some? && s.phase.Waiting?
    requires Step(mode, s, a).instance.Some?
    ensures var s' := Step(mode, s, a);
      && s'.run.Some? && s'.instance == s.instance
      && GrownBy(s.run.value.members, s'.run.value.members, s.arrivals, s'.arrivals)
  {
  }

  /** A run must account for exactly the listeners of its start and those inserted since. */
  lemma {:induction false} MembersAreStartAndInserted(mode: Mode, s: Machine, actions: seq<Action>)
    requires Inv(s) && Legal(mode, s, actions) && StaysPublished(mode, s, actions)
    requires mode.Forwarding? || NeverDropsToken(mode, s, actions)
    ensures var s' := After(mode, s, actions);
      && s.run.Some? && s'.run.Some? && s'.instance == s.instance
      && GrownBy(s.run.value.members, s'.run.value.members, s.arrivals, s'.arrivals)
    decreases |actions|
  {
    if actions != [] {
      var s1 := Step(mode, s, actions[0]);
      StepKeeps(mode, s, actions[0]);
      MembersStep(mode, s, actions[0]);
      MembersAreStartAndInserted(mode, s1, actions[1..]);
    }
  }

  // ----- termination -----

  ghost function Token(s: Machine): (t: nat)
    requires Inv(s) && !Resting(s)
    ensures Running(s, t)
  {
    var t: nat :| Running(s, t);
    t
  }

  /** The number of listeners the event has still to reach. */
  ghost function Left(s: Machine): nat
    requires Inv(s)
  {
    if Resting(s) then 0 else |s.entries| - Boundary(s.entries, Token(s))
  }

  lemma LeftIs(s: Machine, t: nat)
    requires Running(s, t)
    ensures Inv(s) && Left(s) == |s.entries| - Boundary(s.entries, t)
  {
    assert Token(s) == t;
  }

  ghost function Delivers(s: Machine, a: Action): nat
    requires Enabled(s, a)
  {
    if (a.Poll? || a.Hold?) && s.entries[Pos(s.entries, a.key)].notified then 1 else 0
  }

  ghost function DropsPending(s: Machine, a: Action): nat
    requires Enabled(s, a)
  {
    if a.Drop? && s.run.Some? && s.entries[Pos(s.entries, a.key)].arrival !in Served(s.run.value)
    then 1 else 0
  }

  lemma PollLeft(s: Machine, i: nat, cx: Waker)
    requires Running(s, i) && s.entries[i].notified
    ensures Inv(PollAt(s, i, cx)) && Left(PollAt(s, i, cx)) + 1 == Left(s)
  {
    hide Progress, Ordered;
    PollDelivers(s, i, cx);
    var s1 := Deliver(SetFlags(s, i, false, false), i);
    assert Between(s1, i + 1) by { DeliverBetween(s, i); }
    LeftIs(s, i);
    PassLeft(s1, i + 1);
  }

  /** Passing the token to position `b` leaves the listeners from `b` on. */
  lemma PassLeft(s: Machine, b: nat)
    requires Between(s, b)
    ensures Inv(PassTo(s, b)) && Left(PassTo(s, b)) == |s.entries| - b
  {
    hide Ordered;
    if b < |s.entries| {
      NotifyRuns(s, b);
      LeftIs(PassTo(s, b), b);
    } else {
      FinishRests(s, b);
    }
  }

  lemma HoldLeft(s: Machine, i: nat, cx: Waker)
    requires Running(s, i) && s.entries[i].notified
    ensures Inv(HoldAt(s, i, cx)) && Left(HoldAt(s, i, cx)) + 1 == Left(s)
  {
    hide Progress, Ordered;
    HoldDelivers(s, i, cx);
    assert Between(Deliver(SetFlags(s, i, false, false), i), i + 1) by { DeliverBetween(s, i); }
    GuardRuns(Deliver(SetFlags(s, i, false, false), i), i);
    LeftIs(s, i);
    LeftIs(HoldAt(s, i, cx), i);
  }

  /** Taking the notification, by a poll or by a hold, takes one listener off. */
  lemma TakenLeft(s: Machine, i: nat, cx: Waker)
    requires Inv(s) && i < |s.entries| && s.entries[i].notified
    ensures Inv(PollAt(s, i, cx)) && Left(PollAt(s, i, cx)) + 1 == Left(s)
    ensures Inv(HoldAt(s, i, cx)) && Left(HoldAt(s, i, cx)) + 1 == Left(s)
  {
    hide Progress, Ordered;
    assert Running(s, i) by { HolderRuns(s, i); }
    PollLeft(s, i, cx);
    HoldLeft(s, i, cx);
  }

  lemma ReleaseLeft(s: Machine, i: nat)
    requires Inv(s) && i < |s.entries| && s.entries[i].held
    ensures Inv(ReleaseAt(s, i)) && Left(ReleaseAt(s, i)) == Left(s)
  {
    hide Progress, Ordered;
    assert Running(s, i) by { HolderRuns(s, i); }
    var s1 := SetFlags(s, i, false, false);
    assert Between(s1, i + 1) && ReleaseAt(s, i) == PassTo(s1, i + 1) by { ReleaseBetween(s, i); }
    LeftIs(s, i);
    PassLeft(s1, i + 1);
  }

  lemma DropLeft(mode: Mode, s: Machine, i: nat, t: nat)
    requires Running(s, t) && i < |s.entries| && !s.entries[i].held
    requires mode.Forwarding? || !s.entries[i].notified
    ensures Inv(DropAt(mode, s, i))
    ensures Left(DropAt(mode, s, i)) + (if i < Boundary(s.entries, t) then 0 else 1) == Left(s)
  {
    hide Progress, Ordered;
    LeftIs(s, t);
    if s.entries[i].notified {
      OrderedWithout(s, i);
      RemoveWaiting(s, i, i);
      PassLeft(RemoveAt(s, i), i);
    } else {
      RemoveTokenAt(s.entries, i, t);
      if i < t {
        RemoveBehind(s, i, t);
        LeftIs(RemoveAt(s, i), t - 1);
      } else {
        RemoveAhead(s, i, t);
        LeftIs(RemoveAt(s, i), t);
      }
    }
  }

  /** A listener is still to come exactly when the run has not served it. */
  lemma PendingIff(s: Machine, i: nat, t: nat)
    requires Running(s, t) && i < |s.entries|
    ensures i < Boundary(s.entries, t) <==> s.entries[i].arrival in Served(s.run.value)
  {
  }

  lemma PollOrHoldLeft(s: Machine, i: nat, cx: Waker)
    requires Inv(s) && s.instance.Some? && i < |s.entries|
    ensures var n := if s.entries[i].notified then 1 else 0;
      && Inv(PollAt(s, i, cx)) && Left(PollAt(s, i, cx)) + n == Left(s)
      && Inv(HoldAt(s, i, cx)) && Left(HoldAt(s, i, cx)) + n == Left(s)
  {
    hide Progress, Ordered;
    if s.entries[i].notified {
      TakenLeft(s, i, cx);
    } else {
      RegisterKeeps(s, i, cx);
      SameLeft(s, RegisterAt(s, i, cx));
    }
  }

  lemma DroppedLeft(mode: Mode, s: Machine, a: Action)
    requires Inv(s) && Enabled(s, a) && s.instance.Some? && a.Drop?
    requires mode.Forwarding? || !DropsToken(s, a)
    ensures Inv(Step(mode, s, a))
    ensures Left(Step(mode, s, a)) + DropsPending(s, a) == Left(s)
  {
    hide Progress, Ordered;
    var i, t := Pos(s.entries, a.key), Token(s);
    assert Inv(DropAt(mode, s, i)) && Left(DropAt(mode, s, i)) + (if i < Boundary(s.entries, t) then 0 else 1) == Left(s)
    by { DropLeft(mode, s, i, t); }
    PendingIff(s, i, t);
  }

  /** Without inserts every step accounts for what is left: a delivery takes one listener off, so does
      dropping a listener not yet served, and nothing else changes the number. */
  lemma LeftStep(mode: Mode, s: Machine, a: Action)
    requires Inv(s) && Enabled(s, a) && s.instance.Some? && !a.Insert?
    requires mode.Forwarding? || !DropsToken(s, a)
    ensures Inv(Step(mode, s, a))
    ensures Left(Step(mode, s, a)) + Delivers(s, a) + DropsPending(s, a) == Left(s)
  {
    hide Progress, Ordered;
    match a
    case Poll(key, cx) => PollOrHoldLeft(s, Pos(s.entries, key), cx);
    case Hold(key, cx) => PollOrHoldLeft(s, Pos(s.entries, key), cx);
    case Release(key) => ReleaseLeft(s, Pos(s.entries, key));
    case Drop(key) => DroppedLeft(mode, s, a);
    case AddDirect(_) => StepKeeps(mode, s, a); SameLeft(s, Step(mode, s, a));
    case Repoll(_) => StepKeeps(mode, s, a); SameLeft(s, Step(mode, s, a));
  }

  /** Steps that move no flag and remove no listener leave the number alone. */
  lemma SameLeft(s: Machine, s': Machine)
    requires Inv(s) && s.instance.Some? && Inv(s') && |s'.entries| == |s.entries|
    requires forall i :: 0 <= i < |s.entries| ==>
      s'.entries[i].notified == s.entries[i].notified && s'.entries[i].held == s.entries[i].held
    ensures Left(s') == Left(s)
  {
    hide Progress, Ordered;
    var t := Token(s);
    HolderRuns(s', t);
    LeftIs(s, t);
    LeftIs(s', t);
  }

  ghost function Deliveries(mode: Mode, s: Machine, actions: seq<Action>): nat
    requires Legal(mode, s, actions)
    decreases |actions|
  {
    if actions == [] then 0
    else Delivers(s, actions[0]) + Deliveries(mode, Step(mode, s, actions[0]), actions[1..])
  }

  ghost function PendingDrops(mode: Mode, s: Machine, actions: seq<Action>): nat
    requires Legal(mode, s, actions)
    decreases |actions|
  {
    if actions == [] then 0
    else DropsPending(s, actions[0]) + PendingDrops(mode, Step(mode, s, actions[0]), actions[1..])
  }

  /** A stretch of steps that begins with the event published, inserts nobody, and stays within the one
      run: only its last step may clear the event. */
  ghost predicate WithinRun(mode: Mode, s: Machine, actions: seq<Action>)
    requires Legal(mode, s, actions)
    decreases |actions|
  {
    actions == [] ||
    (s.instance.Some? && !actions[0].Insert?
      && WithinRun(mode, Step(mode, s, actions[0]), actions[1..]))
  }

  /** The run ends after exactly the listeners that are left have acted: what is left at the start is
      what is left at the end, what was delivered, and what was dropped before its turn. */
  lemma {:induction false} LeftOverRun(mode: Mode, s: Machine, actions: seq<Action>)
    requires Inv(s) && Legal(mode, s, actions) && WithinRun(mode, s, actions)
    requires mode.Forwarding? || NeverDropsToken(mode, s, actions)
    ensures Inv(After(mode, s, actions))
    ensures Left(After(mode, s, actions)) + Deliveries(mode, s, actions) + PendingDrops(mode, s, actions)
         == Left(s)
    decreases |actions|
  {
    if actions != [] {
      LeftStep(mode, s, actions[0]);
      LeftOverRun(mode, Step(mode, s, actions[0]), actions[1..]);
    }
  }

  /** With nobody left, either the chain is over or one listener still holds the event. */
  lemma NobodyLeft(s: Machine)
    requires Inv(s) && Left(s) == 0
    ensures s.instance.None? || exists t: nat :: TokenAt(s.entries, t) && s.entries[t].held
  {
    if !Resting(s) {
      assert TokenAt(s.entries, Token(s));
    }
  }

  // ----- holding -----

  ghost predicate HeldBy(s: Machine, key: nat) {
    exists t :: 0 <= t < |s.entries| && s.entries[t].key == key && s.entries[t].held
  }

  /** The event has not moved on from `s` to `s'`. */
  ghost predicate SameDeliveries(s: Machine, s': Machine) {
    && s.run.Some? && s'.run.Some? && s'.run.value.served == s.run.value.served
    && s'.instance == s.instance && s'.finished == s.finished
  }

  lemma StepHeld(mode: Mode, s: Machine, a: Action, t: nat)
    requires Running(s, t) && s.entries[t].held && Enabled(s, a) && a != Release(s.entries[t].key)
    ensures HeldBy(Step(mode, s, a), s.entries[t].key) && SameDeliveries(s, Step(mode, s, a))
    ensures !DropsToken(s, a)
  {
    hide Progress;
    var key, s' := s.entries[t].key, Step(mode, s, a);
    assert Pos(s.entries, key) == t;
    if a.Drop? {
      var j := Pos(s.entries, a.key);
      assert s'.entries[if j < t then t - 1 else t] == s.entries[t];
    } else {
      assert s'.entries[t].key == key && s'.entries[t].held;
    }
  }

  /** A guard keeps the event from moving on: as long as it is open, and whatever the others do, nobody
      else receives the event and the run does not end. */
  lemma {:induction false} GuardHoldsEvent(mode: Mode, s: Machine, actions: seq<Action>, key: nat)
    requires Inv(s) && HeldBy(s, key) && Legal(mode, s, actions)
    requires forall i :: 0 <= i < |actions| ==> actions[i] != Release(key)
    ensures var s' := After(mode, s, actions);
      Inv(s') && HeldBy(s', key) && s.run.Some? && SameDeliveries(s, s') && s'.instance.Some?
    decreases |actions|
  {
    var t: nat :| t < |s.entries| && s.entries[t].key == key && s.entries[t].held;
    HolderRuns(s, t);
    if actions != [] {
      StepHeld(mode, s, actions[0], t);
      StepKeeps(mode, s, actions[0]);
      GuardHoldsEvent(mode, Step(mode, s, actions[0]), actions[1..], key);
    }
  }

  // ----- the shortest run: everybody polls once, in order -----

  function Round(es: seq<Entry>, t: nat, cx: Waker): seq<Action>
    decreases |es| - t
  {
    if t >= |es| then [] else [Action.Poll(es[t].key, cx)] + Round(es, t + 1, cx)
  }

  function RoundDeliveries(es: seq<Entry>, t: nat, event: Event): seq<Delivery>
    decreases |es| - t
  {
    if t >= |es| then [] else [Delivery(es[t].arrival, event)] + RoundDeliveries(es, t + 1, event)
  }

  lemma {:induction false} RoundSame(es: seq<Entry>, fs: seq<Entry>, t: nat, cx: Waker, event: Event)
    requires SameArrivals(es, fs) && forall i :: 0 <= i < |es| ==> es[i].key == fs[i].key
    ensures Round(es, t, cx) == Round(fs, t, cx)
    ensures RoundDeliveries(es, t, event) == RoundDeliveries(fs, t, event)
    decreases |es| - t
  {
    if t < |es| {
      RoundSame(es, fs, t + 1, cx, event);
    }
  }

  /** `s1` is `s` with the event delivered at `t` and nothing else of the run changed. */
  ghost predicate Passed(s: Machine, s1: Machine, t: nat)
    requires t < |s.entries| && s.run.Some? && s.instance.Some?
  {
    && s1.run.Some? && s1.phase == s.phase && s1.instance == s.instance && s1.finished == s.finished
    && s1.run.value.served == s.run.value.served + [Delivery(s.entries[t].arrival, s.instance.value)]
    && SameArrivals(s1.entries, s.entries)
    && (forall i :: 0 <= i < |s.entries| ==> s1.entries[i].key == s.entries[i].key)
  }

  lemma PollPasses(s: Machine, t: nat, cx: Waker)
    requires Running(s, t) && s.entries[t].notified && t + 1 < |s.entries|
    ensures Running(PollAt(s, t, cx), t + 1) && PollAt(s, t, cx).entries[t + 1].notified
    ensures Passed(s, PollAt(s, t, cx), t)
  {
    hide Progress, Ordered;
    PollDelivers(s, t, cx);
    var s0 := Deliver(SetFlags(s, t, false, false), t);
    assert Between(s0, t + 1) by { DeliverBetween(s, t); }
    NotifyRuns(s0, t + 1);
  }

  /** From `s` to `s'` one more run was completed; it served the listeners from `t` on after those it had
      served in `s`; the last wake was the runner's. */
  ghost predicate RoundDone(s: Machine, s': Machine, t: nat) {
    && s.run.Some? && s.instance.Some? && s.phase.Waiting?
    && Resting(s') && |s'.woken| > 0 && s'.woken[|s'.woken| - 1] == s.phase.cx
    && |s'.finished| == |s.finished| + 1
    && s'.finished[|s.finished|].served
       == s.run.value.served + RoundDeliveries(s.entries, t, s.instance.value)
  }

  lemma RoundStep(s: Machine, s1: Machine, s': Machine, t: nat, cx: Waker)
    requires t < |s.entries| && s.run.Some? && s.instance.Some? && Passed(s, s1, t)
    requires RoundDone(s1, s', t + 1)
    ensures RoundDone(s, s', t)
    ensures Round(s1.entries, t + 1, cx) == Round(s.entries, t + 1, cx)
  {
    RoundSame(s1.entries, s.entries, t + 1, cx, s.instance.value);
    var d := [Delivery(s.entries[t].arrival, s.instance.value)];
    var rest := RoundDeliveries(s.entries, t + 1, s.instance.value);
    assert (s.run.value.served + d) + rest == s.run.value.served + (d + rest);
  }

  lemma PollFinishes(s: Machine, t: nat, cx: Waker)
    requires Running(s, t) && s.entries[t].notified && t + 1 == |s.entries|
    ensures RoundDone(s, PollAt(s, t, cx), t)
  {
    hide Progress, Ordered;
    PollDelivers(s, t, cx);
    var s0 := Deliver(SetFlags(s, t, false, false), t);
    assert Between(s0, t + 1) by { DeliverBetween(s, t); }
    FinishRests(s0, t + 1);
    assert RoundDeliveries(s.entries, t + 1, s.instance.value) == [];
  }

  lemma PollEnabled(mode: Mode, s: Machine, t: nat, cx: Waker)
    requires Running(s, t) && s.entries[t].notified
    ensures var a := Action.Poll(s.entries[t].key, cx);
      Enabled(s, a) && Step(mode, s, a) == PollAt(s, t, cx)
  {
    assert Pos(s.entries, s.entries[t].key) == t;
  }

  /** From a notified listener at `t`, one poll of each listener from there on, in order, is a legal run
      that ends the chain: it serves exactly those listeners after the ones already served, and its last
      wake is the runner's. */
  lemma {:induction false} RoundServesAll(mode: Mode, s: Machine, t: nat, cx: Waker)
    requires Running(s, t) && s.entries[t].notified
    ensures Legal(mode, s, Round(s.entries, t, cx))
    ensures RoundDone(s, After(mode, s, Round(s.entries, t, cx)), t)
    decreases |s.entries| - t
  {
    hide Progress, Ordered;
    var a := Action.Poll(s.entries[t].key, cx);
    var s1 := PollAt(s, t, cx);
    PollEnabled(mode, s, t, cx);
    if t + 1 < |s.entries| {
      PollPasses(s, t, cx);
      RoundServesAll(mode, s1, t + 1, cx);
      RoundStep(s, s1, After(mode, s1, Round(s1.entries, t + 1, cx)), t, cx);
    } else {
      PollFinishes(s, t, cx);
    }
    Prepend(mode, s, a, Round(s.entries, t + 1, cx));
  }

  lemma Prepend(mode: Mode, s: Machine, a: Action, rest: seq<Action>)
    requires Enabled(s, a) && Legal(mode, Step(mode, s, a), rest)
    ensures Legal(mode, s, [a] + rest)
    ensures After(mode, s, [a] + rest) == After(mode, Step(mode, s, a), rest)
    ensures NeverDropsToken(mode, s, [a] + rest)
      <==> !DropsToken(s, a) && NeverDropsToken(mode, Step(mode, s, a), rest)
  {
    assert ([a] + rest)[1..] == rest;
  }

  // ----- the token lost by a literal drop -----

  /** An event is published and nobody has the token. */
  ghost predicate TokenLost(s: Machine) {
    s.instance.Some? && s.phase.Waiting? && NoToken(s.entries)
  }

  lemma DropLosesToken(s: Machine, i: nat)
    requires Inv(s) && i < |s.entries| && s.entries[i].notified
    ensures TokenLost(DropAt(Literal, s, i)) && FreedSlot in DropAt(Literal, s, i).faults
  {
    HolderRuns(s, i);
  }

  /** A run that comes to this: one listener, one event, and the listener is dropped before it is polled. */
  lemma DroppedToken(event: Event, cx: Waker)
    ensures var actions := [Action.Insert(0)] + ([Begin(event, cx)] + [Drop(0)]);
      && Legal(Literal, INITIAL, actions) && !NeverDropsToken(Literal, INITIAL, actions)
      && After(Literal, INITIAL, actions).faults == {FreedSlot}
      && After(Literal, INITIAL, actions).instance == Some(event)
      && TokenLost(After(Literal, INITIAL, actions))
  {
    var s1 := Step(Literal, INITIAL, Action.Insert(0));
    assert s1.entries == [Entry(0, 0, false, false, None)];
    var s2 := Step(Literal, s1, Begin(event, cx));
    assert s2.entries == [Entry(0, 0, true, false, None)];
    assert HasKey(s2.entries, 0) by { assert s2.entries[0].key == 0; }
    var s3 := Step(Literal, s2, Drop(0));
    assert [Drop(0)] + [] == [Drop(0)];
    Prepend(Literal, s2, Drop(0), []);
    Prepend(Literal, s1, Begin(event, cx), [Drop(0)]);
    Prepend(Literal, INITIAL, Action.Insert(0), [Begin(event, cx)] + [Drop(0)]);
  }

  /** No step polls the runner while the list is empty; that poll would abandon the run. */
  ghost predicate NeverAbandoned(s: Machine, actions: seq<Action>)
    requires Legal(Literal, s, actions)
    decreases |actions|
  {
    actions == [] ||
    (!(actions[0].Repoll? && s.entries == [])
      && NeverAbandoned(Step(Literal, s, actions[0]), actions[1..]))
  }

  /** Once the token is lost the run is stuck: until the list is empty and the runner looks, no
      continuation whatever delivers the event to anyone or ends the run. */
  lemma {:induction false} LostTokenSticks(s: Machine, actions: seq<Action>)
    requires TokenLost(s) && Legal(Literal, s, actions) && NeverAbandoned(s, actions)
    ensures var s' := After(Literal, s, actions);
      && TokenLost(s') && s'.finished == s.finished && Deliveries(Literal, s, actions) == 0
    decreases |actions|
  {
    if actions != [] {
      assert TokenLost(Step(Literal, s, actions[0]));
      LostTokenSticks(Step(Literal, s, actions[0]), actions[1..]);
    }
  }
}
