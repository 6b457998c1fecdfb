/** Every step of the handler keeps the protocol invariant. */
module ChainProofs {
  import opened Wrappers
  import opened ChainSpec

  // ----- positions and arrivals -----

  /** Two entry sequences whose listeners arrived alike. */
  ghost predicate SameArrivals(es: seq<Entry>, fs: seq<Entry>) {
    |es| == |fs| && forall i :: 0 <= i < |es| ==> es[i].arrival == fs[i].arrival
  }

  lemma ArrivalsIn(es: seq<Entry>, b: nat, i: nat)
    requires b <= i < |es|
    ensures es[i].arrival in Arrivals(es, b)
  {
  }

  lemma SameArrivalsSet(es: seq<Entry>, fs: seq<Entry>, b: nat)
    requires SameArrivals(es, fs)
    ensures Arrivals(es, b) == Arrivals(fs, b)
  {
    forall a ensures a in Arrivals(es, b) <==> a in Arrivals(fs, b) {
      if a in Arrivals(es, b) {
        var j :| b <= j < |es| && es[j].arrival == a;
        ArrivalsIn(fs, b, j);
      }
      if a in Arrivals(fs, b) {
        var j :| b <= j < |fs| && fs[j].arrival == a;
        ArrivalsIn(es, b, j);
      }
    }
  }

  lemma ProgressSame(r: Run, es: seq<Entry>, fs: seq<Entry>, b: nat, n: nat)
    requires SameArrivals(es, fs) && Progress(r, es, b, n)
    ensures Progress(r, fs, b, n)
  {
    SameArrivalsSet(es, fs, b);
  }

  lemma OrderedSame(s: Machine, s': Machine)
    requires Ordered(s) && s'.arrivals == s.arrivals && SameArrivals(s.entries, s'.entries)
    requires forall i :: 0 <= i < |s.entries| ==> s'.entries[i].key == s.entries[i].key
    ensures Ordered(s')
  {
  }

  /** A listener that is notified or held is the one with the token. */
  lemma HolderRuns(s: Machine, i: nat)
    requires Inv(s) && i < |s.entries| && (s.entries[i].notified || s.entries[i].held)
    ensures Running(s, i)
  {
    var t: nat :| Running(s, t);
    assert t == i;
  }

  // ----- handing the token on -----

  /** The state in the middle of a step, after the token has been taken from its holder and before it
      is passed to position `b`. */
  ghost predicate Between(s: Machine, b: nat) {
    && Settled(s)
    && s.instance.Some? && s.run.Some? && s.run.value.event == s.instance.value
    && RunnerStored(s)
    && NoToken(s.entries)
    && Progress(s.run.value, s.entries, b, s.arrivals)
  }

  lemma NotifyRuns(s: Machine, b: nat)
    requires Between(s, b) && b < |s.entries|
    ensures Running(NotifyAt(s, b), b)
  {
    hide Progress, Ordered;
    var s' := NotifyAt(s, b);
    OrderedSame(s, s');
    ProgressSame(s.run.value, s.entries, s'.entries, b, s.arrivals);
  }

  lemma FinishRests(s: Machine, b: nat)
    requires Between(s, b) && b == |s.entries|
    ensures Resting(Finish(s))
    ensures Finish(s).finished == s.finished + [s.run.value]
    ensures Complete(s.run.value)
    ensures Finish(s).woken == s.woken + [s.phase.cx]
  {
    assert Arrivals(s.entries, b) == {};
    var s' := Finish(s);
    assert s.phase.since <= |s.woken| ==> s'.woken[s.phase.since..] == s.woken[s.phase.since..] + [s.phase.cx];
  }

  lemma PassKeeps(s: Machine, b: nat)
    requires Between(s, b)
    ensures Inv(PassTo(s, b))
  {
    if b < |s.entries| {
      NotifyRuns(s, b);
    } else {
      FinishRests(s, b);
    }
  }

  // ----- one lemma for each kind of step -----

  lemma RegisterKeeps(s: Machine, i: nat, cx: Waker)
    requires Inv(s) && i < |s.entries|
    ensures Inv(RegisterAt(s, i, cx))
  {
    hide Progress, Ordered;
    var s' := RegisterAt(s, i, cx);
    OrderedSame(s, s');
    if t: nat :| Running(s, t) {
      ProgressSame(s.run.value, s.entries, s'.entries, Boundary(s.entries, t), s.arrivals);
      assert Running(s', t);
    }
  }

  /** One delivery moves the boundary of a run by one. */
  lemma DeliverProgress(r: Run, es: seq<Entry>, t: nat, n: nat)
    requires Progress(r, es, t, n) && t < |es|
    requires forall i, j :: 0 <= i < j < |es| ==> es[i].arrival < es[j].arrival
    ensures Progress(r.(served := r.served + [Delivery(es[t].arrival, r.event)]), es, t + 1, n)
  {
    ServedGrows(r, r.(served := r.served + [Delivery(es[t].arrival, r.event)]),
                Delivery(es[t].arrival, r.event));
    ArrivalsSplit(es, t);
  }

  /** Taking the notification and recording the delivery moves the boundary past the receiver. */
  lemma DeliverBetween(s: Machine, t: nat)
    requires Running(s, t) && s.entries[t].notified
    ensures Between(Deliver(SetFlags(s, t, false, false), t), t + 1)
  {
    hide Progress;
    var s1 := SetFlags(s, t, false, false);
    ProgressSame(s.run.value, s.entries, s1.entries, t, s.arrivals);
    DeliverProgress(s.run.value, s1.entries, t, s.arrivals);
  }

  lemma ServedGrows(r: Run, r': Run, d: Delivery)
    requires r'.served == r.served + [d]
    ensures Served(r') == Served(r) + {d.arrival}
  {
    forall a ensures a in Served(r') <==> a in Served(r) + {d.arrival} {
      if a in Served(r') {
        var e :| e in r'.served && e.arrival == a;
        assert e in r.served || e == d;
      }
      if a in Served(r) {
        var e :| e in r.served && e.arrival == a;
        assert e in r'.served;
      }
      assert d in r'.served;
    }
  }

  lemma ArrivalsSplit(es: seq<Entry>, b: nat)
    requires b < |es|
    ensures Arrivals(es, b) == {es[b].arrival} + Arrivals(es, b + 1)
  {
    forall a ensures a in Arrivals(es, b) <==> a in {es[b].arrival} + Arrivals(es, b + 1) {
      if a in Arrivals(es, b) {
        var j :| b <= j < |es| && es[j].arrival == a;
      }
      ArrivalsIn(es, b, b);
      if a in Arrivals(es, b + 1) {
        var j :| b + 1 <= j < |es| && es[j].arrival == a;
        ArrivalsIn(es, b, j);
      }
    }
  }

  /** A poll that finds the notification takes it, delivers the event and passes the token on. */
  lemma PollDelivers(s: Machine, i: nat, cx: Waker)
    requires i < |s.entries| && s.entries[i].notified && !s.entries[i].held && s.instance.Some?
    ensures PollAt(s, i, cx) == PassTo(Deliver(SetFlags(s, i, false, false), i), i + 1)
  {
  }

  lemma PollKeeps(s: Machine, i: nat, cx: Waker)
    requires Inv(s) && i < |s.entries| && !s.entries[i].held
    ensures Inv(PollAt(s, i, cx))
  {
    hide Progress, Ordered;
    if s.entries[i].notified {
      assert Running(s, i) by { HolderRuns(s, i); }
      PollDelivers(s, i, cx);
      DeliverBetween(s, i);
      PassKeeps(Deliver(SetFlags(s, i, false, false), i), i + 1);
    } else {
      RegisterKeeps(s, i, cx);
    }
  }

  /** A delivery with an open guard keeps the token where it is, with the boundary past it. */
  lemma GuardRuns(s: Machine, i: nat)
    requires Between(s, i + 1) && i < |s.entries|
    ensures Running(SetFlags(s, i, false, true), i)
  {
    hide Progress, Ordered;
    OrderedSame(s, SetFlags(s, i, false, true));
    ProgressSame(s.run.value, s.entries, SetFlags(s, i, false, true).entries, i + 1, s.arrivals);
  }

  lemma HoldDelivers(s: Machine, i: nat, cx: Waker)
    requires i < |s.entries| && s.entries[i].notified && s.instance.Some?
    ensures HoldAt(s, i, cx) == SetFlags(Deliver(SetFlags(s, i, false, false), i), i, false, true)
  {
  }

  lemma HoldKeeps(s: Machine, i: nat, cx: Waker)
    requires Inv(s) && i < |s.entries| && !s.entries[i].held
    ensures Inv(HoldAt(s, i, cx))
  {
    hide Progress, Ordered;
    if s.entries[i].notified {
      assert Running(s, i) by { HolderRuns(s, i); }
      HoldDelivers(s, i, cx);
      DeliverBetween(s, i);
      GuardRuns(Deliver(SetFlags(s, i, false, false), i), i);
    } else {
      RegisterKeeps(s, i, cx);
    }
  }

  lemma ReleaseBetween(s: Machine, i: nat)
    requires Running(s, i) && s.entries[i].held
    ensures Between(SetFlags(s, i, false, false), i + 1)
    ensures ReleaseAt(s, i) == PassTo(SetFlags(s, i, false, false), i + 1)
  {
    hide Progress, Ordered;
    OrderedSame(s, SetFlags(s, i, false, false));
    ProgressSame(s.run.value, s.entries, SetFlags(s, i, false, false).entries, i + 1, s.arrivals);
  }

  lemma ReleaseKeeps(s: Machine, i: nat)
    requires Inv(s) && i < |s.entries| && s.entries[i].held
    ensures Inv(ReleaseAt(s, i))
  {
    hide Progress, Ordered;
    assert Running(s, i) by { HolderRuns(s, i); }
    ReleaseBetween(s, i);
    PassKeeps(SetFlags(s, i, false, false), i + 1);
  }

  lemma InsertRuns(s: Machine, key: nat, t: nat)
    requires Running(s, t) && !HasKey(s.entries, key)
    ensures Running(InsertKey(s, key), t)
  {
    hide Progress;
    AppendProgress(s.run.value, s.entries, Boundary(s.entries, t), Entry(key, s.arrivals, false, false, None));
  }

  lemma InsertKeeps(s: Machine, key: nat)
    requires Inv(s) && !HasKey(s.entries, key)
    ensures Inv(InsertKey(s, key))
  {
    if t: nat :| Running(s, t) {
      InsertRuns(s, key, t);
    }
  }

  lemma AppendProgress(r: Run, es: seq<Entry>, b: nat, e: Entry)
    requires Progress(r, es, b, e.arrival)
    ensures Progress(r.(members := r.members + {e.arrival}), es + [e], b, e.arrival + 1)
  {
    var fs := es + [e];
    forall a ensures a in Arrivals(fs, b) <==> a in Arrivals(es, b) + {e.arrival} {
      ArrivalsIn(fs, b, |es|);
      if a in Arrivals(es, b) {
        var j :| b <= j < |es| && es[j].arrival == a;
        ArrivalsIn(fs, b, j);
      }
    }
    forall d | d in r.served ensures d.arrival in Served(r) { }
    assert Served(r.(members := r.members + {e.arrival})) == Served(r);
  }

  lemma BeginKeeps(s: Machine, event: Event, cx: Waker)
    requires Resting(s)
    ensures Inv(Publish(s, event, cx))
  {
    if s.entries != [] {
      var r := Run(event, Arrivals(s.entries, 0), [], {});
      var s0 := s.(instance := Some(event), run := Some(r));
      var s1 := NotifyAt(s0, 0);
      assert Served(r) == {};
      assert Progress(r, s.entries, 0, s.arrivals);
      ProgressSame(r, s.entries, s1.entries, 0, s.arrivals);
      assert Running(Publish(s, event, cx), 0);
    }
  }

  // ----- dropping a listener -----

  /** Removing a listener that was already served leaves the ones to come as they were. */
  lemma ArrivalsBefore(es: seq<Entry>, i: nat, b: nat)
    requires i < b <= |es|
    ensures Arrivals(Without(es, i), b - 1) == Arrivals(es, b)
  {
    var fs := Without(es, i);
    forall a ensures a in Arrivals(fs, b - 1) <==> a in Arrivals(es, b) {
      if a in Arrivals(es, b) {
        var j :| b <= j < |es| && es[j].arrival == a;
        assert fs[j - 1] == es[j];
        ArrivalsIn(fs, b - 1, j - 1);
      }
      if a in Arrivals(fs, b - 1) {
        var j :| b - 1 <= j < |fs| && fs[j].arrival == a;
        assert fs[j] == es[j + 1];
        ArrivalsIn(es, b, j + 1);
      }
    }
  }

  /** Removing a listener still to come takes exactly its arrival away. */
  lemma ArrivalsFrom(es: seq<Entry>, i: nat, b: nat)
    requires b <= i < |es|
    requires forall j, k :: 0 <= j < k < |es| ==> es[j].arrival < es[k].arrival
    ensures Arrivals(Without(es, i), b) == Arrivals(es, b) - {es[i].arrival}
  {
    hide Without;
    var fs := Without(es, i);
    WithoutIs(es, i);
    forall a | a in Arrivals(es, b) - {es[i].arrival} ensures a in Arrivals(fs, b) {
      var j :| b <= j < |es| && es[j].arrival == a;
      ArrivalsIn(fs, b, if j < i then j else j - 1);
    }
    forall a | a in Arrivals(fs, b) ensures a in Arrivals(es, b) - {es[i].arrival} {
      var j :| b <= j < |fs| && fs[j].arrival == a;
      ArrivalsIn(es, b, if j < i then j else j + 1);
    }
  }

  lemma OrderedWithout(s: Machine, i: nat)
    requires Ordered(s) && i < |s.entries|
    ensures Ordered(RemoveAt(s, i))
  {
    var fs := Without(s.entries, i);
    forall j | 0 <= j < |fs| ensures fs[j] == s.entries[if j < i then j else j + 1] { }
  }

  lemma RemoveServed(s: Machine, i: nat, b: nat)
    requires Ordered(s) && i < b && s.run.Some? && Progress(s.run.value, s.entries, b, s.arrivals)
    ensures RemoveAt(s, i).run == s.run
    ensures Progress(s.run.value, Without(s.entries, i), b - 1, s.arrivals)
  {
    ArrivalsBefore(s.entries, i, b);
  }

  lemma RemoveWaiting(s: Machine, i: nat, b: nat)
    requires Ordered(s) && b <= i < |s.entries|
    requires s.run.Some? && Progress(s.run.value, s.entries, b, s.arrivals)
    ensures var r := s.run.value.(gone := s.run.value.gone + {s.entries[i].arrival});
      && RemoveAt(s, i).run == Some(r)
      && Progress(r, Without(s.entries, i), b, s.arrivals)
  {
    var a := s.entries[i].arrival;
    var r := s.run.value.(gone := s.run.value.gone + {a});
    ArrivalsFrom(s.entries, i, b);
    ArrivalsIn(s.entries, b, i);
    assert Served(r) == Served(s.run.value);
  }

  lemma RemoveTokenAt(es: seq<Entry>, i: nat, t: nat)
    requires TokenAt(es, t) && i < |es| && i != t
    ensures TokenAt(Without(es, i), if i < t then t - 1 else t)
    ensures Without(es, i)[if i < t then t - 1 else t] == es[t]
  {
  }

  lemma RemoveBehind(s: Machine, i: nat, t: nat)
    requires Running(s, t) && i < t
    ensures Running(RemoveAt(s, i), t - 1)
  {
    OrderedWithout(s, i);
    RemoveTokenAt(s.entries, i, t);
    RemoveServed(s, i, Boundary(s.entries, t));
  }

  lemma RemoveAhead(s: Machine, i: nat, t: nat)
    requires Running(s, t) && t < i < |s.entries|
    ensures Running(RemoveAt(s, i), t)
  {
    OrderedWithout(s, i);
    RemoveTokenAt(s.entries, i, t);
    RemoveWaiting(s, i, Boundary(s.entries, t));
  }

  /** Dropping a listener without the token never disturbs the run, wherever the listener stands. */
  lemma RemoveKeeps(s: Machine, i: nat)
    requires Inv(s) && i < |s.entries| && !s.entries[i].notified && !s.entries[i].held
    ensures Inv(RemoveAt(s, i))
  {
    hide Progress, Ordered;
    if Resting(s) {
      OrderedWithout(s, i);
    } else {
      var t: nat :| Running(s, t);
      if i < t {
        RemoveBehind(s, i, t);
      } else {
        RemoveAhead(s, i, t);
      }
    }
  }

  /** With forwarding, dropping the notified listener hands the token to its successor. */
  lemma ForwardKeeps(s: Machine, i: nat)
    requires Inv(s) && i < |s.entries| && s.entries[i].notified
    ensures Inv(DropAt(Forwarding, s, i))
  {
    hide Progress, Ordered;
    HolderRuns(s, i);
    OrderedWithout(s, i);
    RemoveWaiting(s, i, i);
    assert Between(RemoveAt(s, i), i);
    PassKeeps(RemoveAt(s, i), i);
  }

  // ----- the run_with future -----

  lemma DirectDoneKeeps(s: Machine, consumed: bool, cx: Waker)
    requires Inv(s) && s.phase.Directs?
    ensures Inv(DirectDone(s, consumed, cx))
  {
    if !consumed && s.phase.done + 1 == |s.phase.taken| {
      BeginKeeps(s.(directs := s.directs + s.phase.taken), s.phase.event, cx);
    }
  }

  lemma RepollKeeps(s: Machine, cx: Waker)
    requires Inv(s) && s.phase.Waiting?
    ensures Inv(RepollRunner(s, cx))
  {
    var s' := RepollRunner(s, cx);
    if t: nat :| Running(s, t) {
      assert Running(s', t);
    }
  }

  // ----- every step -----

  lemma StepKeeps(mode: Mode, s: Machine, a: Action)
    requires Inv(s) && Enabled(s, a)
    requires mode.Forwarding? || !DropsToken(s, a)
    ensures Inv(Step(mode, s, a))
  {
    hide Progress;
    match a
    case Insert(key) => InsertKeeps(s, key);
    case Poll(key, cx) => PollKeeps(s, Pos(s.entries, key), cx);
    case Hold(key, cx) => HoldKeeps(s, Pos(s.entries, key), cx);
    case Release(key) => ReleaseKeeps(s, Pos(s.entries, key));
    case Drop(key) =>
      var i := Pos(s.entries, key);
      if s.entries[i].notified {
        ForwardKeeps(s, i);
      } else {
        RemoveKeeps(s, i);
      }
    case AddDirect(d) =>
      if t: nat :| Running(s, t) {
        assert Running(Step(mode, s, a), t);
      }
    case Begin(event, cx) =>
      if s.directs == [] {
        BeginKeeps(s, event, cx);
      }
    case DirectReturned(consumed, cx) => DirectDoneKeeps(s, consumed, cx);
    case Repoll(cx) => RepollKeeps(s, cx);
  }
}
