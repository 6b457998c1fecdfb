/** Who is woken over a run of a handler, and that nobody who waits is forgotten. */
module ChainWakes {
  import opened Wrappers
  import opened ChainSpec
  import opened ChainProofs
  import opened ChainRuns

  // ----- the runner -----

  predicate RunnerAction(a: Action) {
    a.Begin? || a.DirectReturned? || a.Repoll?
  }

  /** A poll of the runner that leaves it waiting for the chain stores the waker of that very poll. */
  lemma RunnerRegisters(mode: Mode, s: Machine, a: Action)
    requires Inv(s) && RunnerAction(a) && Enabled(s, a)
    requires mode.Forwarding? || !DropsToken(s, a)
    ensures var s1 := Step(mode, s, a);
      Inv(s1) && (s1.phase.Waiting? ==> s1.phase == Waiting(a.cx, |s1.woken|) && s1.runner == Some(a.cx))
  {
    StepKeeps(mode, s, a);
  }

  lemma {:induction false} RunnerUntouched(mode: Mode, s: Machine, actions: seq<Action>)
    requires Legal(mode, s, actions) && s.phase.Waiting?
    requires forall i :: 0 <= i < |actions| ==> !actions[i].Repoll?
    ensures After(mode, s, actions).phase == s.phase
    decreases |actions|
  {
    if actions != [] {
      RunnerUntouched(mode, Step(mode, s, actions[0]), actions[1..]);
    }
  }

  /** After a poll of the runner that leaves it waiting for the chain, and until it is polled again, the
      waker of that poll is stored and the event published; or the event is gone, that waker has been
      woken since, and the next poll completes. */
  lemma RunnerNeverStranded(mode: Mode, s: Machine, a: Action, actions: seq<Action>, cx: Waker)
    requires Inv(s) && RunnerAction(a) && Enabled(s, a) && Step(mode, s, a).phase.Waiting?
    requires Legal(mode, Step(mode, s, a), actions)
    requires forall i :: 0 <= i < |actions| ==> !actions[i].Repoll?
    requires mode.Forwarding? || NeverDropsToken(mode, Step(mode, s, a), actions)
    ensures var s1 := Step(mode, s, a);
      var s' := After(mode, s1, actions);
      || (s'.instance.Some? && s'.runner == Some(a.cx))
      || (s'.instance.None? && |s1.woken| <= |s'.woken| && a.cx in s'.woken[|s1.woken|..]
          && RepollRunner(s', cx).phase.Idle?)
  {
    RunnerRegisters(mode, s, a);
    RunKeeps(mode, Step(mode, s, a), actions);
    RunnerUntouched(mode, Step(mode, s, a), actions);
  }

  // ----- the waiters -----

  /** The listener at position `i` is waiting: its waker `cx` is stored, or it has been notified and `cx`
      has been woken since `since` wakes had been issued. */
  ghost predicate ArmedAt(s: Machine, i: nat, key: nat, cx: Waker, since: nat) {
    && i < |s.entries| && s.entries[i].key == key && !s.entries[i].held
    && since <= |s.woken|
    && if s.entries[i].notified then cx in s.woken[since..] else s.entries[i].waker == Some(cx)
  }

  ghost predicate Armed(s: Machine, key: nat, cx: Waker, since: nat) {
    exists i :: 0 <= i < |s.entries| && ArmedAt(s, i, key, cx, since)
  }

  lemma WakeArmed(s: Machine, w: Option<Waker>, i: nat, key: nat, cx: Waker, since: nat)
    requires ArmedAt(s, i, key, cx, since)
    ensures ArmedAt(Wake(s, w), i, key, cx, since)
  {
    if w.Some? {
      assert (s.woken + [w.value])[since..] == s.woken[since..] + [w.value];
    }
  }

  lemma PassArmed(s: Machine, j: nat, i: nat, key: nat, cx: Waker, since: nat)
    requires ArmedAt(s, i, key, cx, since)
    ensures ArmedAt(PassTo(s, j), i, key, cx, since)
  {
    if j >= |s.entries| {
      WakeArmed(s.(instance := None, runner := None, run := None,
                   finished := if s.run.Some? then s.finished + [s.run.value] else s.finished),
                s.runner, i, key, cx, since);
    } else if !s.entries[j].notified {
      var e := s.entries[j];
      var s1 := s.(entries := s.entries[j := e.(notified := true, waker := None)]);
      if j == i {
        assert (s.woken + [cx])[since..] == s.woken[since..] + [cx];
      } else {
        WakeArmed(s1, e.waker, i, key, cx, since);
      }
    }
  }

  lemma BeginArmed(s: Machine, event: Event, wx: Waker, i: nat, key: nat, cx: Waker, since: nat)
    requires ArmedAt(s, i, key, cx, since)
    ensures ArmedAt(Publish(s, event, wx), i, key, cx, since)
  {
    var r := Run(event, Arrivals(s.entries, 0), [], {});
    PassArmed(s.(instance := Some(event), run := Some(r)), 0, i, key, cx, since);
  }

  lemma DropArmed(mode: Mode, s: Machine, j: nat, i: nat, key: nat, cx: Waker, since: nat)
    requires ArmedAt(s, i, key, cx, since) && j < |s.entries| && j != i
    ensures ArmedAt(DropAt(mode, s, j), if j < i then i - 1 else i, key, cx, since)
  {
    var i' := if j < i then i - 1 else i;
    assert RemoveAt(s, j).entries[i'] == s.entries[i];
    PassArmed(RemoveAt(s, j), j, i', key, cx, since);
  }

  /** The action is one on this listener. */
  predicate Touches(a: Action, key: nat) {
    (a.Poll? || a.Hold? || a.Release? || a.Drop?) && a.key == key
  }

  /** A step of another listener. */
  lemma ListenerArmed(mode: Mode, s: Machine, a: Action, i: nat, key: nat, cx: Waker, since: nat)
    requires ArmedAt(s, i, key, cx, since) && Enabled(s, a) && !Touches(a, key)
    requires a.Poll? || a.Hold? || a.Release?
    ensures ArmedAt(Step(mode, s, a), i, key, cx, since)
  {
    var j := Pos(s.entries, a.key);
    if a.Release? {
      PassArmed(SetFlags(s, j, s.entries[j].notified, false), j + 1, i, key, cx, since);
    } else if a.Poll? && s.entries[j].notified && s.instance.Some? {
      PassArmed(Deliver(SetFlags(s, j, false, s.entries[j].held), j), j + 1, i, key, cx, since);
    }
  }

  /** A step of the runner, or one that adds a listener. */
  lemma RunnerArmed(mode: Mode, s: Machine, a: Action, i: nat, key: nat, cx: Waker, since: nat)
    requires ArmedAt(s, i, key, cx, since) && Enabled(s, a)
    requires !a.Poll? && !a.Hold? && !a.Release? && !a.Drop?
    ensures ArmedAt(Step(mode, s, a), i, key, cx, since)
  {
    if a.Begin? {
      BeginArmed(s, a.event, a.cx, i, key, cx, since);
    } else if a.DirectReturned? {
      BeginArmed(s.(directs := s.directs + s.phase.taken), s.phase.event, a.cx, i, key, cx, since);
    }
  }

  lemma StepArmed(mode: Mode, s: Machine, a: Action, key: nat, cx: Waker, since: nat)
    requires Armed(s, key, cx, since) && Enabled(s, a) && !Touches(a, key)
    ensures Armed(Step(mode, s, a), key, cx, since)
  {
    hide Step, ArmedAt;
    var i :| 0 <= i < |s.entries| && ArmedAt(s, i, key, cx, since);
    if a.Drop? {
      var j := Pos(s.entries, a.key);
      assert j != i && Step(mode, s, a) == DropAt(mode, s, j) by { StepIsDrop(mode, s, a, i, key, cx, since); }
      DropArmed(mode, s, j, i, key, cx, since);
      ArmedSomewhere(Step(mode, s, a), if j < i then i - 1 else i, key, cx, since);
    } else {
      if a.Poll? || a.Hold? || a.Release? {
        ListenerArmed(mode, s, a, i, key, cx, since);
      } else {
        RunnerArmed(mode, s, a, i, key, cx, since);
      }
      ArmedSomewhere(Step(mode, s, a), i, key, cx, since);
    }
  }

  lemma StepIsDrop(mode: Mode, s: Machine, a: Action, i: nat, key: nat, cx: Waker, since: nat)
    requires ArmedAt(s, i, key, cx, since) && Enabled(s, a) && !Touches(a, key) && a.Drop?
    ensures Pos(s.entries, a.key) != i && Step(mode, s, a) == DropAt(mode, s, Pos(s.entries, a.key))
  {
  }

  lemma ArmedSomewhere(s: Machine, i: nat, key: nat, cx: Waker, since: nat)
    requires ArmedAt(s, i, key, cx, since)
    ensures Armed(s, key, cx, since)
  {
  }

  lemma {:induction false} RunArmed(mode: Mode, s: Machine, actions: seq<Action>, key: nat, cx: Waker, since: nat)
    requires Armed(s, key, cx, since) && Legal(mode, s, actions)
    requires forall i :: 0 <= i < |actions| ==> !Touches(actions[i], key)
    ensures Armed(After(mode, s, actions), key, cx, since)
    decreases |actions|
  {
    if actions != [] {
      StepArmed(mode, s, actions[0], key, cx, since);
      RunArmed(mode, Step(mode, s, actions[0]), actions[1..], key, cx, since);
    }
  }

  /** No waiter misses its turn: after a poll that finds no notification, and until the waiter is used
      again, its waker stays stored, or it has been notified and that waker has been woken since. This
      holds of every run, also one in which a token was lost. */
  lemma WaiterNeverStranded(mode: Mode, s: Machine, a: Action, actions: seq<Action>)
    requires (a.Poll? || a.Hold?) && Enabled(s, a) && !s.entries[Pos(s.entries, a.key)].notified
    requires Legal(mode, Step(mode, s, a), actions)
    requires forall i :: 0 <= i < |actions| ==> !Touches(actions[i], a.key)
    ensures Armed(After(mode, Step(mode, s, a), actions), a.key, a.cx, |s.woken|)
  {
    assert ArmedAt(Step(mode, s, a), Pos(s.entries, a.key), a.key, a.cx, |s.woken|);
    RunArmed(mode, Step(mode, s, a), actions, a.key, a.cx, |s.woken|);
  }

  // ----- no waker is woken that was not registered, and none twice -----

  function One(o: Option<Waker>, w: Waker): nat {
    if o == Some(w) then 1 else 0
  }

  function StoredIn(es: seq<Entry>, w: Waker): nat {
    if es == [] then 0 else One(es[0].waker, w) + StoredIn(es[1..], w)
  }

  function Times(ws: seq<Waker>, w: Waker): nat {
    if ws == [] then 0 else (if ws[|ws| - 1] == w then 1 else 0) + Times(ws[..|ws| - 1], w)
  }

  /** How often the handler stores the waker or has woken it. */
  function Uses(s: Machine, w: Waker): nat {
    Times(s.woken, w) + StoredIn(s.entries, w) + One(s.runner, w)
  }

  /** How often the actions bring the waker along. */
  function Given(actions: seq<Action>, w: Waker): nat {
    if actions == [] then 0 else (if Brings(actions[0], w) then 1 else 0) + Given(actions[1..], w)
  }

  predicate Brings(a: Action, w: Waker) {
    (a.Poll? || a.Hold? || RunnerAction(a)) && a.cx == w
  }

  lemma {:induction false} StoredUpdate(es: seq<Entry>, i: nat, e: Entry, w: Waker)
    requires i < |es|
    ensures StoredIn(es[i := e], w) + One(es[i].waker, w) == StoredIn(es, w) + One(e.waker, w)
    decreases i
  {
    if i > 0 {
      assert es[i := e][1..] == es[1..][i - 1 := e];
      StoredUpdate(es[1..], i - 1, e, w);
    } else {
      assert es[i := e][1..] == es[1..];
    }
  }

  lemma {:induction false} StoredWithout(es: seq<Entry>, i: nat, w: Waker)
    requires i < |es|
    ensures StoredIn(Without(es, i), w) + One(es[i].waker, w) == StoredIn(es, w)
    decreases i
  {
    if i > 0 {
      assert Without(es, i)[1..] == Without(es[1..], i - 1);
      StoredWithout(es[1..], i - 1, w);
    } else {
      assert Without(es, i) == es[1..];
    }
  }

  lemma {:induction false} StoredAppend(es: seq<Entry>, e: Entry, w: Waker)
    ensures StoredIn(es + [e], w) == StoredIn(es, w) + One(e.waker, w)
    decreases |es|
  {
    if es != [] {
      assert (es + [e])[1..] == es[1..] + [e];
      StoredAppend(es[1..], e, w);
    } else {
      assert es + [e] == [e] && [e][1..] == [];
    }
  }

  lemma WakeUses(s: Machine, o: Option<Waker>, w: Waker)
    ensures Uses(Wake(s, o), w) == Uses(s, w) + One(o, w)
  {
    if o.Some? {
      assert (s.woken + [o.value])[..|s.woken|] == s.woken;
    }
  }

  lemma SetFlagsUses(s: Machine, i: nat, notified: bool, held: bool, w: Waker)
    requires i < |s.entries|
    ensures Uses(SetFlags(s, i, notified, held), w) == Uses(s, w)
  {
    StoredUpdate(s.entries, i, s.entries[i].(notified := notified, held := held), w);
  }

  /** Passing the token on moves a waker from the stored to the woken ones, and makes none. */
  lemma PassUses(s: Machine, j: nat, w: Waker)
    ensures Uses(PassTo(s, j), w) == Uses(s, w)
  {
    hide Uses;
    if j >= |s.entries| {
      FinishUses(s, w);
    } else if !s.entries[j].notified {
      NotifyUses(s, j, w);
    } else {
      FaultUses(s, s.faults + {DoubleNotify}, w);
    }
  }

  lemma FaultUses(s: Machine, faults: set<Fault>, w: Waker)
    ensures Uses(s.(faults := faults), w) == Uses(s, w)
  {
  }

  lemma FinishUses(s: Machine, w: Waker)
    ensures Uses(Finish(s), w) == Uses(s, w)
  {
    var s1 := s.(instance := None, runner := None, run := None,
                 finished := if s.run.Some? then s.finished + [s.run.value] else s.finished);
    assert Uses(s1, w) + One(s.runner, w) == Uses(s, w);
    WakeUses(s1, s.runner, w);
  }

  lemma NotifyUses(s: Machine, j: nat, w: Waker)
    requires j < |s.entries| && !s.entries[j].notified
    ensures Uses(NotifyAt(s, j), w) == Uses(s, w)
  {
    var e := s.entries[j];
    StoredUpdate(s.entries, j, e.(notified := true, waker := None), w);
    WakeUses(s.(entries := s.entries[j := e.(notified := true, waker := None)]), e.waker, w);
  }

  lemma RegisterUses(s: Machine, i: nat, cx: Waker, w: Waker)
    requires i < |s.entries|
    ensures Uses(RegisterAt(s, i, cx), w) <= Uses(s, w) + One(Some(cx), w)
  {
    StoredUpdate(s.entries, i, s.entries[i].(waker := Some(cx)), w);
  }

  lemma DeliverUses(s: Machine, i: nat, w: Waker)
    requires i < |s.entries| && s.instance.Some?
    ensures Uses(Deliver(s, i), w) == Uses(s, w)
  {
  }

  lemma FlagsOnly(s: Machine, i: nat, notified: bool, held: bool)
    requires i < |s.entries|
    ensures SetFlags(s, i, notified, held).instance == s.instance
    ensures |SetFlags(s, i, notified, held).entries| == |s.entries|
  {
  }

  lemma TakeUses(s: Machine, i: nat, cx: Waker, w: Waker)
    requires i < |s.entries|
    ensures Uses(PollAt(s, i, cx), w) <= Uses(s, w) + One(Some(cx), w)
    ensures Uses(HoldAt(s, i, cx), w) <= Uses(s, w) + One(Some(cx), w)
  {
    hide Uses, PassTo, Deliver, SetFlags, RegisterAt;
    RegisterUses(s, i, cx, w);
    SetFlagsUses(s, i, false, s.entries[i].held, w);
    SetFlagsUses(s, i, false, true, w);
    if s.entries[i].notified {
      var s1, s2 := SetFlags(s, i, false, s.entries[i].held), SetFlags(s, i, false, true);
      FlagsOnly(s, i, false, s.entries[i].held);
      FlagsOnly(s, i, false, true);
      FaultUses(s1, s1.faults + {LostEvent}, w);
      if s.instance.Some? {
        DeliverUses(s1, i, w);
        DeliverUses(s2, i, w);
        PassUses(Deliver(s1, i), i + 1, w);
      }
    }
  }

  lemma DropUses(mode: Mode, s: Machine, i: nat, w: Waker)
    requires i < |s.entries|
    ensures Uses(DropAt(mode, s, i), w) <= Uses(s, w)
  {
    StoredWithout(s.entries, i, w);
    var s1 := RemoveAt(s, i);
    assert Uses(s1, w) <= Uses(s, w);
    FaultUses(s1, s1.faults + {FreedSlot}, w);
    PassUses(s1, i, w);
  }

  lemma PublishUses(s: Machine, event: Event, cx: Waker, w: Waker)
    ensures Uses(Publish(s, event, cx), w) <= Uses(s, w) + One(Some(cx), w)
  {
    if s.entries != [] {
      PassUses(s.(instance := Some(event), run := Some(Run(event, Arrivals(s.entries, 0), [], {}))), 0, w);
    }
  }

  /** The runner's steps. */
  lemma RunnerUses(mode: Mode, s: Machine, a: Action, w: Waker)
    requires Enabled(s, a) && RunnerAction(a)
    ensures Uses(Step(mode, s, a), w) <= Uses(s, w) + One(Some(a.cx), w)
  {
    if a.Begin? {
      PublishUses(s, a.event, a.cx, w);
    } else if a.DirectReturned? {
      PublishUses(s.(directs := s.directs + s.phase.taken), s.phase.event, a.cx, w);
    }
  }

  lemma StepUses(mode: Mode, s: Machine, a: Action, w: Waker)
    requires Enabled(s, a)
    ensures Uses(Step(mode, s, a), w) <= Uses(s, w) + if Brings(a, w) then 1 else 0
  {
    if RunnerAction(a) {
      RunnerUses(mode, s, a, w);
    } else if a.Poll? || a.Hold? {
      TakeUses(s, Pos(s.entries, a.key), a.cx, w);
    } else if a.Drop? {
      DropUses(mode, s, Pos(s.entries, a.key), w);
    } else if a.Release? {
      var i := Pos(s.entries, a.key);
      SetFlagsUses(s, i, s.entries[i].notified, false, w);
      PassUses(SetFlags(s, i, s.entries[i].notified, false), i + 1, w);
    } else if a.Insert? {
      StoredAppend(s.entries, Entry(a.key, s.arrivals, false, false, None), w);
    }
  }

  /** Over every run, a waker is woken, together with the places that still store it, at most as often as
      polls have brought it: nobody is woken who did not register, and one registration is good for one
      wake. */
  lemma {:induction false} WokenAtMostOncePerPoll(mode: Mode, s: Machine, actions: seq<Action>, w: Waker)
    requires Legal(mode, s, actions)
    ensures Uses(After(mode, s, actions), w) <= Uses(s, w) + Given(actions, w)
    decreases |actions|
  {
    hide Step, Uses;
    if actions != [] {
      StepUses(mode, s, actions[0], w);
      WokenAtMostOncePerPoll(mode, Step(mode, s, actions[0]), actions[1..], w);
    }
  }
}
