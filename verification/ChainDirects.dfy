/** The direct listeners over runs of a handler. */
module ChainDirects {
  import opened Wrappers
  import opened ChainSpec
  import opened ChainProofs
  import opened ChainRuns

  // ----- direct listeners -----

  /** The direct listeners there are, whether in the list or taken out by a run. */
  function AllDirects(s: Machine): multiset<Direct> {
    multiset(s.directs) + (if s.phase.Directs? then multiset(s.phase.taken) else multiset{})
  }

  function Added(actions: seq<Action>): seq<Direct> {
    if actions == [] then []
    else (if actions[0].AddDirect? then [actions[0].direct] else []) + Added(actions[1..])
  }

  predicate ListenerAction(a: Action) {
    a.Insert? || a.Poll? || a.Hold? || a.Release? || a.Drop?
  }

  lemma ListenersLeaveDirects(mode: Mode, s: Machine, a: Action)
    requires Enabled(s, a) && ListenerAction(a)
    ensures Step(mode, s, a).directs == s.directs && Step(mode, s, a).phase == s.phase
  {
  }

  lemma DirectsStep(mode: Mode, s: Machine, a: Action)
    requires Enabled(s, a)
    ensures AllDirects(Step(mode, s, a))
         == AllDirects(s) + if a.AddDirect? then multiset{a.direct} else multiset{}
  {
    if ListenerAction(a) {
      ListenersLeaveDirects(mode, s, a);
    } else if a.Begin? {
      PublishLeavesDirects(s, a.event, a.cx);
    } else if a.DirectReturned? {
      PublishLeavesDirects(s.(directs := s.directs + s.phase.taken), s.phase.event, a.cx);
    }
  }

  lemma PublishLeavesDirects(s: Machine, event: Event, cx: Waker)
    ensures Publish(s, event, cx).directs == s.directs && !Publish(s, event, cx).phase.Directs?
  {
  }

  /** No run loses or copies a direct listener, however it ends. */
  lemma {:induction false} DirectsConserved(mode: Mode, s: Machine, actions: seq<Action>)
    requires Legal(mode, s, actions)
    ensures AllDirects(After(mode, s, actions)) == AllDirects(s) + multiset(Added(actions))
    decreases |actions|
  {
    if actions != [] {
      var a := actions[0];
      DirectsStep(mode, s, a);
      DirectsConserved(mode, Step(mode, s, a), actions[1..]);
    }
  }

  /** The direct listeners are out until the last step. */
  ghost predicate DirectsUntilLast(mode: Mode, s: Machine, actions: seq<Action>)
    requires Legal(mode, s, actions)
    decreases |actions|
  {
    s.phase.Directs? && actions != [] &&
    var s1 := Step(mode, s, actions[0]);
    if |actions| == 1 then !s1.phase.Directs? else DirectsUntilLast(mode, s1, actions[1..])
  }

  /** When the direct listeners go back, whether all were called or one consumed the event, the list is
      the ones registered meanwhile followed by all the original ones in order. */
  lemma {:induction false} DirectsGoBack(mode: Mode, s: Machine, actions: seq<Action>)
    requires Legal(mode, s, actions) && DirectsUntilLast(mode, s, actions)
    ensures After(mode, s, actions).directs == s.directs + Added(actions) + s.phase.taken
    decreases |actions|
  {
    hide Step;
    var a := actions[0];
    DirectsOut(mode, s, a);
    var x := if a.AddDirect? then [a.direct] else [];
    assert Added(actions) == x + Added(actions[1..]);
    if |actions| == 1 {
      assert actions[1..] == [];
    } else {
      DirectsGoBack(mode, Step(mode, s, a), actions[1..]);
      assert (s.directs + x) + Added(actions[1..]) == s.directs + (x + Added(actions[1..]));
    }
  }

  /** While they are out, a step either leaves them out or puts them all back at the end. */
  lemma DirectsOut(mode: Mode, s: Machine, a: Action)
    requires Enabled(s, a) && s.phase.Directs?
    ensures var s1 := Step(mode, s, a);
      if s1.phase.Directs? then
        s1.phase.taken == s.phase.taken
        && s1.directs == s.directs + if a.AddDirect? then [a.direct] else []
      else a.DirectReturned? && s1.directs == s.directs + s.phase.taken
  {
    if ListenerAction(a) {
      ListenersLeaveDirects(mode, s, a);
    } else if a.DirectReturned? {
      PublishLeavesDirects(s.(directs := s.directs + s.phase.taken), s.phase.event, a.cx);
    }
  }

  lemma QueueUpStep(mode: Mode, s: Machine, a: Action)
    requires Enabled(s, a) && !s.phase.Directs? && !a.Begin?
    ensures var s1 := Step(mode, s, a);
      s1.directs == s.directs + Added([a]) && !s1.phase.Directs? && s1.called == s.called
  {
    assert [a][1..] == [];
    if ListenerAction(a) {
      ListenersLeaveDirects(mode, s, a);
    }
  }

  /** Outside such a stretch they queue up in the order of their registration. */
  lemma {:induction false} DirectsQueueUp(mode: Mode, s: Machine, actions: seq<Action>)
    requires Legal(mode, s, actions) && !s.phase.Directs?
    requires forall i :: 0 <= i < |actions| ==> !actions[i].Begin?
    ensures After(mode, s, actions).directs == s.directs + Added(actions)
    ensures !After(mode, s, actions).phase.Directs? && After(mode, s, actions).called == s.called
    decreases |actions|
  {
    hide Step, Added;
    if actions == [] {
      NoneAdded();
    } else {
      QueueUpStep(mode, s, actions[0]);
      DirectsQueueUp(mode, Step(mode, s, actions[0]), actions[1..]);
      OneAndRest(actions);
      assert (s.directs + Added([actions[0]])) + Added(actions[1..])
          == s.directs + (Added([actions[0]]) + Added(actions[1..]));
    }
  }

  lemma NoneAdded()
    ensures Added([]) == []
  {
  }

  // ----- what a run with direct listeners does -----

  /** The machine without its direct listeners and its runner. */
  function Listening(s: Machine): Machine {
    s.(directs := [], phase := Idle, called := [])
  }

  function OnlyListeners(actions: seq<Action>): seq<Action> {
    if actions == [] then []
    else (if ListenerAction(actions[0]) then [actions[0]] else []) + OnlyListeners(actions[1..])
  }

  /** How many direct listeners have completed. */
  function Returns(actions: seq<Action>): nat {
    if actions == [] then 0 else (if actions[0].DirectReturned? then 1 else 0) + Returns(actions[1..])
  }

  function Calls(directs: seq<Direct>, event: Event): seq<Call> {
    if directs == [] then [] else [Call(directs[0], event)] + Calls(directs[1..], event)
  }

  lemma {:induction false} CallsJoin(a: seq<Direct>, b: seq<Direct>, event: Event)
    ensures Calls(a + b, event) == Calls(a, event) + Calls(b, event)
    decreases |a|
  {
    if a == [] {
      assert a + b == b;
    } else {
      assert (a + b)[1..] == a[1..] + b;
      CallsJoin(a[1..], b, event);
    }
  }

  /** The direct listeners are out over the whole of a stretch of steps. */
  ghost predicate StayOut(mode: Mode, s: Machine, actions: seq<Action>)
    requires Legal(mode, s, actions)
    decreases |actions|
  {
    s.phase.Directs? && (actions == [] || StayOut(mode, Step(mode, s, actions[0]), actions[1..]))
  }

  /** A step while the direct listeners stay out: the waiters see only their own steps, and a direct
      listener that completes has declined the event, which makes the next one be called with it. */
  lemma OutStep(mode: Mode, s: Machine, a: Action)
    requires Resting(s) && s.phase.Directs? && Enabled(s, a) && Step(mode, s, a).phase.Directs?
    ensures var s1 := Step(mode, s, a);
      && Resting(s1) && s1.woken == s.woken && s1.finished == s.finished
      && (if ListenerAction(a) then Enabled(Listening(s), a) && Listening(s1) == Step(mode, Listening(s), a)
          else Listening(s1) == Listening(s))
    ensures CalledInTurn(s, Step(mode, s, a), Returns([a]), Added([a]))
    ensures a.DirectReturned? ==> !a.consumed
  {
    StepKeeps(mode, s, a);
    OutStepCalls(mode, s, a);
  }

  lemma OutStepCalls(mode: Mode, s: Machine, a: Action)
    requires s.phase.Directs? && s.phase.done < |s.phase.taken|
    requires Enabled(s, a) && Step(mode, s, a).phase.Directs?
    ensures CalledInTurn(s, Step(mode, s, a), Returns([a]), Added([a]))
    ensures a.DirectReturned? ==> !a.consumed
  {
    assert [a][1..] == [];
    var i := s.phase.done + 1;
    assert Calls(s.phase.taken[i..i], s.phase.event) == [];
    if ListenerAction(a) {
      ListenersLeaveDirects(mode, s, a);
    } else if a.DirectReturned? {
      PublishLeavesDirects(s.(directs := s.directs + s.phase.taken), s.phase.event, a.cx);
      if i < |s.phase.taken| {
        var one := s.phase.taken[i..i + 1];
        assert one == [s.phase.taken[i]] && one[1..] == [];
      }
    }
  }

  lemma CallsSlices(directs: seq<Direct>, i: nat, j: nat, k: nat, event: Event)
    requires i <= j <= k <= |directs|
    ensures Calls(directs[i..k], event) == Calls(directs[i..j], event) + Calls(directs[j..k], event)
  {
    assert directs[i..k] == directs[i..j] + directs[j..k];
    CallsJoin(directs[i..j], directs[j..k], event);
  }

  /** From `s` to `p`, while the direct listeners were out, `n` of them returned: the next `n` were called
      in turn, with the event, and those of `added` were registered. */
  ghost predicate CalledInTurn(s: Machine, p: Machine, n: nat, added: seq<Direct>)
    requires s.phase.Directs?
  {
    && s.phase.done + n < |s.phase.taken| && p.phase == s.phase.(done := s.phase.done + n)
    && p.called == s.called + Calls(s.phase.taken[s.phase.done + 1..s.phase.done + n + 1], s.phase.event)
    && p.directs == s.directs + added
  }

  lemma CalledThen(s: Machine, s1: Machine, p: Machine, m: nat, n: nat, a: seq<Direct>, b: seq<Direct>)
    requires s.phase.Directs? && CalledInTurn(s, s1, m, a) && CalledInTurn(s1, p, n, b)
    ensures CalledInTurn(s, p, m + n, a + b)
  {
    hide Calls;
    var i := s.phase.done + 1;
    CallsSlices(s.phase.taken, i, i + m, i + m + n, s.phase.event);
    assert (s.directs + a) + b == s.directs + (a + b);
  }

  /** Until the direct listeners go back, they are called in order, each with the event and once its
      predecessor has declined it. */
  lemma {:induction false} DirectsInTurn(mode: Mode, s: Machine, actions: seq<Action>)
    requires Resting(s) && Legal(mode, s, actions) && StayOut(mode, s, actions)
    ensures CalledInTurn(s, After(mode, s, actions), Returns(actions), Added(actions))
    decreases |actions|
  {
    hide Step, Resting, CalledInTurn, Added, Returns;
    if actions == [] {
      NothingYet(s);
    } else {
      var a, rest := actions[0], actions[1..];
      var s1 := Step(mode, s, a);
      OutStep(mode, s, a);
      DirectsInTurn(mode, s1, rest);
      OneAndRest(actions);
      CalledThen(s, s1, After(mode, s1, rest), Returns([a]), Returns(rest), Added([a]), Added(rest));
    }
  }

  lemma NothingYet(s: Machine)
    requires Resting(s) && s.phase.Directs?
    ensures CalledInTurn(s, s, Returns([]), Added([]))
  {
    assert Calls(s.phase.taken[s.phase.done + 1..s.phase.done + 1], s.phase.event) == [];
  }

  lemma OneAndRest(actions: seq<Action>)
    requires actions != []
    ensures Added(actions) == Added([actions[0]]) + Added(actions[1..])
    ensures Returns(actions) == Returns([actions[0]]) + Returns(actions[1..])
  {
    assert [actions[0]][1..] == [];
  }

  /** And the waiters see only their own steps: nothing is published or put on record, nobody is woken. */
  lemma {:induction false} WaitersUndisturbed(mode: Mode, s: Machine, actions: seq<Action>)
    requires Resting(s) && Legal(mode, s, actions) && StayOut(mode, s, actions)
    ensures var p := After(mode, s, actions);
      && Resting(p) && p.woken == s.woken && p.finished == s.finished
      && Legal(mode, Listening(s), OnlyListeners(actions))
      && Listening(p) == After(mode, Listening(s), OnlyListeners(actions))
    decreases |actions|
  {
    hide Step, Resting;
    if actions != [] {
      var a := actions[0];
      OutStep(mode, s, a);
      WaitersUndisturbed(mode, Step(mode, s, a), actions[1..]);
      if ListenerAction(a) {
        Prepend(mode, Listening(s), a, OnlyListeners(actions[1..]));
      } else {
        assert OnlyListeners(actions) == OnlyListeners(actions[1..]);
      }
    }
  }

  /** From `q` to `s'` the event reached the waiters: with none, the runner is done and nothing has
      happened; otherwise the event is published to the arrivals present, the first listener and no other
      has been notified and its waker, if it had one, woken, and the runner waits with its waker stored. */
  ghost predicate Published(q: Machine, s': Machine, event: Event, cx: Waker) {
    if q.entries == [] then
      && s'.entries == [] && s'.instance.None? && s'.run.None? && s'.runner.None? && s'.phase.Idle?
      && s'.woken == q.woken
    else
      && s'.entries == q.entries[0 := q.entries[0].(notified := true, waker := None)]
      && s'.woken == q.woken + (if q.entries[0].waker.Some? then [q.entries[0].waker.value] else [])
      && s'.instance == Some(event) && s'.runner == Some(cx) && s'.phase == Waiting(cx, |s'.woken|)
      && s'.run == Some(Run(event, Arrivals(q.entries, 0), [], {}))
  }

  lemma PublishPublishes(s: Machine, event: Event, cx: Waker)
    requires Resting(s)
    ensures Published(s, Publish(s, event, cx), event, cx)
    ensures Publish(s, event, cx).finished == s.finished && Publish(s, event, cx).called == s.called
    ensures Publish(s, event, cx).directs == s.directs && Publish(s, event, cx).arrivals == s.arrivals
  {
  }

  /** Without direct listeners a run reaches the waiters at once; with some, they are taken out and the
      first is called. */
  lemma BeginReaches(mode: Mode, s: Machine, event: Event, cx: Waker)
    requires Resting(s) && s.phase.Idle?
    ensures var s1 := Step(mode, s, Begin(event, cx));
      if s.directs == [] then Published(s, s1, event, cx) && s1.called == s.called && s1.directs == []
      else
        && s1.phase == Directs(event, s.directs, 0) && s1.directs == []
        && s1.called == s.called + [Call(s.directs[0], event)]
        && Resting(s1) && Listening(s1) == Listening(s) && s1.woken == s.woken
  {
    PublishPublishes(s, event, cx);
  }

  /** The step that ends the stretch: a direct listener consumes the event, which the waiters do not
      notice, or the last one has declined it, and it reaches them. */
  lemma OutEnds(mode: Mode, s: Machine, a: Action)
    requires Resting(s) && s.phase.Directs? && Enabled(s, a) && !Step(mode, s, a).phase.Directs?
    ensures var s1 := Step(mode, s, a);
      && a.DirectReturned? && s1.directs == s.directs + s.phase.taken && s1.called == s.called
      && s1.finished == s.finished && s1.arrivals == s.arrivals
      && if a.consumed then Listening(s1) == Listening(s) && s1.phase.Idle?
         else s.phase.done + 1 == |s.phase.taken| && Published(Listening(s), s1, s.phase.event, a.cx)
  {
    if ListenerAction(a) {
      ListenersLeaveDirects(mode, s, a);
    } else if a.DirectReturned? {
      PublishPublishes(s.(directs := s.directs + s.phase.taken), s.phase.event, a.cx);
    }
  }

  /** The whole of a run up to the waiters, from its start over any steps to the one that ends the direct
      listeners' part. A prefix of the direct listeners has been called, in order and with the event, up to
      the one that consumed it or all of them; they are all back, behind those registered meanwhile. If
      the event was consumed, the waiters have seen only their own steps, as if there had been no event. If
      all have declined it, it then reaches the waiters that are there. */
  lemma RunThroughDirects(mode: Mode, s: Machine, event: Event, cx: Waker, actions: seq<Action>, a: Action)
    requires Resting(s) && s.phase.Idle? && s.directs != []
    requires var s1 := Step(mode, s, Begin(event, cx));
      && Legal(mode, s1, actions) && StayOut(mode, s1, actions)
      && Enabled(After(mode, s1, actions), a) && !Step(mode, After(mode, s1, actions), a).phase.Directs?
    ensures var s' := Step(mode, After(mode, Step(mode, s, Begin(event, cx)), actions), a);
      && a.DirectReturned? && Returns(actions) < |s.directs|
      && s'.called == s.called + Calls(s.directs[..Returns(actions) + 1], event)
      && s'.directs == Added(actions) + s.directs && s'.finished == s.finished
      && Legal(mode, Listening(s), OnlyListeners(actions))
      && var q := After(mode, Listening(s), OnlyListeners(actions));
         if a.consumed then
           Listening(s') == q && s'.phase.Idle? && s'.woken == s.woken && s'.instance.None? && s'.run.None?
         else
           Returns(actions) + 1 == |s.directs| && Published(q, s', event, a.cx) && q.woken == s.woken
  {
    hide Step, Resting;
    var s1 := Step(mode, s, Begin(event, cx));
    BeginReaches(mode, s, event, cx);
    DirectsInTurn(mode, s1, actions);
    WaitersUndisturbed(mode, s1, actions);
    var p := After(mode, s1, actions);
    OutEnds(mode, p, a);
    RestingSilent(p);
    var n := Returns(actions) + 1;
    assert s.directs[..n] == [s.directs[0]] + s.directs[1..n];
    assert s.directs[..n][1..] == s.directs[1..n];
    assert [] + Added(actions) == Added(actions);
  }

  lemma RestingSilent(s: Machine)
    requires Resting(s)
    ensures s.instance.None? && s.run.None? && s.runner.None?
  {
  }

  /** Consumption at any point of the stretch, not only counted from the start of the run, leaves the
      waiters and the published event alone. */
  lemma ConsumedLeavesListeners(mode: Mode, s: Machine, actions: seq<Action>, a: Action)
    requires Resting(s) && Legal(mode, s, actions) && StayOut(mode, s, actions)
    requires a.DirectReturned? && a.consumed && Enabled(After(mode, s, actions), a)
    ensures var s' := Step(mode, After(mode, s, actions), a);
      && s'.instance.None? && s'.run.None? && s'.finished == s.finished && s'.woken == s.woken
      && Legal(mode, Listening(s), OnlyListeners(actions))
      && Listening(s') == After(mode, Listening(s), OnlyListeners(actions))
  {
    WaitersUndisturbed(mode, s, actions);
    var p := After(mode, s, actions);
    OutEnds(mode, p, a);
    RestingSilent(p);
  }
}
