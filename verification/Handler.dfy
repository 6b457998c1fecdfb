/** `Handler`, its `State` and `Waiter` of `src/handler.rs`, updated in place, with every operation
    proved to be one step of the machine in `ChainSpec.dfy`. */
module Handlers {
  import opened Wrappers
  import opened ListenerList
  import opened ChainSpec
  import opened ChainProofs

  /** The entries are the occupied slots in list order. */
  ghost predicate Shows(es: seq<Entry>, order: seq<nat>, slab: Slab) {
    && |es| == |order|
    && forall i {:trigger es[i]} :: 0 <= i < |es| ==>
         es[i].key == order[i] && order[i] in slab
         && es[i].notified == slab[order[i]].notified && es[i].waker == slab[order[i]].waker
  }

  lemma KeyAt(es: seq<Entry>, order: seq<nat>, slab: Slab, i: nat)
    requires Distinct(order) && Shows(es, order, slab) && i < |order|
    ensures HasKey(es, order[i]) && Pos(es, order[i]) == i
  {
    assert es[i].key == order[i];
    assert es[Pos(es, order[i])].key == order[i];
  }

  lemma NoEntries(es: seq<Entry>, order: seq<nat>, slab: Slab)
    requires Shows(es, order, slab)
    ensures |es| == |order|
  {
  }

  lemma VacantKey(es: seq<Entry>, order: seq<nat>, slab: Slab, key: nat)
    requires Shows(es, order, slab) && key !in slab
    ensures !HasKey(es, key)
  {
  }

  lemma ShowsWrite(es: seq<Entry>, order: seq<nat>, slab: Slab, i: nat, l: Listener, e: Entry)
    requires Distinct(order) && Shows(es, order, slab) && i < |order|
    requires e.key == order[i] && e.notified == l.notified && e.waker == l.waker
    ensures Shows(es[i := e], order, slab[order[i] := l])
  {
    var fs := es[i := e];
    forall j | 0 <= j < |fs|
      ensures fs[j].key == order[j] && order[j] in slab[order[i] := l]
        && fs[j].notified == slab[order[i] := l][order[j]].notified
        && fs[j].waker == slab[order[i] := l][order[j]].waker
    {
      assert es[j].key == order[j];
    }
  }

  lemma WriteThreaded(slab: Slab, ends: Option<(nat, nat)>, order: seq<nat>, k: nat, l: Listener)
    requires Threaded(slab, ends, order) && k in slab
    requires l.next == slab[k].next && l.prev == slab[k].prev
    ensures Threaded(slab[k := l], ends, order)
  {
  }

  lemma ShowsAppend(es: seq<Entry>, order: seq<nat>, slab: Slab, ends: Option<(nat, nat)>, index: nat,
                    l: Listener, e: Entry)
    requires Threaded(slab, ends, order) && Shows(es, order, slab) && index !in slab
    requires e.key == index && e.notified == l.notified && e.waker == l.waker
    ensures Shows(es + [e], order + [index], Linked(slab, ends, index, l))
  {
    var fs, slab' := es + [e], Linked(slab, ends, index, l);
    forall i | 0 <= i < |fs|
      ensures fs[i].key == (order + [index])[i] && fs[i].key in slab'
        && fs[i].notified == slab'[fs[i].key].notified && fs[i].waker == slab'[fs[i].key].waker
    {
      if i < |es| {
        assert es[i].key == order[i];
      }
    }
  }

  lemma ShowsWithout(es: seq<Entry>, order: seq<nat>, slab: Slab, ends: Option<(nat, nat)>, i: nat)
    requires Threaded(slab, ends, order) && Shows(es, order, slab) && i < |order|
    ensures Shows(Without(es, i), Without(order, i), Unlinked(slab, order[i]))
  {
    var fs, slab' := Without(es, i), Unlinked(slab, order[i]);
    forall j | 0 <= j < |fs|
      ensures fs[j].key == Without(order, i)[j] && fs[j].key in slab'
        && fs[j].notified == slab'[fs[j].key].notified && fs[j].waker == slab'[fs[j].key].waker
    {
      var k := if j < i then j else j + 1;
      assert fs[j] == es[k] && es[k].key == order[k] && order[k] != order[i];
      UnlinkedAt(slab, order[i], order[k]);
    }
  }

  lemma SomeVacantKey(s: set<nat>)
    ensures exists k: nat :: k !in s
  {
    var bound := Bound(s);
    assert bound !in s;
  }

  lemma Bound(s: set<nat>) returns (b: nat)
    ensures forall k :: k in s ==> k < b
  {
    if s == {} {
      b := 0;
    } else {
      var k :| k in s;
      var c := Bound(s - {k});
      b := if c > k then c else k + 1;
      forall j | j in s ensures j < b { assert j == k || j in s - {k}; }
    }
  }

  lemma NothingTaken(s: Machine, i: nat)
    requires i < |s.entries| && !s.entries[i].notified
    ensures SetFlags(s, i, false, s.entries[i].held) == s
  {
    assert s.entries[i := s.entries[i].(notified := false, held := s.entries[i].held)] == s.entries;
  }

  lemma SetTwice(s: Machine, i: nat, n: bool, h: bool, n': bool, h': bool)
    requires i < |s.entries|
    ensures SetFlags(SetFlags(s, i, n, h), i, n', h') == SetFlags(s, i, n', h')
  {
  }

  /** Opening a guard touches no slot. */
  lemma ShowsGuard(es: seq<Entry>, order: seq<nat>, slab: Slab, i: nat, e: Entry)
    requires Shows(es, order, slab) && i < |es| && e == es[i].(held := e.held)
    ensures Shows(es[i := e], order, slab)
  {
  }

  class Handler {
    // The fields of `State`; `slab` is its `listeners`.
    var slab: Slab
    var directs: seq<Direct>
    var headAndTail: Option<(nat, nat)>
    var waker: Option<Waker>
    var instance: Option<Event>
    // Where the suspended `run_with` future stands.
    var future: Phase
    // The effects on the outside: the `wake` calls and the calls of direct listeners made so far.
    var woken: seq<Waker>
    var called: seq<Call>

    // The list order, and the machine's state: the fields above, the open guards and the history.
    ghost var order: seq<nat>
    ghost var view: Machine

    ghost predicate Valid()
      reads this
    {
      && Threaded(slab, headAndTail, order)
      && Shows(view.entries, order, slab)
      && view.directs == directs && view.instance == instance && view.runner == waker
      && view.phase == future && view.woken == woken && view.called == called
    }

    constructor ()
      ensures Valid() && view == INITIAL
    {
      slab, directs, headAndTail, waker, instance := map[], [], None, None, None;
      future, woken, called := Idle, [], [];
      order, view := [], INITIAL;
    }

    /** The listener in slot `index` stands at position `i` of the list. */
    ghost predicate At(index: nat, i: nat)
      reads this
    {
      i < |order| && order[i] == index
    }

    lemma Position(index: nat)
      requires Valid() && HasKey(view.entries, index)
      ensures At(index, Pos(view.entries, index)) && index in slab
    {
    }

    // ----- State -----

    /** `State::insert`: a vacant slot is taken and linked behind the tail. */
    method Insert() returns (index: nat)
      requires Threaded(slab, headAndTail, order)
      modifies this`slab, this`headAndTail, this`order
      ensures index !in old(slab)
      ensures order == old(order) + [index] && Threaded(slab, headAndTail, order)
      ensures slab == Linked(old(slab), old(headAndTail), index, slab[index])
      ensures slab[index].waker.None? && !slab[index].notified
    {
      var prev := if headAndTail.Some? then Some(headAndTail.value.1) else None;
      var listener := Listener(None, prev, None, false);
      SomeVacantKey(slab.Keys);
      index :| index !in slab.Keys;
      AppendThreaded(slab, headAndTail, order, index, listener);
      slab := slab[index := listener];
      match headAndTail {
        case Some((head, tail)) =>
          slab := slab[tail := slab[tail].(next := Some(index))];
          headAndTail := Some((head, index));
        case None =>
          headAndTail := Some((index, index));
      }
      order := order + [index];
    }

    /** The last part of `State::remove`. */
    method JoinNeighbours(listener: Listener)
      requires listener.next.Some? ==> listener.next.value in slab
      requires listener.prev.Some? ==> listener.prev.value in slab
      modifies this`slab
      ensures slab == Joined(old(slab), listener)
    {
      if listener.next.Some? {
        var next := listener.next.value;
        slab := slab[next := slab[next].(prev := listener.prev)];
      }
      if listener.prev.Some? {
        var prev := listener.prev.value;
        slab := slab[prev := slab[prev].(next := listener.next)];
      }
    }

    /** `State::remove`: the slot is vacated and its neighbours joined. */
    method Remove(index: nat, ghost i: nat) returns (listener: Listener)
      requires Threaded(slab, headAndTail, order) && At(index, i)
      modifies this`slab, this`headAndTail, this`order
      ensures listener == old(slab[index]) && index !in slab
      ensures order == Without(old(order), i) && Threaded(slab, headAndTail, order)
      ensures slab == Unlinked(old(slab), index)
    {
      RemoveThreaded(slab, headAndTail, order, i);
      UnlinkedKeys(slab, index);
      EndsAfterRemove(slab, headAndTail, order, i);
      NeighboursPresent(slab, headAndTail, order, i);
      listener := slab[index];
      slab := slab - {index};
      var (head, tail) := headAndTail.value;
      if head == index && tail == index {
        headAndTail := None;
      } else if head == index {
        headAndTail := Some((listener.next.value, tail));
      } else if tail == index {
        headAndTail := Some((head, listener.prev.value));
      }
      JoinNeighbours(listener);
      order := Without(order, i);
    }

    /** `State::take_notification`. */
    method TakeNotification(index: nat, ghost i: nat) returns (was: bool)
      requires Valid() && At(index, i)
      modifies this`slab, this`view
      ensures Valid() && was == old(view).entries[i].notified
      ensures view == SetFlags(old(view), i, false, old(view).entries[i].held)
    {
      was := slab[index].notified;
      ghost var e := view.entries[i];
      WriteThreaded(slab, headAndTail, order, index, slab[index].(notified := false));
      ShowsWrite(view.entries, order, slab, i, slab[index].(notified := false), e.(notified := false, held := e.held));
      slab := slab[index := slab[index].(notified := false)];
      view := SetFlags(view, i, false, e.held);
    }

    /** `State::register_waker`. */
    method RegisterWaker(index: nat, cx: Waker, ghost i: nat)
      requires Valid() && At(index, i)
      modifies this`slab, this`view
      ensures Valid() && view == RegisterAt(old(view), i, cx)
    {
      var listener := slab[index];
      var current := listener.waker;
      listener := listener.(waker := None);
      if current.Some? && current.value == cx {
        listener := listener.(waker := current);
      } else {
        listener := listener.(waker := Some(cx));
      }
      ghost var e := view.entries[i];
      WriteThreaded(slab, headAndTail, order, index, listener);
      ShowsWrite(view.entries, order, slab, i, listener, e.(waker := Some(cx)));
      slab := slab[index := listener];
      view := RegisterAt(view, i, cx);
    }

    /** `State::notify`, whose caller wakes the waker it gets. */
    method Notify(index: nat, ghost i: nat) returns (w: Option<Waker>)
      requires Valid() && At(index, i)
      modifies this`slab, this`view
      ensures Valid() && Wake(view, w) == NotifyAt(old(view), i)
    {
      var listener := slab[index];
      ghost var e := view.entries[i];
      if listener.notified {
        view := view.(faults := view.faults + {DoubleNotify});
        return None;
      }
      w := listener.waker;
      listener := listener.(notified := true, waker := None);
      WriteThreaded(slab, headAndTail, order, index, listener);
      ShowsWrite(view.entries, order, slab, i, listener, e.(notified := true, waker := None));
      slab := slab[index := listener];
      view := view.(entries := view.entries[i := e.(notified := true, waker := None)]);
    }

    /** Wakes the waker, if there is one. */
    method WakeUp(w: Option<Waker>)
      requires Valid()
      modifies this`woken, this`view
      ensures Valid() && view == Wake(old(view), w)
    {
      if w.Some? {
        woken := woken + [w.value];
      }
      view := Wake(view, w);
    }

    // ----- run_with -----

    /** `Handler::wait_direct_async`. */
    method AddDirect(direct: Direct)
      requires Valid()
      modifies this`directs, this`view
      ensures Valid() && view == Step(Literal, old(view), Action.AddDirect(direct))
    {
      directs := directs + [direct];
      view := view.(directs := view.directs + [direct]);
    }

    /** `run_with` from the point where no direct listener has consumed the event up to its first
        suspension, which stores the runner's waker. */
    method StartChain(event: Event, cx: Waker) returns (p: Poll<()>)
      requires Valid()
      modifies this
      ensures Valid() && view == Publish(old(view), event, cx)
      ensures p.Pending? <==> old(headAndTail).Some?
      ensures p.Ready? <==> future.Idle?
    {
      hide Shows, NotifyAt, Wake, Arrivals;
      if headAndTail.None? {
        future := Idle;
        view := view.(phase := Idle);
        assert view.entries == [] by { NoEntries(view.entries, order, slab); }
        return Ready(());
      }
      var head := headAndTail.value.0;
      instance := Some(event);
      assert |view.entries| == |order| by { NoEntries(view.entries, order, slab); }
      view := view.(instance := instance, run := Some(Run(event, Arrivals(view.entries, 0), [], {})));
      var w := Notify(head, 0);
      WakeUp(w);
      if !(waker.Some? && waker.value == cx) {
        waker := Some(cx);
      }
      future := Waiting(cx, |woken|);
      view := view.(runner := waker, phase := future);
      return Pending;
    }

    /** The first poll of `run_with`: the direct listeners, if any, are taken out and the first called. */
    method Begin(event: Event, cx: Waker) returns (p: Poll<()>)
      requires Valid() && future.Idle?
      modifies this
      ensures Valid() && view == Step(Literal, old(view), Action.Begin(event, cx))
      ensures p.Ready? <==> future.Idle?
    {
      if directs == [] {
        p := StartChain(event, cx);
        return p;
      }
      future := Directs(event, directs, 0);
      called := called + [Call(directs[0], event)];
      directs := [];
      view := view.(phase := future, directs := [], called := called);
      return Pending;
    }

    /** `run_direct_listeners` and `run_with` from the completion of one direct listener on. */
    method DirectReturned(consumed: bool, cx: Waker) returns (p: Poll<()>)
      requires Valid() && future.Directs?
      modifies this
      ensures Valid() && view == Step(Literal, old(view), Action.DirectReturned(consumed, cx))
      ensures p.Ready? <==> future.Idle?
    {
      hide Shows, Threaded, Publish;
      var Directs(event, taken, done) := future;
      if consumed || done + 1 >= |taken| {
        directs := directs + taken;
        view := view.(directs := directs);
        if consumed {
          future := Idle;
          view := view.(phase := Idle);
          return Ready(());
        }
        p := StartChain(event, cx);
        return p;
      }
      future := Directs(event, taken, done + 1);
      called := called + [Call(taken[done + 1], event)];
      view := view.(phase := future, called := called);
      return Pending;
    }

    /** A later poll of the suspended `run_with`. */
    method Repoll(cx: Waker) returns (p: Poll<()>)
      requires Valid() && future.Waiting?
      modifies this
      ensures Valid() && view == Step(Literal, old(view), Action.Repoll(cx))
      ensures p.Ready? <==> old(headAndTail).None? || old(instance).None?
    {
      if headAndTail.None? || instance.None? {
        future := Idle;
        view := view.(phase := Idle);
        return Ready(());
      }
      if !(waker.Some? && waker.value == cx) {
        waker := Some(cx);
      }
      future := Waiting(cx, |woken|);
      view := view.(runner := waker, phase := future);
      return Pending;
    }

    // ----- Waiter -----

    /** `Waiter::notify_next`. */
    method NotifyNext(index: nat, ghost i: nat)
      requires Valid() && At(index, i)
      modifies this`slab, this`instance, this`waker, this`woken, this`view
      ensures Valid() && view == PassTo(old(view), i + 1)
    {
      assert slab[index].next == NextIn(order, i) by { NeighboursPresent(slab, headAndTail, order, i); }
      if slab[index].next.Some? {
        var w := Notify(slab[index].next.value, i + 1);
        WakeUp(w);
      } else {
        instance := None;
        var w := waker;
        waker := None;
        view := view.(instance := None, runner := None, run := None,
                      finished := if view.run.Some? then view.finished + [view.run.value] else view.finished);
        WakeUp(w);
      }
    }
  }

  /** A listener's handle; `index` is its slot while the waiter exists. */
  class Waiter {
    const handler: Handler
    const index: nat

    /** The waiter exists, and no open guard borrows it. */
    ghost predicate Free()
      reads this, handler
    {
      handler.Valid() && HasKey(handler.view.entries, index)
      && !handler.view.entries[Pos(handler.view.entries, index)].held
    }

    /** The waiter exists, and an open guard borrows it. */
    ghost predicate Guarded()
      reads this, handler
    {
      handler.Valid() && HasKey(handler.view.entries, index)
      && handler.view.entries[Pos(handler.view.entries, index)].held
    }

    /** `Waiter::new`. */
    constructor (handler: Handler)
      requires handler.Valid()
      modifies handler
      ensures this.handler == handler && handler.Valid()
      ensures Enabled(old(handler.view), Action.Insert(index))
      ensures handler.view == Step(Literal, old(handler.view), Action.Insert(index))
    {
      this.handler := handler;
      var k := handler.Insert();
      index := k;
      new;
      ghost var s := old(handler.view);
      VacantKey(s.entries, old(handler.order), old(handler.slab), k);
      ShowsAppend(s.entries, old(handler.order), old(handler.slab), old(handler.headAndTail), k,
                  handler.slab[k], Entry(k, s.arrivals, false, false, None));
      handler.view := InsertKey(s, k);
    }

    /** `Waiter::poll_next`: the event is returned exactly when its notification was there to be taken. */
    method PollNext(cx: Waker) returns (p: Poll<Event>)
      requires Free()
      modifies handler
      ensures handler.Valid() && Enabled(old(handler.view), Action.Poll(index, cx))
      ensures handler.view == Step(Literal, old(handler.view), Action.Poll(index, cx))
      ensures var e := old(handler.view.entries[Pos(handler.view.entries, index)]);
        p == if e.notified && old(handler.instance).Some? then Ready(old(handler.instance).value) else Pending
    {
      ghost var s, i := handler.view, Pos(handler.view.entries, index);
      handler.Position(index);
      var notified := handler.TakeNotification(index, i);
      if notified {
        if handler.instance.None? {
          handler.view := handler.view.(faults := s.faults + {LostEvent});
          return Pending;
        }
        var event := handler.instance.value;
        handler.view := Deliver(handler.view, i);
        handler.NotifyNext(index, i);
        return Ready(event);
      }
      NothingTaken(s, i);
      handler.RegisterWaker(index, cx, i);
      return Pending;
    }

    /** One poll of `Waiter::hold`; an event means that the guard is open. */
    method Hold(cx: Waker) returns (p: Poll<Event>)
      requires Free()
      modifies handler
      ensures handler.Valid() && Enabled(old(handler.view), Action.Hold(index, cx))
      ensures handler.view == Step(Literal, old(handler.view), Action.Hold(index, cx))
      ensures p.Ready? <==> old(handler.view.entries[Pos(handler.view.entries, index)]).notified && old(handler.instance).Some?
      ensures p.Ready? ==> p.value == old(handler.instance).value && Guarded()
    {
      ghost var s, i := handler.view, Pos(handler.view.entries, index);
      handler.Position(index);
      var notified := handler.TakeNotification(index, i);
      if notified {
        if handler.instance.None? {
          handler.view := handler.view.(faults := s.faults + {LostEvent});
          return Pending;
        }
        SetTwice(s, i, false, s.entries[i].held, false, true);
        ShowsGuard(handler.view.entries, handler.order, handler.slab, i, handler.view.entries[i].(held := true));
        handler.view := Deliver(SetFlags(handler.view, i, false, true), i);
        assert handler.view == HoldAt(s, i, cx);
        KeyAt(handler.view.entries, handler.order, handler.slab, i);
        return Ready(handler.instance.value);
      }
      NothingTaken(s, i);
      handler.RegisterWaker(index, cx, i);
      return Pending;
    }

    /** `HoldGuard::drop`. */
    method Release()
      requires Guarded()
      modifies handler
      ensures handler.Valid() && Enabled(old(handler.view), Action.Release(index))
      ensures handler.view == Step(Literal, old(handler.view), Action.Release(index))
    {
      ghost var i := Pos(handler.view.entries, index);
      handler.Position(index);
      ghost var e := handler.view.entries[i];
      ShowsGuard(handler.view.entries, handler.order, handler.slab, i, e.(held := false));
      handler.view := SetFlags(handler.view, i, e.notified, false);
      handler.NotifyNext(index, i);
    }

    /** `Waiter::drop`. A notified listener's successor is looked up in the slot just freed, where the
        slab panics; `panicked` reports it, and the list and the event are left as they are then. */
    method Drop() returns (panicked: bool)
      requires Free()
      modifies handler
      ensures handler.Valid() && Enabled(old(handler.view), Action.Drop(index))
      ensures handler.view == Step(Literal, old(handler.view), Action.Drop(index))
      ensures panicked == old(handler.view.entries[Pos(handler.view.entries, index)]).notified
      ensures panicked <==> DropsToken(old(handler.view), Action.Drop(index))
    {
      ghost var i := Pos(handler.view.entries, index);
      handler.Position(index);
      ShowsWithout(handler.view.entries, handler.order, handler.slab, handler.headAndTail, i);
      var listener := handler.Remove(index, i);
      handler.view := RemoveAt(handler.view, i);
      if listener.notified {
        handler.view := handler.view.(faults := handler.view.faults + {FreedSlot});
      }
      return listener.notified;
    }
  }
}
