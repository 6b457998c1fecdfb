/** What events do, told as the list of their deeds in the order of the source: an account of every poll,
    drain, collection, wake and park, and of what each of them leaves behind, without the wake flag that
    decides how often the trailing loop polls (`FilterProofs.TrailShape`). */
module Ledgers {
  import opened Wrappers
  import opened TimerStore
  import opened Reactors
  import opened FilterSpec
  import opened FilterProofs
  import ExitCode

  /** The effects of a filter and its reactor on the outside, and what they still have to do: operations
      queued, wakers collected, and the timers. */
  datatype Ledger = Ledger(
    queue: seq<LoopOp>,
    pushed: seq<LoopOp>,
    executed: seq<LoopOp>,
    exits: seq<ExitCode.I32>,
    timers: Timers,
    collected: seq<Firing>,
    wokenTimers: seq<Firing>,
    woken: seq<Waker>,
    parks: nat)

  function LedgerOf(l: Loop): Ledger {
    var r := l.shared;
    Ledger(r.ops, r.pushed, r.executed, r.exits, r.timers, l.wakers, l.wokenTimers, r.woken, |l.parks|)
  }

  // ----- what a poll does -----

  function Pushes(acts: seq<Act>): seq<LoopOp> {
    if acts == [] then [] else (if acts[0].PushOp? then [acts[0].op] else []) + Pushes(acts[1..])
  }

  function Exits(acts: seq<Act>): seq<ExitCode.I32> {
    if acts == [] then [] else (if acts[0].Exit? then [acts[0].code] else []) + Exits(acts[1..])
  }

  function Wakes(acts: seq<Act>): seq<Waker> {
    if acts == [] then [] else (if acts[0].Wake? then [acts[0].waker] else []) + Wakes(acts[1..])
  }

  function Commands(acts: seq<Act>): seq<Command> {
    if acts == [] then []
    else
      (match acts[0]
       case AddTimer(deadline, waker) => [InsertTimer(deadline, waker)]
       case CancelTimer(key) => [RemoveTimer(key)]
       case _ => [])
      + Commands(acts[1..])
  }

  /** A poll does what its acts say, in their order, and executes nothing. */
  lemma {:induction false} ActsExact(r: Shared, acts: seq<Act>)
    ensures var r' := Acts(r, acts);
      && r'.ops == r.ops + Pushes(acts) && r'.pushed == r.pushed + Pushes(acts)
      && r'.executed == r.executed && r'.exits == r.exits + Exits(acts)
      && r'.woken == r.woken + Wakes(acts)
    decreases |acts|
  {
    hide ActOn, Pushes, Exits, Wakes;
    if acts == [] {
      NoActs();
    } else {
      ActExact(r, acts[0]);
      ActsExact(ActOn(r, acts[0]), acts[1..]);
      FirstAct(acts);
    }
  }

  lemma NoActs()
    ensures Pushes([]) == [] && Exits([]) == [] && Wakes([]) == []
  {
  }

  lemma FirstAct(acts: seq<Act>)
    requires acts != []
    ensures Pushes(acts) == Pushes([acts[0]]) + Pushes(acts[1..])
    ensures Exits(acts) == Exits([acts[0]]) + Exits(acts[1..])
    ensures Wakes(acts) == Wakes([acts[0]]) + Wakes(acts[1..])
  {
    assert [acts[0]][1..] == [];
  }

  lemma ActExact(r: Shared, a: Act)
    ensures var r' := ActOn(r, a);
      && r'.ops == r.ops + Pushes([a]) && r'.pushed == r.pushed + Pushes([a])
      && r'.executed == r.executed && r'.exits == r.exits + Exits([a])
      && r'.woken == r.woken + Wakes([a])
  {
    assert [a][1..] == [];
  }

  lemma {:induction false} ActsCommand(r: Shared, acts: seq<Act>)
    ensures Acts(r, acts).timers == DoAll(r.timers, Commands(acts))
    decreases |acts|
  {
    if acts != [] {
      var r1 := ActOn(r, acts[0]);
      ActsCommand(r1, acts[1..]);
      if acts[0].AddTimer? || acts[0].CancelTimer? {
        assert Commands(acts)[1..] == Commands(acts[1..]);
      } else {
        assert Commands(acts) == Commands(acts[1..]);
      }
    }
  }

  // ----- deeds -----

  datatype Deed = Poll(acts: seq<Act>) | Drain | Collect(now: Instant) | WakeCollected | Park

  ghost function Enter(g: Ledger, d: Deed): Ledger {
    match d
    case Poll(acts) =>
      g.(queue := g.queue + Pushes(acts), pushed := g.pushed + Pushes(acts), exits := g.exits + Exits(acts),
         timers := DoAll(g.timers, Commands(acts)), woken := g.woken + Wakes(acts))
    case Drain => g.(queue := [], executed := g.executed + g.queue, woken := g.woken + Answers(g.queue))
    case Collect(now) =>
      g.(timers := Do(g.timers, ProcessAt(now)), collected := g.collected + InOrder(Due(g.timers.live, now)))
    case WakeCollected =>
      g.(collected := [], wokenTimers := g.wokenTimers + g.collected, woken := g.woken + WakersOf(g.collected))
    case Park => g.(parks := g.parks + 1)
  }

  ghost function EnterAll(g: Ledger, ds: seq<Deed>): Ledger
    decreases |ds|
  {
    if ds == [] then g else EnterAll(Enter(g, ds[0]), ds[1..])
  }

  lemma {:induction false} EnterJoin(g: Ledger, a: seq<Deed>, b: seq<Deed>)
    ensures EnterAll(g, a + b) == EnterAll(EnterAll(g, a), b)
    decreases |a|
  {
    if a == [] {
      assert a + b == b;
    } else {
      assert (a + b)[1..] == a[1..] + b;
      EnterJoin(Enter(g, a[0]), a[1..], b);
    }
  }

  // ----- the deeds of an event -----

  function RoundDeeds(rounds: seq<Round>): seq<Deed> {
    if rounds == [] then []
    else [Deed.Poll(rounds[0].acts), Drain, Deed.Collect(rounds[0].now), WakeCollected, Deed.Park] + RoundDeeds(rounds[1..])
  }

  /** `n` polls of the trailing loop from the `k`-th on. */
  function TrailDeeds(trail: nat -> seq<Act>, k: nat, n: nat): seq<Deed>
    decreases n
  {
    if n == 0 then [] else [Deed.Poll(trail(k)), Drain] + TrailDeeds(trail, k + 1, n - 1)
  }

  /** `NewEvents` collects the due timers and posts nothing. Any other event is posted; if that blocks, the
      queue is drained before anything else, then the rounds follow and the driver's last poll. */
  function PostDeeds(e: Event, s: Script): seq<Deed> {
    if e.NewEvents? then [Deed.Collect(s.now)]
    else if s.ready then [Deed.Poll(s.first)]
    else [Deed.Poll(s.first), Drain] + RoundDeeds(s.drive) + [Deed.Poll(s.last)]
  }

  // ----- and that they are all it does -----

  lemma PollEnters(l: Loop, acts: seq<Act>)
    ensures LedgerOf(l.(shared := Acts(l.shared, acts))) == Enter(LedgerOf(l), Deed.Poll(acts))
  {
    ActsExact(l.shared, acts);
    ActsCommand(l.shared, acts);
  }

  lemma DrainEnters(l: Loop)
    ensures LedgerOf(l.(shared := Drained(l.shared))) == Enter(LedgerOf(l), Drain)
  {
    DrainExact(l.shared);
  }

  lemma CollectEnters(l: Loop, now: Instant)
    ensures LedgerOf(FilterSpec.Collect(l, now)) == Enter(LedgerOf(l), Deed.Collect(now))
  {
  }

  lemma WakeEnters(l: Loop)
    ensures LedgerOf(l.(shared := WakeAll(l.shared, l.wakers), wokenTimers := l.wokenTimers + l.wakers, wakers := []))
         == Enter(LedgerOf(l), WakeCollected)
  {
    WakeAllExact(l.shared, l.wakers);
    WakeAllLeaves(l.shared, l.wakers);
  }

  lemma {:induction false} WakeAllLeaves(r: Shared, ws: seq<Firing>)
    ensures var r' := WakeAll(r, ws);
      && r'.ops == r.ops && r'.pushed == r.pushed && r'.executed == r.executed && r'.exits == r.exits
      && r'.timers == r.timers
    decreases |ws|
  {
    if ws != [] {
      WakeAllLeaves(WakeOne(r, ws[0].waker), ws[1..]);
    }
  }

  lemma FiveDeeds(g: Ledger, a: Deed, b: Deed, c: Deed, d: Deed, e: Deed)
    ensures EnterAll(g, [a, b, c, d, e]) == Enter(Enter(Enter(Enter(Enter(g, a), b), c), d), e)
  {
    TwoDeeds(g, a, b);
    TwoDeeds(Enter(Enter(g, a), b), c, d);
    OneDeed(Enter(Enter(Enter(Enter(g, a), b), c), d), e);
    EnterJoin(g, [a, b], [c, d]);
    EnterJoin(g, [a, b] + [c, d], [e]);
    assert [a, b, c, d, e] == ([a, b] + [c, d]) + [e];
  }

  lemma OneDeed(g: Ledger, a: Deed)
    ensures EnterAll(g, [a]) == Enter(g, a)
  {
    assert [a][1..] == [];
  }

  lemma TwoDeeds(g: Ledger, a: Deed, b: Deed)
    ensures EnterAll(g, [a, b]) == Enter(Enter(g, a), b)
  {
    OneDeed(Enter(g, a), b);
    assert [a, b][1..] == [b];
  }

  /** One turn of the drive loop: the poll's wakes, the answers to all that is queued by then, and each
      collected waker, in this order, and one park. */
  lemma TurnEnters(l: Loop, round: Round)
    ensures LedgerOf(Turn(l, round)) == EnterAll(LedgerOf(l), RoundDeeds([round]))
  {
    hide Enter, Acts, Drained, WakeAll;
    var l1 := l.(shared := Acts(l.shared, round.acts));
    var l2 := l1.(shared := Drained(l1.shared));
    var l3 := FilterSpec.Collect(l2, round.now);
    var l4 := l3.(shared := WakeAll(l3.shared, l3.wakers), wokenTimers := l3.wokenTimers + l3.wakers, wakers := []);
    PollEnters(l, round.acts);
    DrainEnters(l1);
    CollectEnters(l2, round.now);
    WakeEnters(l3);
    ParkEnters(l4, Turn(l, round));
    FiveDeeds(LedgerOf(l), Deed.Poll(round.acts), Drain, Deed.Collect(round.now), WakeCollected, Deed.Park);
    assert [round][1..] == [] && RoundDeeds([]) == [];
    assert RoundDeeds([round])
        == [Deed.Poll(round.acts), Drain, Deed.Collect(round.now), WakeCollected, Deed.Park];
  }

  /** In a turn the polled future's own wakes come first, then the answers to the operations queued by then,
      and then every waker collected before or due now, each once and in order. */
  lemma TurnWakes(l: Loop, round: Round)
    ensures var due := InOrder(Due(DoAll(l.shared.timers, Commands(round.acts)).live, round.now));
      && Turn(l, round).shared.woken
         == l.shared.woken + Wakes(round.acts) + Answers(l.shared.ops + Pushes(round.acts)) + WakersOf(l.wakers + due)
      && Turn(l, round).wokenTimers == l.wokenTimers + (l.wakers + due) && Turn(l, round).wakers == []
  {
    ActsExact(l.shared, round.acts);
    ActsCommand(l.shared, round.acts);
    var r := Acts(l.shared, round.acts);
    DrainExact(r);
    var c := FilterSpec.Collect(l.(shared := Drained(r)), round.now);
    WakeAllExact(c.shared, c.wakers);
  }

  lemma ParkEnters(l: Loop, l': Loop)
    requires |l'.parks| == |l.parks| + 1 && l' == l.(parks := l'.parks)
    ensures LedgerOf(l') == Enter(LedgerOf(l), Deed.Park)
  {
  }

  lemma {:induction false} TurnsEnter(l: Loop, rounds: seq<Round>)
    ensures LedgerOf(Turns(l, rounds)) == EnterAll(LedgerOf(l), RoundDeeds(rounds))
    decreases |rounds|
  {
    hide Turn, Enter;
    if rounds != [] {
      TurnEnters(l, rounds[0]);
      TurnsEnter(Turn(l, rounds[0]), rounds[1..]);
      assert [rounds[0]][1..] == [] && RoundDeeds([]) == [];
      assert RoundDeeds(rounds) == RoundDeeds([rounds[0]]) + RoundDeeds(rounds[1..]);
      EnterJoin(LedgerOf(l), RoundDeeds([rounds[0]]), RoundDeeds(rounds[1..]));
    }
  }

  lemma DriveEnters(l: Loop, rounds: seq<Round>, last: seq<Act>)
    ensures LedgerOf(Drive(l, rounds, last))
         == EnterAll(LedgerOf(l), [Drain] + RoundDeeds(rounds) + [Deed.Poll(last)])
  {
    hide Turns, Enter, Acts, Drained;
    var l0 := l.(yielding := false, shared := Drained(l.shared));
    var l1 := Turns(l0, rounds);
    DrainEnters(l.(yielding := false));
    TurnsEnter(l0, rounds);
    PollEnters(l1, last);
    OneDeed(LedgerOf(l), Drain);
    OneDeed(LedgerOf(l1), Deed.Poll(last));
    EnterJoin(LedgerOf(l), [Drain], RoundDeeds(rounds));
    EnterJoin(LedgerOf(l), [Drain] + RoundDeeds(rounds), [Deed.Poll(last)]);
  }

  lemma StartEnters(l: Loop, now: Instant)
    ensures LedgerOf(StartEvent(l, NewEvents, now)) == Enter(LedgerOf(l), Deed.Collect(now))
  {
    CollectEnters(l.(yielding := false, shared := Awaken(l.shared)), now);
  }

  lemma PostedEnters(l: Loop, e: Event, s: Script)
    ensures LedgerOf(Posted(l, e, s)) == EnterAll(LedgerOf(l), PostDeeds(e, s))
  {
    hide Enter, Drive;
    if e.NewEvents? {
      StartEnters(l, s.now);
      OneDeed(LedgerOf(l), Deed.Collect(s.now));
      assert Acts(StartEvent(l, e, s.now).shared, []) == StartEvent(l, e, s.now).shared;
    } else {
      var l1 := l.(shared := Acts(l.shared, s.first));
      PollEnters(l, s.first);
      OneDeed(LedgerOf(l), Deed.Poll(s.first));
      if !s.ready {
        DriveEnters(l1, s.drive, s.last);
        EnterJoin(LedgerOf(l), [Deed.Poll(s.first)], [Drain] + RoundDeeds(s.drive) + [Deed.Poll(s.last)]);
        assert PostDeeds(e, s) == [Deed.Poll(s.first)] + ([Drain] + RoundDeeds(s.drive) + [Deed.Poll(s.last)]);
      }
    }
  }

  lemma {:induction false} TrailEnters(l: Loop, k: nat, trail: nat -> seq<Act>)
    ensures l.polls <= Trail(l, k, trail).polls
    ensures LedgerOf(Trail(l, k, trail))
         == EnterAll(LedgerOf(l), TrailDeeds(trail, k, Trail(l, k, trail).polls - l.polls))
    decreases Potential(l)
  {
    hide Enter, Acts, Drained;
    if !l.yielding && Flagged(l.shared) {
      var l1 := TrailTurn(l, trail(k));
      TrailTurnEnters(l, trail(k));
      TrailDecreases(l, trail(k));
      TrailEnters(l1, k + 1, trail);
      var n := Trail(l, k, trail).polls - l.polls;
      assert TrailDeeds(trail, k, n) == [Deed.Poll(trail(k)), Drain] + TrailDeeds(trail, k + 1, n - 1);
      EnterJoin(LedgerOf(l), [Deed.Poll(trail(k)), Drain], TrailDeeds(trail, k + 1, n - 1));
    }
  }

  lemma TrailTurnEnters(l: Loop, acts: seq<Act>)
    ensures LedgerOf(TrailTurn(l, acts)) == EnterAll(LedgerOf(l), [Deed.Poll(acts), Drain])
  {
    var l0 := l.(shared := Swapped(l.shared));
    var l1 := l0.(shared := Acts(l0.shared, acts));
    PollEnters(l0, acts);
    DrainEnters(l1);
    TwoDeeds(LedgerOf(l), Deed.Poll(acts), Drain);
  }

  /** An event does exactly its deeds, in their order: posting and blocking, and then as many trailing polls
      as it makes. */
  lemma EventDeeds(l: Loop, e: Event, s: Script)
    ensures var n := Handle(l, e, s).polls - Posted(l, e, s).polls;
      n >= 0 && LedgerOf(Handle(l, e, s)) == EnterAll(LedgerOf(l), PostDeeds(e, s) + TrailDeeds(s.trail, 0, n))
  {
    hide Enter, Posted, Trail;
    var p := Posted(l, e, s);
    PostedEnters(l, e, s);
    TrailEnters(p, 0, s.trail);
    EnterJoin(LedgerOf(l), PostDeeds(e, s), TrailDeeds(s.trail, 0, Trail(p, 0, s.trail).polls - p.polls));
  }

  // ----- the wakers of fired timers are woken -----

  /** The elements of `a` occur in `b`, in this order. */
  predicate OccursIn<T(==)>(a: seq<T>, b: seq<T>)
    decreases |b|
  {
    a == [] ||
    (b != [] &&
     (OccursIn(a, b[..|b| - 1]) ||
      (a[|a| - 1] == b[|b| - 1] && OccursIn(a[..|a| - 1], b[..|b| - 1]))))
  }

  lemma {:induction false} OccursInMore<T>(a: seq<T>, b: seq<T>, c: seq<T>)
    requires OccursIn(a, b)
    ensures OccursIn(a, b + c)
    decreases |c|
  {
    if c == [] {
      assert b + c == b;
    } else {
      assert (b + c)[..|b + c| - 1] == b + c[..|c| - 1];
      OccursInMore(a, b, c[..|c| - 1]);
    }
  }

  lemma {:induction false} OccursInBoth<T>(a: seq<T>, b: seq<T>, c: seq<T>)
    requires OccursIn(a, b)
    ensures OccursIn(a + c, b + c)
    decreases |c|
  {
    if c == [] {
      assert a + c == a && b + c == b;
    } else {
      assert (a + c)[..|a + c| - 1] == a + c[..|c| - 1];
      assert (b + c)[..|b + c| - 1] == b + c[..|c| - 1];
      OccursInBoth(a, b, c[..|c| - 1]);
    }
  }

  lemma {:induction false} OccursInMember<T>(a: seq<T>, b: seq<T>, x: T)
    requires OccursIn(a, b) && x in a
    ensures x in b
    decreases |b|
  {
    var i :| 0 <= i < |a| && a[i] == x;
    if OccursIn(a, b[..|b| - 1]) {
      OccursInMember(a, b[..|b| - 1], x);
    } else if i < |a| - 1 {
      assert a[..|a| - 1][i] == x;
      OccursInMember(a[..|a| - 1], b[..|b| - 1], x);
    }
  }

  /** Since `g0`, the wakers put on record as woken timers have been woken, in the order of the record. */
  ghost predicate WokenSince(g0: Ledger, g: Ledger) {
    && g0.wokenTimers <= g.wokenTimers && g0.woken <= g.woken
    && OccursIn(WakersOf(g.wokenTimers[|g0.wokenTimers|..]), g.woken[|g0.woken|..])
  }

  lemma {:induction false} WakersJoin(a: seq<Firing>, b: seq<Firing>)
    ensures WakersOf(a + b) == WakersOf(a) + WakersOf(b)
    decreases |a|
  {
    if a == [] {
      assert a + b == b;
    } else {
      assert (a + b)[1..] == a[1..] + b;
      WakersJoin(a[1..], b);
    }
  }

  lemma MoreWoken(g0: Ledger, g: Ledger, g': Ledger, more: seq<Waker>)
    requires WokenSince(g0, g) && g'.wokenTimers == g.wokenTimers && g'.woken == g.woken + more
    ensures WokenSince(g0, g')
  {
    assert g'.woken[|g0.woken|..] == g.woken[|g0.woken|..] + more;
    OccursInMore(WakersOf(g.wokenTimers[|g0.wokenTimers|..]), g.woken[|g0.woken|..], more);
  }

  lemma CollectedWoken(g0: Ledger, g: Ledger)
    requires WokenSince(g0, g)
    ensures WokenSince(g0, Enter(g, WakeCollected))
  {
    var g' := Enter(g, WakeCollected);
    var n, m := |g0.wokenTimers|, |g0.woken|;
    assert g'.woken[m..] == g.woken[m..] + WakersOf(g.collected);
    assert g'.wokenTimers[n..] == g.wokenTimers[n..] + g.collected;
    WakersJoin(g.wokenTimers[n..], g.collected);
    OccursInBoth(WakersOf(g.wokenTimers[n..]), g.woken[m..], WakersOf(g.collected));
  }

  lemma EnterWokenSince(g0: Ledger, g: Ledger, d: Deed)
    requires WokenSince(g0, g)
    ensures WokenSince(g0, Enter(g, d))
  {
    match d
    case Poll(acts) => MoreWoken(g0, g, Enter(g, d), Wakes(acts));
    case Drain => MoreWoken(g0, g, Enter(g, d), Answers(g.queue));
    case WakeCollected => CollectedWoken(g0, g);
    case _ =>
  }

  lemma {:induction false} DeedsWokenSince(g0: Ledger, g: Ledger, ds: seq<Deed>)
    requires WokenSince(g0, g)
    ensures WokenSince(g0, EnterAll(g, ds))
    decreases |ds|
  {
    hide Enter, WokenSince;
    if ds != [] {
      EnterWokenSince(g0, g, ds[0]);
      DeedsWokenSince(g0, Enter(g, ds[0]), ds[1..]);
    }
  }

  lemma {:induction false} EventsWokenSince(g0: Ledger, l: Loop, es: seq<(Event, Script)>)
    requires WokenSince(g0, LedgerOf(l))
    ensures WokenSince(g0, LedgerOf(HandleAll(l, es)))
    decreases |es|
  {
    hide WokenSince, Handle;
    if es != [] {
      var (e, s) := es[0];
      EventDeeds(l, e, s);
      var n := Handle(l, e, s).polls - Posted(l, e, s).polls;
      DeedsWokenSince(g0, LedgerOf(l), PostDeeds(e, s) + TrailDeeds(s.trail, 0, n));
      EventsWokenSince(g0, Handle(l, e, s), es[1..]);
    }
  }

  /** Over every sequence of events, the wakers of the timers put on record as woken are among the `wake`
      calls made meanwhile, in the order of the record. */
  lemma WokenTimersAreWoken(l: Loop, es: seq<(Event, Script)>)
    ensures WokenSince(LedgerOf(l), LedgerOf(HandleAll(l, es)))
  {
    assert WokenSince(LedgerOf(l), LedgerOf(l)) by {
      assert l.wokenTimers[|l.wokenTimers|..] == [];
    }
    EventsWokenSince(LedgerOf(l), l, es);
  }

  /** From a new filter on: a timer on record as woken has had its waker woken. */
  lemma RecordedIsWoken(es: seq<(Event, Script)>, f: Firing)
    requires f in HandleAll(NewFilter(EMPTY), es).wokenTimers
    ensures f.waker in HandleAll(NewFilter(EMPTY), es).shared.woken
  {
    var l' := HandleAll(NewFilter(EMPTY), es);
    WokenTimersAreWoken(NewFilter(EMPTY), es);
    assert l'.wokenTimers[0..] == l'.wokenTimers && l'.shared.woken[0..] == l'.shared.woken;
    var i :| 0 <= i < |l'.wokenTimers| && l'.wokenTimers[i] == f;
    assert WakersOf(l'.wokenTimers)[i] == f.waker;
    OccursInMember(WakersOf(l'.wokenTimers), l'.shared.woken, f.waker);
  }
}
