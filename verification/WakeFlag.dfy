/** The wake flag of `src/filter.rs` under any number of threads. A step is one atomic access: the three
    of `ReactorWaker::notify`, the trailing loop's swap, the start and the end of the poll it leads to,
    and the store that marks the loop as started. All of them are sequentially consistent. */
module WakeFlag {

  /** The trailing loop: not polling, between a swap that found the flag up and its poll, or polling. */
  datatype Main = Outside | Consumed | Polling

  /** A call of `notify` that raised the flag: about to look at `awake`, or about to send. */
  datatype Call = Raised | Sending

  /** `unserved` counts the calls of `notify` that have passed the flag since the last poll began, where
      the flag's initial value counts as one; `raises`, `consumes` and `skips` count what their names say;
      `gaps` has one number for each send, the consuming swaps between it and the send before, and
      `sinceSend` counts those since the last. */
  datatype Flag = Flag(
    notified: bool,
    awake: bool,
    main: Main,
    calls: map<nat, Call>,
    unserved: nat,
    raises: nat,
    consumes: nat,
    gaps: seq<nat>,
    skips: nat,
    sinceSend: nat)

  const INITIAL := Flag(true, false, Outside, map[], 1, 1, 0, [], 0, 0)

  datatype Step =
    | NotifySwap(thread: nat)
    | LoadAwake(thread: nat)
    | Send(thread: nat)
    | SwapFlag
    | BeginPoll
    | EndPoll
    | SetAwake

  predicate Enabled(f: Flag, s: Step) {
    match s
    case NotifySwap(t) => t !in f.calls
    case LoadAwake(t) => t in f.calls && f.calls[t].Raised?
    case Send(t) => t in f.calls && f.calls[t].Sending?
    case SwapFlag => f.main.Outside?
    case BeginPoll => f.main.Consumed?
    case EndPoll => f.main.Polling?
    case SetAwake => f.main.Outside?
  }

  function Next(f: Flag, s: Step): Flag
    requires Enabled(f, s)
  {
    match s
    case NotifySwap(t) =>
      if f.notified then f.(unserved := f.unserved + 1)
      else f.(notified := true, unserved := f.unserved + 1, raises := f.raises + 1, calls := f.calls[t := Raised])
    case LoadAwake(t) =>
      if f.awake then f.(calls := f.calls - {t}, skips := f.skips + 1) else f.(calls := f.calls[t := Sending])
    case Send(t) => f.(calls := f.calls - {t}, gaps := f.gaps + [f.sinceSend], sinceSend := 0)
    case SwapFlag =>
      if f.notified
      then f.(notified := false, main := Consumed, consumes := f.consumes + 1, sinceSend := f.sinceSend + 1)
      else f
    case BeginPoll => f.(main := Polling, unserved := 0)
    case EndPoll => f.(main := Outside)
    case SetAwake => f.(awake := true)
  }

  predicate Legal(f: Flag, steps: seq<Step>)
    decreases |steps|
  {
    steps == [] || (Enabled(f, steps[0]) && Legal(Next(f, steps[0]), steps[1..]))
  }

  function After(f: Flag, steps: seq<Step>): Flag
    requires Legal(f, steps)
    decreases |steps|
  {
    if steps == [] then f else After(Next(f, steps[0]), steps[1..])
  }

  /** Every notify since the last poll began still has the flag up, or the poll that serves it is the next
      thing the loop does; every raise but the last has been consumed; and every raise has led to a send
      or a skip or is on its way to one. */
  ghost predicate Inv(f: Flag) {
    && (f.unserved > 0 ==> f.notified || f.main.Consumed?)
    && f.raises == f.consumes + (if f.notified then 1 else 0)
    && f.raises == 1 + |f.gaps| + f.skips + |f.calls|
  }

  lemma CallCounts(calls: map<nat, Call>, t: nat, c: Call)
    ensures |calls[t := c]| == if t in calls then |calls| else |calls| + 1
    ensures |calls - {t}| == if t in calls then |calls| - 1 else |calls|
  {
    assert calls[t := c].Keys == calls.Keys + {t};
    assert (calls - {t}).Keys == calls.Keys - {t};
    assert t in calls ==> calls.Keys + {t} == calls.Keys;
    assert t !in calls ==> calls.Keys - {t} == calls.Keys;
  }

  lemma NextKeeps(f: Flag, s: Step)
    requires Inv(f) && Enabled(f, s)
    ensures Inv(Next(f, s))
  {
    match s
    case NotifySwap(t) => CallCounts(f.calls, t, Raised);
    case LoadAwake(t) => CallCounts(f.calls, t, Sending);
    case Send(t) => CallCounts(f.calls, t, Sending);
    case _ =>
  }

  lemma {:induction false} AlwaysInv(f: Flag, steps: seq<Step>)
    requires Inv(f) && Legal(f, steps)
    ensures Inv(After(f, steps))
    decreases |steps|
  {
    if steps != [] {
      NextKeeps(f, steps[0]);
      AlwaysInv(Next(f, steps[0]), steps[1..]);
    }
  }

  /** However the threads interleave, no notify is lost: one that no poll has served finds the loop about
      to poll, or its next swap will make it poll; and there are no more wake-ups through the proxy than
      consuming swaps. */
  lemma NoNotifyLost(steps: seq<Step>)
    requires Legal(INITIAL, steps)
    ensures var f := After(INITIAL, steps);
      && (f.unserved > 0 ==>
            || f.main.Consumed?
            || (f.main.Outside? && Next(f, SwapFlag).main.Consumed?)
            || (f.main.Polling? && Next(Next(f, EndPoll), SwapFlag).main.Consumed?))
      && |f.gaps| <= f.consumes
  {
    AlwaysInv(INITIAL, steps);
  }

  /** A call of `notify` is served: until the next poll begins, the flag is up or that poll is due. */
  lemma NotifyIsServed(f: Flag, t: nat, steps: seq<Step>)
    requires Enabled(f, NotifySwap(t)) && Legal(Next(f, NotifySwap(t)), steps)
    requires forall i :: 0 <= i < |steps| ==> !steps[i].BeginPoll?
    ensures var f' := After(Next(f, NotifySwap(t)), steps); f'.notified || f'.main.Consumed?
  {
    UpUntilPolled(Next(f, NotifySwap(t)), steps);
  }

  lemma {:induction false} UpUntilPolled(f: Flag, steps: seq<Step>)
    requires (f.notified || f.main.Consumed?) && Legal(f, steps)
    requires forall i :: 0 <= i < |steps| ==> !steps[i].BeginPoll?
    ensures After(f, steps).notified || After(f, steps).main.Consumed?
    decreases |steps|
  {
    if steps != [] {
      UpUntilPolled(Next(f, steps[0]), steps[1..]);
    }
  }

  // ----- sends and consuming swaps -----

  lemma Prepend(f: Flag, s: Step, rest: seq<Step>)
    requires Enabled(f, s) && Legal(Next(f, s), rest)
    ensures Legal(f, [s] + rest)
  {
    assert ([s] + rest)[1..] == rest;
  }

  /** The last two steps are sends. */
  predicate EndsInTwoSends(steps: seq<Step>) {
    |steps| >= 2 && steps[|steps| - 1].Send? && steps[|steps| - 2].Send?
  }

  /** The bound does not put a consuming swap between any two sends: two calls can raise the flag, one
      after the other, and then both send. */
  lemma TwoSendsInARow()
    ensures exists steps :: Legal(INITIAL, steps) && EndsInTwoSends(steps)
  {
    var f1 := Next(Next(INITIAL, SwapFlag), NotifySwap(1));
    var f2 := Next(Next(Next(f1, BeginPoll), EndPoll), SwapFlag);
    var f3 := Next(Next(Next(f2, NotifySwap(2)), LoadAwake(1)), LoadAwake(2));
    var sends := [Send(1)] + [Send(2)];
    Prepend(Next(f3, Send(1)), Send(2), []);
    assert [Send(2)] + [] == [Send(2)];
    Prepend(f3, Send(1), [Send(2)]);
    var tail := [NotifySwap(2)] + ([LoadAwake(1)] + ([LoadAwake(2)] + sends));
    Prepend(Next(Next(f2, NotifySwap(2)), LoadAwake(1)), LoadAwake(2), sends);
    Prepend(Next(f2, NotifySwap(2)), LoadAwake(1), [LoadAwake(2)] + sends);
    Prepend(f2, NotifySwap(2), [LoadAwake(1)] + ([LoadAwake(2)] + sends));
    Prepend(Next(Next(f1, BeginPoll), EndPoll), SwapFlag, tail);
    Prepend(Next(f1, BeginPoll), EndPoll, [SwapFlag] + tail);
    Prepend(f1, BeginPoll, [EndPoll] + ([SwapFlag] + tail));
    Prepend(Next(INITIAL, SwapFlag), NotifySwap(1), [BeginPoll] + ([EndPoll] + ([SwapFlag] + tail)));
    Prepend(INITIAL, SwapFlag, [NotifySwap(1)] + ([BeginPoll] + ([EndPoll] + ([SwapFlag] + tail))));
    assert EndsInTwoSends([SwapFlag] + ([NotifySwap(1)] + ([BeginPoll] + ([EndPoll] + ([SwapFlag] + tail)))));
  }

  /** The calls that are about to send. */
  ghost function Senders(calls: map<nat, Call>): set<nat> {
    set t | t in calls && calls[t].Sending?
  }

  /** How many sends there can still be before the flag is next consumed. */
  ghost function Budget(f: Flag): nat {
    if f.awake then |Senders(f.calls)| else |f.calls| + if f.notified then 0 else 1
  }

  predicate Consuming(f: Flag, s: Step) {
    s.SwapFlag? && f.notified
  }

  predicate ConsumesNothing(f: Flag, steps: seq<Step>)
    requires Legal(f, steps)
    decreases |steps|
  {
    steps == [] || (!Consuming(f, steps[0]) && ConsumesNothing(Next(f, steps[0]), steps[1..]))
  }

  lemma SendersBounded(calls: map<nat, Call>)
    ensures |Senders(calls)| <= |calls|
  {
    SubsetSize(Senders(calls), calls.Keys);
  }

  lemma SendersWithout(calls: map<nat, Call>, t: nat)
    requires t in calls
    ensures Senders(calls - {t}) == Senders(calls) - {t}
    ensures |Senders(calls - {t})| + (if calls[t].Sending? then 1 else 0) == |Senders(calls)|
  {
    assert Senders(calls - {t}) == Senders(calls) - {t};
  }

  lemma SendersWith(calls: map<nat, Call>, t: nat)
    requires t !in calls
    ensures Senders(calls[t := Raised]) == Senders(calls)
  {
  }

  lemma {:induction false} SubsetSize(a: set<nat>, b: set<nat>)
    requires a <= b
    ensures |a| <= |b|
    decreases a
  {
    if a != {} {
      var t :| t in a;
      SubsetSize(a - {t}, b - {t});
    }
  }

  /** A send takes one off the budget, and no step but a consuming swap adds to it. */
  lemma BudgetStep(f: Flag, s: Step)
    requires Enabled(f, s) && !Consuming(f, s)
    ensures Budget(Next(f, s)) + (if s.Send? then 1 else 0) <= Budget(f)
  {
    match s
    case NotifySwap(t) =>
      CallCounts(f.calls, t, Raised);
      SendersWith(f.calls, t);
    case LoadAwake(t) =>
      CallCounts(f.calls, t, Sending);
      SendersWithout(f.calls, t);
    case Send(t) =>
      CallCounts(f.calls, t, Sending);
      SendersWithout(f.calls, t);
    case SetAwake => SendersBounded(f.calls);
    case _ =>
  }

  /** A stretch without a consuming swap has no more sends than the budget. */
  lemma {:induction false} SendsWithinBudget(f: Flag, steps: seq<Step>)
    requires Legal(f, steps) && ConsumesNothing(f, steps)
    ensures |f.gaps| <= |After(f, steps).gaps|
    ensures |After(f, steps).gaps| + Budget(After(f, steps)) <= |f.gaps| + Budget(f)
    decreases |steps|
  {
    hide Budget;
    if steps != [] {
      BudgetStep(f, steps[0]);
      SendsWithinBudget(Next(f, steps[0]), steps[1..]);
    }
  }

  /** From `f` to `f'` there were `|f'.gaps| - |f.gaps|` sends, and no consuming swap. */
  ghost predicate SentInARow(f: Flag, f': Flag) {
    && |f.gaps| <= |f'.gaps| && f'.gaps[..|f.gaps|] == f.gaps
    && (forall i :: |f.gaps| <= i < |f'.gaps| ==> f'.gaps[i] == if i == |f.gaps| then f.sinceSend else 0)
    && f'.sinceSend == if |f'.gaps| == |f.gaps| then f.sinceSend else 0
  }

  lemma SentOneMore(f: Flag, f1: Flag, f': Flag)
    requires f1.gaps == f.gaps + [f.sinceSend] && f1.sinceSend == 0 && SentInARow(f1, f')
    ensures SentInARow(f, f')
  {
    assert f'.gaps[..|f.gaps|] == f1.gaps[..|f.gaps|];
    assert f'.gaps[|f.gaps|] == f1.gaps[|f.gaps|];
  }

  lemma {:induction false} SendsInARow(f: Flag, steps: seq<Step>)
    requires Legal(f, steps) && ConsumesNothing(f, steps)
    ensures SentInARow(f, After(f, steps))
    decreases |steps|
  {
    if steps != [] {
      var f1 := Next(f, steps[0]);
      SendsInARow(f1, steps[1..]);
      if steps[0].Send? {
        SentOneMore(f, f1, After(f, steps));
      }
    }
  }

  /** Such a stretch with exactly `n` sends. */
  ghost predicate SendsExactly(f: Flag, steps: seq<Step>, n: nat) {
    Legal(f, steps) && ConsumesNothing(f, steps) && |After(f, steps).gaps| == |f.gaps| + n
  }

  lemma PrependSends(f: Flag, s: Step, rest: seq<Step>, n: nat)
    requires Enabled(f, s) && !Consuming(f, s) && SendsExactly(Next(f, s), rest, n)
    ensures SendsExactly(f, [s] + rest, n + if s.Send? then 1 else 0)
  {
    assert ([s] + rest)[1..] == rest;
  }

  /** A call that is about to send, sends. */
  lemma SendOne(f: Flag, t: nat)
    requires t in f.calls && f.calls[t].Sending?
    ensures Enabled(f, Send(t)) && Budget(Next(f, Send(t))) + 1 == Budget(f)
    ensures |Next(f, Send(t)).calls| < |f.calls| && Next(f, Send(t)).notified == f.notified
  {
    CallCounts(f.calls, t, Sending);
    SendersWithout(f.calls, t);
  }

  /** With a budget there is a step that does not consume and leads to the next send: by a call about to
      send, one about to look at `awake`, or a new one. */
  lemma SpendStep(f: Flag) returns (s: Step)
    requires Budget(f) > 0
    ensures Enabled(f, s) && !Consuming(f, s)
    ensures Budget(Next(f, s)) + (if s.Send? then 1 else 0) == Budget(f)
    ensures Pending(Next(f, s)) < Pending(f)
  {
    if t :| t in Senders(f.calls) {
      s := Send(t);
      SendOne(f, t);
      RaisersAfter(f.calls, t);
    } else if t :| t in f.calls {
      assert Senders(f.calls) == {};
      s := LoadAwake(t);
      CallCounts(f.calls, t, Sending);
      RaisersAfter(f.calls, t);
    } else {
      assert Senders(f.calls) == {};
      s := NotifySwap(0);
      CallCounts(f.calls, 0, Raised);
      SubsetSize(Raisers(f.calls[0 := Raised]), {0});
    }
  }

  ghost function Raisers(calls: map<nat, Call>): set<nat> {
    set t | t in calls && calls[t].Raised?
  }

  ghost function Pending(f: Flag): nat {
    |f.calls| + |Raisers(f.calls)| + if f.notified then 0 else 3
  }

  lemma RaisersAfter(calls: map<nat, Call>, t: nat)
    requires t in calls
    ensures calls[t].Sending? ==> Raisers(calls - {t}) == Raisers(calls)
    ensures calls[t].Raised? ==> |Raisers(calls[t := Sending])| < |Raisers(calls)|
  {
    assert Raisers(calls[t := Sending]) == Raisers(calls) - {t};
  }

  /** Within its budget a stretch can have any number of sends. */
  lemma {:induction false} BudgetCanBeSpent(f: Flag, n: nat)
    requires n <= Budget(f)
    ensures exists steps :: SendsExactly(f, steps, n)
    decreases Pending(f)
  {
    hide Budget, Next, Pending;
    if n == 0 {
      assert SendsExactly(f, [], 0);
    } else {
      var s := SpendStep(f);
      var m := if s.Send? then n - 1 else n;
      BudgetCanBeSpent(Next(f, s), m);
      var rest :| SendsExactly(Next(f, s), rest, m);
      PrependSends(f, s, rest, m);
    }
  }

  /** There can be `n` sends before the next consuming swap if and only if the budget allows them: before
      the loop has started, one for each call in flight and one more if the flag is down; afterwards, one
      for each call that has looked at `awake` already. */
  lemma SendsPossibleIff(f: Flag, n: nat)
    ensures (exists steps :: SendsExactly(f, steps, n)) <==> n <= Budget(f)
  {
    if n <= Budget(f) {
      BudgetCanBeSpent(f, n);
    }
    if steps :| SendsExactly(f, steps, n) {
      SendsWithinBudget(f, steps);
    }
  }

  /** A consuming swap lies between any two sends there have been. */
  ghost predicate Apart(f: Flag) {
    forall i :: 0 < i < |f.gaps| ==> f.gaps[i] >= 1
  }

  /** And before the next consuming swap no send can follow another one. */
  ghost predicate Spaced(f: Flag) {
    Apart(f) && Budget(f) + (if f.gaps != [] && f.sinceSend == 0 then 1 else 0) <= 1
  }

  /** The swap consumes the flag, before the loop has started, while a call that raised it is in flight. */
  predicate Overtakes(f: Flag, s: Step) {
    Consuming(f, s) && !f.awake && f.calls != map[]
  }

  predicate NeverOvertakes(f: Flag, steps: seq<Step>)
    requires Legal(f, steps)
    decreases |steps|
  {
    steps == [] || (!Overtakes(f, steps[0]) && NeverOvertakes(Next(f, steps[0]), steps[1..]))
  }

  lemma SpacedStep(f: Flag, s: Step)
    requires Spaced(f) && Enabled(f, s)
    ensures Spaced(Next(f, s)) <==> !Overtakes(f, s)
  {
    if Consuming(f, s) {
      assert |f.calls| == 0 <==> f.calls == map[];
    } else {
      BudgetStep(f, s);
    }
  }

  /** Whatever happens before the next consuming swap, the sends stay apart. */
  ghost predicate CannotMeet(f: Flag) {
    forall steps :: Legal(f, steps) && ConsumesNothing(f, steps) ==> Apart(After(f, steps))
  }

  lemma CannotMeetIff(f: Flag)
    requires Apart(f)
    ensures CannotMeet(f) <==> Spaced(f)
  {
    if Spaced(f) {
      forall steps | Legal(f, steps) && ConsumesNothing(f, steps) ensures Apart(After(f, steps)) {
        SendsWithinBudget(f, steps);
        SendsInARow(f, steps);
        assert After(f, steps).gaps[..|f.gaps|] == f.gaps;
      }
    } else {
      BudgetCanBeSpent(f, Budget(f));
      var steps :| SendsExactly(f, steps, Budget(f));
      SendsInARow(f, steps);
      var i := |After(f, steps).gaps| - 1;
      assert i > 0 && After(f, steps).gaps[i] == 0;
    }
  }

  /** At no point of the run could two sends follow each other before the next consuming swap. */
  ghost predicate NeverMeet(f: Flag, steps: seq<Step>)
    requires Legal(f, steps)
    decreases |steps|
  {
    CannotMeet(f) && (steps == [] || NeverMeet(Next(f, steps[0]), steps[1..]))
  }

  /** A consuming swap lies between any two sends, of the run and of what may follow before the flag is
      next consumed, if and only if no consuming swap overtakes a call in flight before the loop has
      started. */
  lemma {:induction false} SendsApartIff(f: Flag, steps: seq<Step>)
    requires Spaced(f) && Legal(f, steps)
    ensures NeverMeet(f, steps) <==> NeverOvertakes(f, steps)
    ensures NeverOvertakes(f, steps) ==> Spaced(After(f, steps))
    decreases |steps|
  {
    CannotMeetIff(f);
    if steps != [] {
      var f1 := Next(f, steps[0]);
      SpacedStep(f, steps[0]);
      if Overtakes(f, steps[0]) {
        CannotMeetIff(f1);
      } else {
        SendsApartIff(f1, steps[1..]);
      }
    }
  }

  lemma StartsSpaced()
    ensures Spaced(INITIAL)
  {
  }

  // ----- after the loop has started -----

  /** The loop has started once it has set `awake`, and stays so. */
  lemma {:induction false} StartedIff(f: Flag, steps: seq<Step>)
    requires Legal(f, steps)
    ensures After(f, steps).awake <==> f.awake || SetAwake in steps
    decreases |steps|
  {
    if steps != [] {
      assert SetAwake in steps <==> steps[0] == SetAwake || SetAwake in steps[1..];
      StartedIff(Next(f, steps[0]), steps[1..]);
    }
  }

  /** Nothing clears `awake`. Once it is set, the calls that had looked at it before are the only ones that
      send, each once: a notify that comes later raises the flag and wakes nobody. */
  lemma {:induction false} SendsOnceAwake(f: Flag, steps: seq<Step>)
    requires f.awake && Legal(f, steps)
    ensures var f' := After(f, steps);
      f'.awake && |f'.gaps| + |Senders(f'.calls)| == |f.gaps| + |Senders(f.calls)|
      && Senders(f'.calls) <= Senders(f.calls)
    decreases |steps|
  {
    if steps != [] {
      AwakeStep(f, steps[0]);
      SendsOnceAwake(Next(f, steps[0]), steps[1..]);
    }
  }

  lemma AwakeStep(f: Flag, s: Step)
    requires f.awake && Enabled(f, s)
    ensures var f' := Next(f, s);
      f'.awake && |f'.gaps| + |Senders(f'.calls)| == |f.gaps| + |Senders(f.calls)|
      && Senders(f'.calls) <= Senders(f.calls)
  {
    if s.Send? || s.LoadAwake? {
      SendersWithout(f.calls, s.thread);
    } else if s.NotifySwap? {
      SendersWith(f.calls, s.thread);
    }
  }
}
