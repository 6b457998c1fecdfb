/** The timers of `src/reactor.rs` as their clients see them: a set of live timers, changed at once by
    every insert and remove. `Reactor.dfy` proves that the deferred store, with its queue of pending
    operations, is indistinguishable from it. */
module TimerStore {
  import opened Wrappers

  /** A point in time in nanoseconds. */
  type Instant = int

  datatype Key = Key(deadline: Instant, id: nat)

  datatype Firing = Firing(key: Key, waker: Waker)

  type Wheel = map<Key, Waker>

  /** `live` holds the timers that can still fire and `nextId` is the id counter; `issued`, `fired` and
      `cancelled` are history. */
  datatype Timers = Timers(live: Wheel, nextId: nat, issued: Wheel, fired: seq<Firing>, cancelled: set<Key>)

  const NO_TIMERS := Timers(map[], 1, map[], [], {})

  /** The order of the keys of the timer map. */
  predicate Before(a: Key, b: Key) {
    a.deadline < b.deadline || (a.deadline == b.deadline && a.id < b.id)
  }

  ghost predicate IsLeast(k: Key, m: Wheel) {
    k in m && forall j :: j in m && j != k ==> Before(k, j)
  }

  lemma {:induction false} LeastExists(m: Wheel)
    requires m != map[]
    ensures exists k :: IsLeast(k, m)
    decreases |m|
  {
    var k :| k in m;
    var rest := m - {k};
    if rest == map[] {
      assert rest.Keys == m.Keys - {k};
      assert m.Keys == rest.Keys + {k};
      assert IsLeast(k, m);
    } else {
      LeastExists(rest);
      var l :| IsLeast(l, rest);
      var best := if Before(k, l) then k else l;
      assert IsLeast(best, m) by {
        forall j | j in m && j != best ensures Before(best, j) { assert j == k || j in rest; }
      }
    }
  }

  ghost function Least(m: Wheel): (k: Key)
    requires m != map[]
    ensures IsLeast(k, m)
  {
    LeastExists(m);
    var k :| IsLeast(k, m);
    k
  }

  /** The contents of the map in key order. */
  ghost function InOrder(m: Wheel): seq<Firing>
    decreases |m|
  {
    if m == map[] then [] else [Firing(Least(m), m[Least(m)])] + InOrder(m - {Least(m)})
  }

  ghost predicate Sorted(fs: seq<Firing>) {
    forall i, j :: 0 <= i < j < |fs| ==> Before(fs[i].key, fs[j].key)
  }

  /** That listing is strictly sorted and has exactly the map's items. */
  lemma {:induction false} InOrderSorted(m: Wheel)
    ensures Sorted(InOrder(m))
    ensures forall f :: f in InOrder(m) <==> f.key in m && m[f.key] == f.waker
    decreases |m|
  {
    if m != map[] {
      var k := Least(m);
      InOrderSorted(m - {k});
      assert InOrder(m)[0] == Firing(k, m[k]);
    }
  }

  lemma OneListed(m: Wheel, k: Key, w: Waker)
    requires m == map[k := w]
    ensures InOrder(m) == [Firing(k, w)]
  {
    assert k in m;
    assert Least(m) == k;
    assert m - {k} == map[];
  }

  function Due(m: Wheel, now: Instant): Wheel {
    map k | k in m && k.deadline <= now :: m[k]
  }

  function Later(m: Wheel, now: Instant): Wheel {
    map k | k in m && k.deadline > now :: m[k]
  }

  // ----- the three operations -----

  function Insert(t: Timers, deadline: Instant, waker: Waker): Timers {
    var key := Key(deadline, t.nextId);
    t.(live := t.live[key := waker], nextId := t.nextId + 1, issued := t.issued[key := waker])
  }

  function Remove(t: Timers, key: Key): Timers {
    if key in t.live then t.(live := t.live - {key}, cancelled := t.cancelled + {key}) else t
  }

  ghost function Process(t: Timers, now: Instant): Timers {
    t.(live := Later(t.live, now), fired := t.fired + InOrder(Due(t.live, now)))
  }

  /** What `process_timers` returns: `now` when something fired, else the least pending deadline. */
  ghost function NextDeadline(m: Wheel, now: Instant): Option<Instant> {
    if Due(m, now) != map[] then Some(now)
    else if m == map[] then None
    else Some(Least(m).deadline)
  }

  datatype Command = InsertTimer(deadline: Instant, waker: Waker) | RemoveTimer(key: Key) | ProcessAt(now: Instant)

  /** What the caller sees of a command: the id, nothing, or the wakers in order and the deadline. */
  datatype Seen = Id(id: nat) | Nothing | Fired(firings: seq<Firing>, deadline: Option<Instant>)

  ghost function Do(t: Timers, c: Command): Timers {
    match c
    case InsertTimer(deadline, waker) => Insert(t, deadline, waker)
    case RemoveTimer(key) => Remove(t, key)
    case ProcessAt(now) => Process(t, now)
  }

  ghost function Sees(t: Timers, c: Command): Seen {
    match c
    case InsertTimer(_, _) => Id(t.nextId)
    case RemoveTimer(_) => Nothing
    case ProcessAt(now) => Fired(InOrder(Due(t.live, now)), NextDeadline(t.live, now))
  }

  ghost function DoAll(t: Timers, cs: seq<Command>): Timers
    decreases |cs|
  {
    if cs == [] then t else DoAll(Do(t, cs[0]), cs[1..])
  }

  ghost function SeesAll(t: Timers, cs: seq<Command>): seq<Seen>
    decreases |cs|
  {
    if cs == [] then [] else [Sees(t, cs[0])] + SeesAll(Do(t, cs[0]), cs[1..])
  }

  // ----- conservation -----

  ghost predicate FiredKey(t: Timers, k: Key) {
    exists i :: 0 <= i < |t.fired| && t.fired[i].key == k
  }

  /** Every key ever issued has its own id and is in exactly one place: live, fired once, or cancelled;
      and it is there with the waker it was inserted with. */
  ghost predicate Conserved(t: Timers) {
    && t.nextId >= 1
    && (forall k :: k in t.issued ==> 1 <= k.id < t.nextId)
    && (forall k, j :: k in t.issued && j in t.issued && k.id == j.id ==> k == j)
    && (forall k :: k in t.live ==> k in t.issued && t.issued[k] == t.live[k])
    && (forall i :: 0 <= i < |t.fired| ==>
          t.fired[i].key in t.issued && t.issued[t.fired[i].key] == t.fired[i].waker)
    && (forall i, j :: 0 <= i < j < |t.fired| ==> t.fired[i].key != t.fired[j].key)
    && (forall k :: k in t.cancelled ==> k in t.issued)
    && (forall k :: k in t.live ==> k !in t.cancelled)
    && (forall k :: k in t.live ==> !FiredKey(t, k))
    && (forall k :: k in t.cancelled ==> !FiredKey(t, k))
    && (forall k :: k in t.issued ==> k in t.live || k in t.cancelled || FiredKey(t, k))
  }

  lemma InsertConserves(t: Timers, deadline: Instant, waker: Waker)
    requires Conserved(t)
    ensures Conserved(Insert(t, deadline, waker))
  {
    var t' := Insert(t, deadline, waker);
    var key := Key(deadline, t.nextId);
    assert key !in t.issued;
    assert !FiredKey(t', key);
    forall k | k in t.issued ensures FiredKey(t', k) <==> FiredKey(t, k) { }
  }

  lemma RemoveConserves(t: Timers, key: Key)
    requires Conserved(t)
    ensures Conserved(Remove(t, key))
  {
    var t' := Remove(t, key);
    forall k ensures FiredKey(t', k) <==> FiredKey(t, k) { }
  }

  lemma ProcessFires(t: Timers, now: Instant, k: Key)
    ensures FiredKey(Process(t, now), k) <==> FiredKey(t, k) || k in Due(t.live, now)
  {
    var t', fs := Process(t, now), InOrder(Due(t.live, now));
    InOrderSorted(Due(t.live, now));
    if FiredKey(t', k) {
      var i :| 0 <= i < |t'.fired| && t'.fired[i].key == k;
      if i >= |t.fired| {
        assert t'.fired[i] in fs;
      } else {
        assert t.fired[i].key == k;
      }
    }
    if FiredKey(t, k) {
      var i :| 0 <= i < |t.fired| && t.fired[i].key == k;
      assert t'.fired[i].key == k;
    }
    if k in Due(t.live, now) {
      assert Firing(k, t.live[k]) in fs;
      var i :| 0 <= i < |fs| && fs[i] == Firing(k, t.live[k]);
      assert t'.fired[|t.fired| + i].key == k;
    }
  }

  lemma ProcessConserves(t: Timers, now: Instant)
    requires Conserved(t)
    ensures Conserved(Process(t, now))
  {
    var t', fs := Process(t, now), InOrder(Due(t.live, now));
    InOrderSorted(Due(t.live, now));
    forall i | 0 <= i < |t'.fired|
      ensures t'.fired[i] == if i < |t.fired| then t.fired[i] else fs[i - |t.fired|]
      ensures i >= |t.fired| ==> t'.fired[i].key in t.live && t'.fired[i].waker == t.live[t'.fired[i].key]
    {
      if i >= |t.fired| {
        assert t'.fired[i] in fs;
      }
    }
    forall k ensures FiredKey(t', k) <==> FiredKey(t, k) || k in Due(t.live, now) {
      ProcessFires(t, now, k);
    }
  }

  lemma DoConserves(t: Timers, c: Command)
    requires Conserved(t)
    ensures Conserved(Do(t, c))
  {
    match c
    case InsertTimer(deadline, waker) => InsertConserves(t, deadline, waker);
    case RemoveTimer(key) => RemoveConserves(t, key);
    case ProcessAt(now) => ProcessConserves(t, now);
  }

  /** Whatever is done to the timers, no waker is lost and none is used twice. */
  lemma {:induction false} AlwaysConserved(t: Timers, cs: seq<Command>)
    requires Conserved(t)
    ensures Conserved(DoAll(t, cs))
    decreases |cs|
  {
    if cs != [] {
      DoConserves(t, cs[0]);
      AlwaysConserved(Do(t, cs[0]), cs[1..]);
    }
  }

  // ----- exactness -----

  /** `process_timers` moves out precisely the live timers that are due, in key order, each with its
      waker, keeps every later one, and the deadline it returns is `now` if something fired and else
      that of the first pending timer. */
  lemma ProcessExact(t: Timers, now: Instant)
    ensures var fs := InOrder(Due(t.live, now));
      && Process(t, now).fired == t.fired + fs
      && Sorted(fs)
      && (forall f :: f in fs <==> f.key in t.live && f.key.deadline <= now && t.live[f.key] == f.waker)
      && (forall k :: k in Process(t, now).live <==> k in t.live && k.deadline > now)
      && (fs != [] ==> NextDeadline(t.live, now) == Some(now))
      && (fs == [] ==> match NextDeadline(t.live, now)
            case None => t.live == map[]
            case Some(d) => d > now && (exists k :: k in t.live && k.deadline == d)
                            && (forall k :: k in t.live ==> d <= k.deadline))
  {
    InOrderSorted(Due(t.live, now));
    if Due(t.live, now) == map[] && t.live != map[] {
      var k := Least(t.live);
      assert k !in Due(t.live, now);
      forall j | j in t.live ensures k.deadline <= j.deadline { assert j == k || Before(k, j); }
    }
  }

  /** A key that is issued but not live never comes back. */
  lemma {:induction false} GoneForGood(t: Timers, key: Key, cs: seq<Command>)
    requires Conserved(t) && key.id < t.nextId && key !in t.live
    ensures key !in DoAll(t, cs).live
    ensures forall i :: |t.fired| <= i < |DoAll(t, cs).fired| ==> DoAll(t, cs).fired[i].key != key
    ensures |t.fired| <= |DoAll(t, cs).fired|
    decreases |cs|
  {
    if cs != [] {
      var t1 := Do(t, cs[0]);
      DoConserves(t, cs[0]);
      if cs[0].ProcessAt? {
        InOrderSorted(Due(t.live, cs[0].now));
        assert forall i :: |t.fired| <= i < |t1.fired| ==> t1.fired[i] in InOrder(Due(t.live, cs[0].now));
      }
      GoneForGood(t1, key, cs[1..]);
      FiredOnlyGrows(t1, cs[1..]);
    }
  }

  lemma {:induction false} FiredOnlyGrows(t: Timers, cs: seq<Command>)
    ensures t.fired <= DoAll(t, cs).fired
    decreases |cs|
  {
    if cs != [] {
      FiredOnlyGrows(Do(t, cs[0]), cs[1..]);
    }
  }

  /** A timer whose `remove_timer` has returned never fires afterwards, whatever is done next. */
  lemma RemovedNeverFires(t: Timers, key: Key, cs: seq<Command>)
    requires Conserved(t) && key.id < t.nextId
    ensures var t' := DoAll(Remove(t, key), cs);
      key !in t'.live && |t.fired| <= |t'.fired|
      && forall i :: |t.fired| <= i < |t'.fired| ==> t'.fired[i].key != key
  {
    RemoveConserves(t, key);
    GoneForGood(Remove(t, key), key, cs);
  }
}
