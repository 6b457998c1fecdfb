/** The doubly linked list that `src/handler.rs` threads through its slab. */
module ListenerList {
  import opened Wrappers

  datatype Listener = Listener(next: Option<nat>, prev: Option<nat>, waker: Option<Waker>, notified: bool)

  type Slab = map<nat, Listener>

  function NextIn(order: seq<nat>, i: nat): Option<nat>
    requires i < |order|
  {
    if i + 1 < |order| then Some(order[i + 1]) else None
  }

  function PrevIn(order: seq<nat>, i: nat): Option<nat>
    requires i < |order|
  {
    if i > 0 then Some(order[i - 1]) else None
  }

  function Ends(order: seq<nat>): Option<(nat, nat)> {
    if order == [] then None else Some((order[0], order[|order| - 1]))
  }

  ghost predicate Distinct(order: seq<nat>) {
    forall i, j :: 0 <= i < j < |order| ==> order[i] != order[j]
  }

  /** The links of every occupied slot, and the pair of ends, are those of the sequence `order`. */
  ghost predicate Threaded(slab: Slab, ends: Option<(nat, nat)>, order: seq<nat>) {
    && Distinct(order)
    && (forall k :: k in slab <==> k in order)
    && ends == Ends(order)
    && (forall i {:trigger slab[order[i]]} :: 0 <= i < |order| ==>
          slab[order[i]].next == NextIn(order, i) && slab[order[i]].prev == PrevIn(order, i))
  }

  // ----- reading the list off its links -----

  /** The keys met by following `next` for at most `fuel` links. */
  function Forward(slab: Slab, at: Option<nat>, fuel: nat): seq<nat>
    decreases fuel
  {
    if fuel == 0 || at.None? || at.value !in slab then []
    else [at.value] + Forward(slab, slab[at.value].next, fuel - 1)
  }

  /** The keys met by following `prev` for at most `fuel` links, the last one met coming first. */
  function Backward(slab: Slab, at: Option<nat>, fuel: nat): seq<nat>
    decreases fuel
  {
    if fuel == 0 || at.None? || at.value !in slab then []
    else Backward(slab, slab[at.value].prev, fuel - 1) + [at.value]
  }

  lemma {:induction false} ForwardFrom(slab: Slab, ends: Option<(nat, nat)>, order: seq<nat>, i: nat, fuel: nat)
    requires Threaded(slab, ends, order) && i < |order| && fuel >= |order| - i
    ensures Forward(slab, Some(order[i]), fuel) == order[i..]
    decreases |order| - i
  {
    assert order[i] in slab && slab[order[i]].next == NextIn(order, i);
    assert order[i..] == [order[i]] + order[i + 1..];
    if i + 1 < |order| {
      ForwardFrom(slab, ends, order, i + 1, fuel - 1);
    }
  }

  lemma {:induction false} BackwardFrom(slab: Slab, ends: Option<(nat, nat)>, order: seq<nat>, i: nat, fuel: nat)
    requires Threaded(slab, ends, order) && i < |order| && fuel >= i + 1
    ensures Backward(slab, Some(order[i]), fuel) == order[..i + 1]
    decreases i
  {
    assert order[i] in slab && slab[order[i]].prev == PrevIn(order, i);
    assert order[..i + 1] == order[..i] + [order[i]];
    if i > 0 {
      BackwardFrom(slab, ends, order, i - 1, fuel - 1);
    }
  }

  /** Following `next` from the head and `prev` from the tail both stop, however long one follows, after
      visiting every occupied slot once; the two walks are each other's reverse. */
  lemma WalksVisitEachOnce(slab: Slab, ends: Option<(nat, nat)>, order: seq<nat>, fuel: nat)
    requires Threaded(slab, ends, order) && ends.Some? && fuel >= |order|
    ensures Forward(slab, Some(ends.value.0), fuel) == order
    ensures Backward(slab, Some(ends.value.1), fuel) == order
    ensures forall k :: k in slab <==> k in Forward(slab, Some(ends.value.0), fuel)
  {
    ForwardFrom(slab, ends, order, 0, fuel);
    BackwardFrom(slab, ends, order, |order| - 1, fuel);
    assert order[..|order|] == order;
  }

  /** The links determine the sequence. */
  lemma OrderUnique(slab: Slab, ends: Option<(nat, nat)>, order: seq<nat>, other: seq<nat>)
    requires Threaded(slab, ends, order) && Threaded(slab, ends, other)
    ensures order == other
  {
    if ends.Some? {
      var fuel := |order| + |other|;
      WalksVisitEachOnce(slab, ends, order, fuel);
      WalksVisitEachOnce(slab, ends, other, fuel);
    }
  }

  // ----- the two link updates -----

  /** The slab after `insert` has linked `index` behind the tail. */
  function Linked(slab: Slab, ends: Option<(nat, nat)>, index: nat, l: Listener): Slab {
    var s1 := slab[index := l];
    if ends.Some? && ends.value.1 in s1 then s1[ends.value.1 := s1[ends.value.1].(next := Some(index))]
    else s1
  }

  lemma AppendThreaded(slab: Slab, ends: Option<(nat, nat)>, order: seq<nat>, index: nat, l: Listener)
    requires Threaded(slab, ends, order) && index !in slab
    requires l.next.None? && l.prev == if ends.Some? then Some(ends.value.1) else None
    ensures Threaded(Linked(slab, ends, index, l), Ends(order + [index]), order + [index])
  {
    var order', slab' := order + [index], Linked(slab, ends, index, l);
    forall i | 0 <= i < |order'|
      ensures slab'[order'[i]].next == NextIn(order', i) && slab'[order'[i]].prev == PrevIn(order', i)
    {
      if i < |order| {
        assert slab[order[i]].next == NextIn(order, i);
      }
    }
  }

  /** The neighbours of a removed listener are linked to each other. */
  function Joined(slab: Slab, l: Listener): Slab {
    var s1 := if l.next.Some? && l.next.value in slab
              then slab[l.next.value := slab[l.next.value].(prev := l.prev)] else slab;
    if l.prev.Some? && l.prev.value in s1 then s1[l.prev.value := s1[l.prev.value].(next := l.next)] else s1
  }

  /** The slab after `remove` has taken `index` out and joined its neighbours. */
  function Unlinked(slab: Slab, index: nat): Slab
    requires index in slab
  {
    Joined(slab - {index}, slab[index])
  }

  lemma WithoutKeys(order: seq<nat>, i: nat)
    requires Distinct(order) && i < |order|
    ensures Distinct(Without(order, i))
    ensures forall k :: k in Without(order, i) <==> k in order && k != order[i]
  {
    var fs := Without(order, i);
    forall k | k in order && k != order[i] ensures k in fs {
      var j :| 0 <= j < |order| && order[j] == k;
      assert fs[if j < i then j else j - 1] == k;
    }
  }

  lemma EndsWithout(order: seq<nat>, i: nat)
    requires Distinct(order) && i < |order|
    ensures order[i] == order[0] <==> i == 0
    ensures order[i] == order[|order| - 1] <==> i == |order| - 1
    ensures Ends(Without(order, i)) ==
      if |order| == 1 then None
      else if i == 0 then Some((order[1], order[|order| - 1]))
      else if i == |order| - 1 then Some((order[0], order[i - 1]))
      else Ends(order)
  {
  }

  lemma NeighboursPresent(slab: Slab, ends: Option<(nat, nat)>, order: seq<nat>, i: nat)
    requires Threaded(slab, ends, order) && i < |order|
    ensures var l := slab[order[i]];
      && l.next == NextIn(order, i) && l.prev == PrevIn(order, i)
      && (l.next.Some? ==> l.next.value in slab - {order[i]})
      && (l.prev.Some? ==> l.prev.value in slab - {order[i]})
  {
    assert slab[order[i]].next == NextIn(order, i);
  }

  /** The case distinction of `remove` on the pair of ends gives the ends of the shorter list. */
  lemma EndsAfterRemove(slab: Slab, ends: Option<(nat, nat)>, order: seq<nat>, i: nat)
    requires Threaded(slab, ends, order) && i < |order|
    ensures ends.Some? && var (head, tail), l, index, after := ends.value, slab[order[i]], order[i], Ends(Without(order, i));
      && (head == index && tail == index ==> after == None)
      && (head == index && tail != index ==> l.next.Some? && after == Some((l.next.value, tail)))
      && (head != index && tail == index ==> l.prev.Some? && after == Some((head, l.prev.value)))
      && (head != index && tail != index ==> after == ends)
  {
    EndsWithout(order, i);
    NeighboursPresent(slab, ends, order, i);
  }

  /** What `remove` does to the links of another slot. */
  lemma UnlinkedAt(slab: Slab, index: nat, k: nat)
    requires index in slab && k in slab && k != index
    ensures var l, u := slab[index], Unlinked(slab, index);
      && k in u
      && u[k].next == (if l.prev == Some(k) then l.next else slab[k].next)
      && u[k].prev == (if l.next == Some(k) then l.prev else slab[k].prev)
      && u[k].waker == slab[k].waker && u[k].notified == slab[k].notified
  {
  }

  lemma UnlinkedKeys(slab: Slab, index: nat)
    requires index in slab
    ensures Unlinked(slab, index).Keys == slab.Keys - {index}
  {
  }

  /** Where the remaining elements and their neighbours stood. */
  lemma WithoutAt(order: seq<nat>, i: nat, j: nat)
    requires i < |order| && j < |order| - 1
    ensures var fs, k := Without(order, i), if j < i then j else j + 1;
      && fs[j] == order[k]
      && NextIn(fs, j) == (if k + 1 == i then NextIn(order, i) else NextIn(order, k))
      && PrevIn(fs, j) == (if k == i + 1 then PrevIn(order, i) else PrevIn(order, k))
  {
    var fs := Without(order, i);
    assert j + 1 < |fs| ==> fs[j + 1] == order[if j + 1 < i then j + 1 else j + 2];
    assert j > 0 ==> fs[j - 1] == order[if j - 1 < i then j - 1 else j];
  }

  /** Only its neighbours are linked to the element at position `i`. */
  lemma LinkedNeighbours(order: seq<nat>, i: nat, k: nat)
    requires Distinct(order) && i < |order| && k < |order|
    ensures PrevIn(order, i) == Some(order[k]) <==> k + 1 == i
    ensures NextIn(order, i) == Some(order[k]) <==> k == i + 1
    ensures k != i ==> order[k] != order[i]
  {
  }

  lemma RemovedLinks(slab: Slab, ends: Option<(nat, nat)>, order: seq<nat>, i: nat, j: nat)
    requires Threaded(slab, ends, order) && i < |order| && j < |order| - 1
    ensures var fs, u := Without(order, i), Unlinked(slab, order[i]);
      fs[j] in u && u[fs[j]].next == NextIn(fs, j) && u[fs[j]].prev == PrevIn(fs, j)
  {
    hide Without, Unlinked, Distinct, NextIn, PrevIn;
    var k := if j < i then j else j + 1;
    WithoutAt(order, i, j);
    LinkedNeighbours(order, i, k);
    assert slab[order[i]].next == NextIn(order, i) && slab[order[i]].prev == PrevIn(order, i);
    assert slab[order[k]].next == NextIn(order, k) && slab[order[k]].prev == PrevIn(order, k);
    UnlinkedAt(slab, order[i], order[k]);
  }

  lemma RemoveThreaded(slab: Slab, ends: Option<(nat, nat)>, order: seq<nat>, i: nat)
    requires Threaded(slab, ends, order) && i < |order|
    ensures Threaded(Unlinked(slab, order[i]), Ends(Without(order, i)), Without(order, i))
  {
    var fs, u := Without(order, i), Unlinked(slab, order[i]);
    WithoutKeys(order, i);
    UnlinkedKeys(slab, order[i]);
    forall j | 0 <= j < |fs|
      ensures fs[j] in u && u[fs[j]].next == NextIn(fs, j) && u[fs[j]].prev == PrevIn(fs, j)
    {
      RemovedLinks(slab, ends, order, i, j);
    }
  }
}
