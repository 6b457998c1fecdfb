/** Small value types shared by the models. */
module Wrappers {

  datatype Option<+T> = None | Some(value: T)

  /** The result of polling a future or a stream. */
  datatype Poll<+T> = Pending | Ready(value: T)

  /** A task handle. `LoopWaker` is the filter's cached `notifier_waker`, `ParkWaker` its cached
      `parker_waker`; every other waker is a `TaskWaker`, and `relays` says whether waking it also
      reaches the filter (a sub-executor inside the user's future does so). Two wakers `will_wake`
      each other exactly when they are equal. */
  datatype Waker = LoopWaker | ParkWaker | TaskWaker(task: nat, relays: bool)

  predicate ReachesLoop(w: Waker) {
    w.LoopWaker? || w.ParkWaker? || w.relays
  }

  /** The sequence with the element at position `i` taken out. */
  function Without<T>(s: seq<T>, i: nat): seq<T>
    requires i < |s|
  {
    s[..i] + s[i + 1..]
  }

  lemma WithoutIs<T>(s: seq<T>, i: nat)
    requires i < |s|
    ensures |Without(s, i)| == |s| - 1
    ensures forall j :: 0 <= j < |s| - 1 ==> Without(s, i)[j] == s[if j < i then j else j + 1]
  {
  }
}
