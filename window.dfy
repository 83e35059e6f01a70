/** The bounded series kept by the memory and network view models: a `VecDeque` whose front
    is popped when its length equals the capacity, before a push at the back. Positions of
    retained entries are never renumbered. */
module Window {

  /** The window after the `if len == capacity { pop_front() }` step. */
  function Evict<T>(w: seq<T>, capacity: nat): (r: seq<T>)
    requires 0 < capacity
  {
    if |w| == capacity then w[1..] else w
  }

  /** Push a bare value (network windows). */
  function PushValue<T>(w: seq<T>, capacity: nat, v: T): (r: seq<T>)
    requires 0 < capacity
  {
    Evict(w, capacity) + [v]
  }

  /** Push `(x, v)` where `x` is the length after eviction (memory windows). */
  function PushPoint(w: seq<(real, real)>, capacity: nat, v: real): (r: seq<(real, real)>)
    requires 0 < capacity
  {
    var kept := Evict(w, capacity);
    kept + [(|kept| as real, v)]
  }

  /** Below capacity a push grows the window by one; at capacity exactly the oldest entry
      goes and the length stays; retained entries keep their order and values, and the
      newest entry is at the back. */
  lemma PushValueShape<T>(w: seq<T>, capacity: nat, v: T)
    requires 0 < capacity && |w| <= capacity
    ensures |PushValue(w, capacity, v)| == if |w| == capacity then capacity else |w| + 1
    ensures |PushValue(w, capacity, v)| <= capacity
    ensures PushValue(w, capacity, v)[|PushValue(w, capacity, v)| - 1] == v
    ensures |w| < capacity ==> PushValue(w, capacity, v) == w + [v]
    ensures |w| == capacity ==> PushValue(w, capacity, v) == w[1..] + [v]
  {
  }

  /** The same for point windows; the new entry's x is the number of entries before it. */
  lemma PushPointShape(w: seq<(real, real)>, capacity: nat, v: real)
    requires 0 < capacity && |w| <= capacity
    ensures var r := PushPoint(w, capacity, v);
      && |r| == (if |w| == capacity then capacity else |w| + 1)
      && |r| <= capacity
      && r[|r| - 1] == ((|r| - 1) as real, v)
      && r[..|r| - 1] == (if |w| == capacity then w[1..] else w)
  {
  }

  /** Retained entries keep their original x: they are not renumbered. Once a window that was
      filled from empty is full, every further push puts x = capacity - 1 at the back again,
      so the two newest entries share the same x. */
  lemma FullWindowRepeatsLastX(w: seq<(real, real)>, capacity: nat, v: real)
    requires 1 < capacity && |w| == capacity && w[capacity - 1].0 == (capacity - 1) as real
    ensures var r := PushPoint(w, capacity, v);
      |r| == capacity && r[capacity - 2].0 == r[capacity - 1].0 == (capacity - 1) as real
  {
  }

  /** A window after pushing each of `vs` in turn, oldest first. */
  function PushAll<T>(w: seq<T>, capacity: nat, vs: seq<T>): seq<T>
    requires 0 < capacity
    decreases |vs|
  {
    if vs == [] then w else PushValue(PushAll(w, capacity, vs[..|vs| - 1]), capacity, vs[|vs| - 1])
  }

  /** For any sequence of N pushes into a window holding at most C entries, the length is
      min(length + N, C); from empty, min(N, C). The window holds the newest values. */
  lemma {:induction false} PushAllLength<T>(w: seq<T>, capacity: nat, vs: seq<T>)
    requires 0 < capacity && |w| <= capacity
    ensures |PushAll(w, capacity, vs)| == if |w| + |vs| <= capacity then |w| + |vs| else capacity
    ensures vs != [] ==> PushAll(w, capacity, vs)[|PushAll(w, capacity, vs)| - 1] == vs[|vs| - 1]
    decreases |vs|
  {
    if vs != [] {
      PushAllLength(w, capacity, vs[..|vs| - 1]);
      PushValueShape(PushAll(w, capacity, vs[..|vs| - 1]), capacity, vs[|vs| - 1]);
    }
  }

  /** Pushing the values one by one into a window that never fills is appending them. */
  lemma {:induction false} PushAllBelowCapacity<T>(w: seq<T>, capacity: nat, vs: seq<T>)
    requires 0 < capacity && |w| + |vs| <= capacity
    ensures PushAll(w, capacity, vs) == w + vs
    decreases |vs|
  {
    if vs != [] {
      var init := vs[..|vs| - 1];
      PushAllBelowCapacity(w, capacity, init);
      assert vs == init + [vs[|vs| - 1]];
    }
  }

  /** A point window after pushing each of `vs` in turn, oldest first (memory windows). */
  function PushAllPoints(w: seq<(real, real)>, capacity: nat, vs: seq<real>): seq<(real, real)>
    requires 0 < capacity
    decreases |vs|
  {
    if vs == [] then w else PushPoint(PushAllPoints(w, capacity, vs[..|vs| - 1]), capacity, vs[|vs| - 1])
  }

  /** For N pushes into a point window holding at most C entries, the length is
      min(length + N, C), and the newest value is at the back with x = length - 1. */
  lemma {:induction false} PushAllPointsLength(w: seq<(real, real)>, capacity: nat, vs: seq<real>)
    requires 0 < capacity && |w| <= capacity
    ensures var r := PushAllPoints(w, capacity, vs);
      && |r| == (if |w| + |vs| <= capacity then |w| + |vs| else capacity)
      && (vs != [] ==> r[|r| - 1] == ((|r| - 1) as real, vs[|vs| - 1]))
    decreases |vs|
  {
    if vs != [] {
      PushAllPointsLength(w, capacity, vs[..|vs| - 1]);
      PushPointShape(PushAllPoints(w, capacity, vs[..|vs| - 1]), capacity, vs[|vs| - 1]);
    }
  }

  /** Filling an empty point window without reaching capacity numbers the points 0, 1, ...
      in push order. */
  lemma {:induction false} PushAllPointsFromEmpty(capacity: nat, vs: seq<real>)
    requires 0 < capacity && |vs| <= capacity
    ensures |PushAllPoints([], capacity, vs)| == |vs|
    ensures forall k :: 0 <= k < |vs| ==> PushAllPoints([], capacity, vs)[k] == (k as real, vs[k])
    decreases |vs|
  {
    if vs != [] {
      var init := vs[..|vs| - 1];
      PushAllPointsFromEmpty(capacity, init);
      var prev := PushAllPoints([], capacity, init);
      assert PushAllPoints([], capacity, vs) == prev + [(|prev| as real, vs[|vs| - 1])];
      forall k | 0 <= k < |vs|
        ensures PushAllPoints([], capacity, vs)[k] == (k as real, vs[k])
      {
        if k < |init| {
          assert vs[k] == init[k];
        }
      }
    }
  }
}
