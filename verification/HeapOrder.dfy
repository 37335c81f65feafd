/** Binary heaps as sequences of keys, under any comparator. */
module HeapOrder {
  function Parent(i: nat): nat
    requires i > 0
  {
    (i - 1) / 2
  }

  predicate Le<K>(compare: (K, K) -> int, a: K, b: K) {
    compare(a, b) <= 0
  }

  /** The comparator is a total preorder on a set of keys. */
  ghost predicate Orderly<K>(compare: (K, K) -> int, keys: set<K>) {
    && (forall a, b :: a in keys && b in keys && compare(a, b) >= 0 ==> Le(compare, b, a))
    && (forall a, b, c ::
        a in keys && b in keys && c in keys && Le(compare, a, b) && Le(compare, b, c) ==> Le(compare, a, c))
  }

  lemma Follows<K>(compare: (K, K) -> int, keys: set<K>, a: K, b: K, c: K)
    requires Orderly(compare, keys) && a in keys && b in keys && c in keys
    requires Le(compare, a, b) && Le(compare, b, c)
    ensures Le(compare, a, c)
  {}

  lemma Flips<K>(compare: (K, K) -> int, keys: set<K>, a: K, b: K)
    requires Orderly(compare, keys) && a in keys && b in keys && compare(a, b) >= 0
    ensures Le(compare, b, a)
  {}

  lemma OrderlySubset<K>(compare: (K, K) -> int, keys: set<K>, fewer: set<K>)
    requires Orderly(compare, keys) && fewer <= keys
    ensures Orderly(compare, fewer)
  {}

  ghost predicate Within<K>(keys: seq<K>, all: set<K>) {
    forall i :: 0 <= i < |keys| ==> keys[i] in all
  }

  ghost predicate EdgeIn<K>(compare: (K, K) -> int, keys: seq<K>, i: nat)
    requires i < |keys|
  {
    i > 0 ==> Le(compare, keys[Parent(i)], keys[i])
  }

  ghost predicate EdgesOut<K>(compare: (K, K) -> int, keys: seq<K>, i: nat) {
    forall c :: 1 <= c < |keys| && Parent(c) == i ==> Le(compare, keys[i], keys[c])
  }

  /** Heap order on every edge that does not touch `i`, and across `i`. */
  ghost predicate HeapBut<K>(compare: (K, K) -> int, keys: seq<K>, i: nat) {
    && (forall c :: 1 <= c < |keys| && c != i && Parent(c) != i ==> EdgeIn(compare, keys, c))
    && (0 < i < |keys| ==> forall c :: 1 <= c < |keys| && Parent(c) == i ==> Le(compare, keys[Parent(i)], keys[c]))
  }

  ghost predicate Heap<K>(compare: (K, K) -> int, keys: seq<K>) {
    forall c :: 1 <= c < |keys| ==> EdgeIn(compare, keys, c)
  }

  ghost predicate RootLeast<K>(compare: (K, K) -> int, keys: seq<K>) {
    forall i :: 0 <= i < |keys| ==> Le(compare, keys[0], keys[i])
  }

  /** The root of a heap is least. */
  lemma {:induction false} RootIsLeast<K>(compare: (K, K) -> int, all: set<K>, keys: seq<K>, i: nat)
    requires Orderly(compare, all) && Within(keys, all) && Heap(compare, keys) && i < |keys|
    ensures Le(compare, keys[0], keys[i])
  {
    hide Orderly;
    if i > 0 {
      RootIsLeast(compare, all, keys, Parent(i));
      assert EdgeIn(compare, keys, i);
      Follows(compare, all, keys[0], keys[Parent(i)], keys[i]);
    } else {
      Itself(compare, all, keys[0]);
    }
  }

  lemma Itself<K>(compare: (K, K) -> int, all: set<K>, a: K)
    requires Orderly(compare, all) && a in all
    ensures Le(compare, a, a)
  {}

  function Swapped<T>(s: seq<T>, a: nat, b: nat): (r: seq<T>)
    requires a < |s| && b < |s|
    ensures |r| == |s| && multiset(r) == multiset(s)
  {
    s[a := s[b]][b := s[a]]
  }

  // ---- What the heap's loops compute ----

  /** The key at `i` rises past every parent it is less than; the result is the keys and its new place. */
  function SiftUp<K>(compare: (K, K) -> int, keys: seq<K>, i: nat): (r: (seq<K>, nat))
    requires i < |keys|
    ensures |r.0| == |keys| && r.1 <= i && multiset(r.0) == multiset(keys)
    decreases i
  {
    if i == 0 || compare(keys[i], keys[Parent(i)]) >= 0 then (keys, i)
    else SiftUp(compare, Swapped(keys, i, Parent(i)), Parent(i))
  }

  /** The lesser of the children of `i`, the left one if they are equal. */
  function LesserChild<K>(compare: (K, K) -> int, keys: seq<K>, i: nat): (c: nat)
    requires 2 * i + 1 < |keys|
    ensures (c == 2 * i + 1 || c == 2 * i + 2) && c < |keys|
  {
    if 2 * i + 2 < |keys| && compare(keys[2 * i + 2], keys[2 * i + 1]) < 0 then 2 * i + 2 else 2 * i + 1
  }

  /** The key at `i` sinks below every lesser child. */
  function SiftDown<K>(compare: (K, K) -> int, keys: seq<K>, i: nat): (r: seq<K>)
    requires i < |keys|
    ensures |r| == |keys| && multiset(r) == multiset(keys)
    decreases |keys| - i
  {
    if 2 * i + 1 >= |keys| then keys
    else
      var c := LesserChild(compare, keys, i);
      if compare(keys[i], keys[c]) <= 0 then keys else SiftDown(compare, Swapped(keys, i, c), c)
  }

  function Fixed<K>(compare: (K, K) -> int, keys: seq<K>, i: nat): (r: seq<K>)
    requires i < |keys|
    ensures |r| == |keys| && multiset(r) == multiset(keys)
  {
    var (risen, j) := SiftUp(compare, keys, i);
    SiftDown(compare, risen, j)
  }

  function Pushed<K>(compare: (K, K) -> int, keys: seq<K>, key: K): (r: seq<K>)
    ensures |r| == |keys| + 1 && multiset(r) == multiset(keys) + multiset{key}
  {
    SiftUp(compare, keys + [key], |keys|).0
  }

  /** The heap after a batch of keys was pushed, one by one, onto an empty one. */
  function PushedAll<K>(compare: (K, K) -> int, batch: seq<K>): (r: seq<K>)
    ensures |r| == |batch| && multiset(r) == multiset(batch)
  {
    if batch == [] then []
    else
      assert batch == batch[..|batch| - 1] + [batch[|batch| - 1]];
      Pushed(compare, PushedAll(compare, batch[..|batch| - 1]), batch[|batch| - 1])
  }

  lemma SwapWithin<K>(keys: seq<K>, all: set<K>, a: nat, b: nat)
    requires Within(keys, all) && a < |keys| && b < |keys|
    ensures Within(Swapped(keys, a, b), all)
  {}

  lemma SwapUp<K>(compare: (K, K) -> int, all: set<K>, keys: seq<K>, i: nat)
    requires 0 < i < |keys| && Orderly(compare, all) && Within(keys, all) && HeapBut(compare, keys, i)
    requires compare(keys[i], keys[Parent(i)]) < 0
    ensures var s := Swapped(keys, i, Parent(i)); HeapBut(compare, s, Parent(i)) && EdgesOut(compare, s, Parent(i))
  {
    hide Orderly;
    var p, s := Parent(i), Swapped(keys, i, Parent(i));
    forall c | 1 <= c < |s| && Parent(c) == p
      ensures Le(compare, s[p], s[c]) && (p > 0 ==> Le(compare, s[Parent(p)], s[c]))
    {
      if p > 0 { assert EdgeIn(compare, keys, p); }
      if c != i {
        assert EdgeIn(compare, keys, c);
        Follows(compare, all, keys[i], keys[p], keys[c]);
        if p > 0 { Follows(compare, all, keys[Parent(p)], keys[p], keys[c]); }
      }
    }
    forall c | 1 <= c < |s| && c != p && Parent(c) != p ensures EdgeIn(compare, s, c) {
      if Parent(c) != i { assert EdgeIn(compare, keys, c); }
    }
  }

  /** Sifting up mends the edge above, and keeps those below if they were in order. */
  lemma {:induction false} SiftUpMends<K>(compare: (K, K) -> int, all: set<K>, keys: seq<K>, i: nat)
    requires i < |keys| && Orderly(compare, all) && Within(keys, all) && HeapBut(compare, keys, i)
    ensures var (risen, j) := SiftUp(compare, keys, i);
      && Within(risen, all) && HeapBut(compare, risen, j) && EdgeIn(compare, risen, j)
      && (EdgesOut(compare, keys, i) ==> EdgesOut(compare, risen, j))
    decreases i
  {
    hide HeapBut, EdgesOut;
    if i > 0 {
      if compare(keys[i], keys[Parent(i)]) < 0 {
        SwapUp(compare, all, keys, i);
        SwapWithin(keys, all, i, Parent(i));
        SiftUpMends(compare, all, Swapped(keys, i, Parent(i)), Parent(i));
      } else {
        Flips(compare, all, keys[i], keys[Parent(i)]);
      }
    }
    hide Orderly;
  }

  lemma HeapWhole<K>(compare: (K, K) -> int, keys: seq<K>, i: nat)
    requires i < |keys| && HeapBut(compare, keys, i) && EdgeIn(compare, keys, i) && EdgesOut(compare, keys, i)
    ensures Heap(compare, keys)
  {
    forall c | 1 <= c < |keys| ensures EdgeIn(compare, keys, c) {
      if c != i && Parent(c) != i {}
    }
  }

  lemma LesserIsLeast<K>(compare: (K, K) -> int, all: set<K>, keys: seq<K>, i: nat, d: nat)
    requires 2 * i + 1 < |keys| && Orderly(compare, all) && Within(keys, all) && 1 <= d < |keys| && Parent(d) == i
    ensures Le(compare, keys[LesserChild(compare, keys, i)], keys[d])
  {
    assert d == 2 * i + 1 || d == 2 * i + 2;
    Itself(compare, all, keys[d]);
    if d == 2 * i + 2 && compare(keys[d], keys[d - 1]) >= 0 { Flips(compare, all, keys[d], keys[d - 1]); }
    hide Orderly;
  }

  lemma SwapDown<K>(compare: (K, K) -> int, all: set<K>, keys: seq<K>, i: nat)
    requires 2 * i + 1 < |keys| && Orderly(compare, all) && Within(keys, all)
    requires HeapBut(compare, keys, i) && EdgeIn(compare, keys, i)
    requires compare(keys[i], keys[LesserChild(compare, keys, i)]) > 0
    ensures var c := LesserChild(compare, keys, i); var s := Swapped(keys, i, c);
      HeapBut(compare, s, c) && EdgeIn(compare, s, c)
  {
    hide Orderly;
    var c := LesserChild(compare, keys, i);
    var s := Swapped(keys, i, c);
    Flips(compare, all, keys[i], keys[c]);
    assert Parent(c) == i;
    forall d | 1 <= d < |s| && d != c && Parent(d) != c ensures EdgeIn(compare, s, d) {
      if Parent(d) == i {
        LesserIsLeast(compare, all, keys, i, d);
      } else if d != i {
        assert EdgeIn(compare, keys, d);
      }
    }
    forall d | 1 <= d < |s| && Parent(d) == c ensures Le(compare, s[i], s[d]) {
      assert EdgeIn(compare, keys, d);
    }
    hide LesserChild;
  }

  lemma SettlesDown<K>(compare: (K, K) -> int, all: set<K>, keys: seq<K>, i: nat)
    requires i < |keys| && Orderly(compare, all) && Within(keys, all) && HeapBut(compare, keys, i)
      && EdgeIn(compare, keys, i)
    requires 2 * i + 1 < |keys| ==> Le(compare, keys[i], keys[LesserChild(compare, keys, i)])
    ensures Heap(compare, keys)
  {
    hide Orderly;
    forall d | 1 <= d < |keys| && Parent(d) == i ensures Le(compare, keys[i], keys[d]) {
      LesserIsLeast(compare, all, keys, i, d);
      Follows(compare, all, keys[i], keys[LesserChild(compare, keys, i)], keys[d]);
    }
    HeapWhole(compare, keys, i);
  }

  /** Sifting down leaves a heap. */
  lemma {:induction false} SiftDownHeap<K>(compare: (K, K) -> int, all: set<K>, keys: seq<K>, i: nat)
    requires i < |keys| && Orderly(compare, all) && Within(keys, all) && HeapBut(compare, keys, i)
      && EdgeIn(compare, keys, i)
    ensures Heap(compare, SiftDown(compare, keys, i))
    decreases |keys| - i
  {
    hide HeapBut, Heap, Orderly, EdgeIn, LesserChild;
    if 2 * i + 1 < |keys| && compare(keys[i], keys[LesserChild(compare, keys, i)]) > 0 {
      var c := LesserChild(compare, keys, i);
      SwapDown(compare, all, keys, i);
      SwapWithin(keys, all, i, c);
      SiftDownHeap(compare, all, Swapped(keys, i, c), c);
    } else {
      SettlesDown(compare, all, keys, i);
    }
  }

  lemma FixedHeap<K>(compare: (K, K) -> int, all: set<K>, keys: seq<K>, i: nat)
    requires i < |keys| && Orderly(compare, all) && Within(keys, all) && HeapBut(compare, keys, i)
    ensures Heap(compare, Fixed(compare, keys, i))
  {
    hide HeapBut, Heap, Orderly, EdgeIn;
    SiftUpMends(compare, all, keys, i);
    var (risen, j) := SiftUp(compare, keys, i);
    SiftDownHeap(compare, all, risen, j);
  }

  lemma AppendedSkips<K>(compare: (K, K) -> int, keys: seq<K>, key: K)
    requires Heap(compare, keys)
    ensures HeapBut(compare, keys + [key], |keys|) && EdgesOut(compare, keys + [key], |keys|)
  {
    var more := keys + [key];
    forall c | 1 <= c < |more| && c != |keys| ensures EdgeIn(compare, more, c) { assert EdgeIn(compare, keys, c); }
  }

  lemma PushedHeap<K>(compare: (K, K) -> int, all: set<K>, keys: seq<K>, key: K)
    requires Orderly(compare, all) && Within(keys + [key], all) && Heap(compare, keys)
    ensures Heap(compare, Pushed(compare, keys, key)) && Within(Pushed(compare, keys, key), all)
  {
    AppendedSkips(compare, keys, key);
    hide HeapBut, Heap, Orderly, EdgeIn, EdgesOut;
    SiftUpMends(compare, all, keys + [key], |keys|);
    var (risen, j) := SiftUp(compare, keys + [key], |keys|);
    HeapWhole(compare, risen, j);
  }

  lemma StaysLast<K>(compare: (K, K) -> int, keys: seq<K>, key: K)
    requires keys != [] ==> compare(key, keys[Parent(|keys|)]) >= 0
    ensures Pushed(compare, keys, key) == keys + [key]
  {}

  /** A batch that pushing leaves as it is, with one more key that is not below its parent. */
  lemma PushedStays<K>(compare: (K, K) -> int, front: seq<K>, key: K)
    requires PushedAll(compare, front) == front && (front != [] ==> compare(key, front[Parent(|front|)]) >= 0)
    ensures PushedAll(compare, front + [key]) == front + [key]
  {
    hide Pushed;
    var batch := front + [key];
    assert batch[..|batch| - 1] == front && batch[|batch| - 1] == key;
    StaysLast(compare, front, key);
  }

  lemma {:induction false} PushedAllHeap<K>(compare: (K, K) -> int, all: set<K>, batch: seq<K>)
    requires Orderly(compare, all) && Within(batch, all)
    ensures Heap(compare, PushedAll(compare, batch)) && Within(PushedAll(compare, batch), all)
  {
    hide Orderly;
    if batch != [] {
      var rest := batch[..|batch| - 1];
      PushedAllHeap(compare, all, rest);
      PushedHeap(compare, all, PushedAll(compare, rest), batch[|batch| - 1]);
    }
  }

  /** A heap in which one key is replaced, or the last key is dropped and takes another's place. */
  lemma HeapSkips<K>(compare: (K, K) -> int, all: set<K>, before: seq<K>, after: seq<K>, i: nat)
    requires Orderly(compare, all) && Within(before, all) && Heap(compare, before) && |after| <= |before|
    requires forall j :: 0 <= j < |after| && j != i ==> after[j] == before[j]
    ensures HeapBut(compare, after, i)
  {
    hide Orderly;
    forall c | 1 <= c < |after| && c != i && Parent(c) != i ensures EdgeIn(compare, after, c) {
      assert EdgeIn(compare, before, c);
    }
    if 0 < i < |after| {
      forall c | 1 <= c < |after| && Parent(c) == i ensures Le(compare, after[Parent(i)], after[c]) {
        assert EdgeIn(compare, before, c) && EdgeIn(compare, before, i);
        Follows(compare, all, before[Parent(i)], before[i], before[c]);
      }
    }
  }

  lemma LastSkipped<K>(compare: (K, K) -> int, keys: seq<K>)
    requires HeapBut(compare, keys, |keys|)
    ensures Heap(compare, keys)
  {
    forall c | 1 <= c < |keys| ensures EdgeIn(compare, keys, c) {
      assert c != |keys| && Parent(c) != |keys|;
    }
  }
}
