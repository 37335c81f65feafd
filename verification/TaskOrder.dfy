/** The order the pools' queues are kept in: a number, then the order of submission. */
module TaskOrder {
  /** A double as far as comparison goes. */
  datatype Num = NaN | NegInf | Fin(value: real) | PosInf

  predicate Less(a: Num, b: Num) {
    match (a, b)
    case (NaN, _) => false
    case (_, NaN) => false
    case (Fin(x), Fin(y)) => x < y
    case (NegInf, _) => b != NegInf
    case (_, PosInf) => a != PosInf
    case _ => false
  }

  datatype Key = Key(rank: Num, sequence: nat)

  function Compare(a: Key, b: Key): int {
    if Less(a.rank, b.rank) then -1 else if Less(b.rank, a.rank) then 1 else a.sequence - b.sequence
  }

  predicate AtMost(a: Key, b: Key) {
    Compare(a, b) <= 0
  }

  predicate Numeric(k: Key) {
    k.rank != NaN
  }

  /** Keys whose rank is a number are totally ordered. */
  lemma Total(a: Key, b: Key, c: Key)
    requires Numeric(a) && Numeric(b) && Numeric(c)
    ensures AtMost(a, b) || AtMost(b, a)
    ensures AtMost(a, b) && AtMost(b, c) ==> AtMost(a, c)
    ensures AtMost(a, b) && AtMost(b, a) ==> a == b
    ensures Compare(a, b) >= 0 ==> AtMost(b, a)
  {}
}

/** When the order of the tasks makes a heap's root least. */
module TaskHeaps {
  import opened Base
  import opened TaskOrder
  import opened HeapOrder

  /** A priority that is a number, or that of the very first task. */
  predicate Harmless(k: Key) {
    Numeric(k) || k.sequence == 0
  }

  ghost predicate Told(keys: set<Key>) {
    forall a, b :: a in keys && b in keys && a.sequence == b.sequence ==> a == b
  }

  lemma HarmlessFollow(a: Key, b: Key, c: Key)
    requires Harmless(a) && Harmless(b) && Harmless(c)
    requires a.sequence == b.sequence ==> a == b
    requires b.sequence == c.sequence ==> b == c
    requires a.sequence == c.sequence ==> a == c
    ensures Compare(a, b) >= 0 ==> AtMost(b, a)
    ensures AtMost(a, b) && AtMost(b, c) ==> AtMost(a, c)
  {}

  /** Harmless keys of different tasks are totally ordered. */
  lemma HarmlessOrderly(keys: set<Key>)
    requires Told(keys) && forall k <- keys :: Harmless(k)
    ensures Orderly(Compare, keys)
  {
    forall a, b | a in keys && b in keys && Compare(a, b) >= 0 ensures Le(Compare, b, a) {
      HarmlessFollow(a, b, a);
    }
    forall a, b, c | a in keys && b in keys && c in keys && Le(Compare, a, b) && Le(Compare, b, c)
      ensures Le(Compare, a, c)
    {
      HarmlessFollow(a, b, c);
    }
  }

  /** Keys of different tasks, `k` among them and all others numeric. */
  ghost predicate Among(keys: seq<Key>, k: Key) {
    && k in keys && Told(ToSet(keys)) && forall i :: 0 <= i < |keys| && keys[i] != k ==> Numeric(keys[i])
  }

  lemma HarmlessRootLeast(keys: seq<Key>, k: Key)
    requires Among(keys, k) && Harmless(k) && Heap(Compare, keys)
    ensures RootLeast(Compare, keys)
  {
    var all := ToSet(keys);
    forall x <- all ensures Harmless(x) {
      var i :| 0 <= i < |keys| && keys[i] == x;
    }
    HarmlessOrderly(all);
    hide Orderly;
    forall i | 0 <= i < |keys| ensures Le(Compare, keys[0], keys[i]) { RootIsLeast(Compare, all, keys, i); }
  }

  /** The priorities 1 (n times), NaN, 2 (n times) and 0, as submitted one after the other. */
  function Spoiled(n: nat): (keys: seq<Key>)
    ensures |keys| == 2 * n + 2 && forall i :: 0 <= i < |keys| ==> keys[i].sequence == i
  {
    seq(2 * n + 2, i requires 0 <= i < 2 * n + 2 =>
      Key(if i < n then Fin(1.0) else if i == n then NaN else if i <= 2 * n then Fin(2.0) else Fin(0.0), i))
  }

  lemma SpoiledStays(n: nat, m: nat)
    requires 0 < m < 2 * n + 2
    ensures Compare(Spoiled(n)[m], Spoiled(n)[Parent(m)]) > 0 && Le(Compare, Spoiled(n)[Parent(m)], Spoiled(n)[m])
  {}

  lemma SpoiledAmong(n: nat)
    ensures Among(Spoiled(n), Key(NaN, n))
  {
    var keys := Spoiled(n);
    assert keys[n] == Key(NaN, n);
    forall a, b | a in keys && b in keys && a.sequence == b.sequence ensures a == b {
      var i :| 0 <= i < |keys| && keys[i] == a;
      var j :| 0 <= j < |keys| && keys[j] == b;
    }
  }

  /** Every edge of this heap is in order, and its root is not least. */
  lemma SpoiledHeap(n: nat)
    requires n > 0
    ensures Heap(Compare, Spoiled(n)) && !RootLeast(Compare, Spoiled(n))
  {
    var keys := Spoiled(n);
    forall c | 1 <= c < |keys| ensures EdgeIn(Compare, keys, c) { SpoiledStays(n, c); }
    assert !Le(Compare, keys[0], keys[2 * n + 1]);
  }

  lemma SpoiledLast(n: nat, m: nat)
    requires 0 < m <= 2 * n + 2
    ensures Spoiled(n)[..m] == Spoiled(n)[..m - 1] + [Spoiled(n)[m - 1]]
    ensures m > 1 ==> Compare(Spoiled(n)[m - 1], Spoiled(n)[..m - 1][Parent(m - 1)]) >= 0
  {
    if m > 1 { SpoiledStays(n, m - 1); }
    hide Compare;
  }

  /** It is the heap that results when these tasks are pushed in the order of their submission. */
  lemma {:induction false} SpoiledArises(n: nat, m: nat)
    requires m <= 2 * n + 2
    ensures PushedAll(Compare, Spoiled(n)[..m]) == Spoiled(n)[..m]
  {
    hide Compare, Spoiled, PushedAll;
    if m > 0 {
      SpoiledArises(n, m - 1);
      SpoiledLast(n, m);
      PushedStays(Compare, Spoiled(n)[..m - 1], Spoiled(n)[m - 1]);
    }
  }

  /** The root of every heap with key `k` among numeric ones is least if and only if `k` is harmless. */
  lemma RootLeastIff(k: Key)
    ensures (forall keys: seq<Key> :: Among(keys, k) && Heap(Compare, keys) ==> RootLeast(Compare, keys))
      <==> Harmless(k)
  {
    if Harmless(k) {
      forall keys: seq<Key> | Among(keys, k) && Heap(Compare, keys) ensures RootLeast(Compare, keys) {
        HarmlessRootLeast(keys, k);
      }
    } else {
      SpoiledAmong(k.sequence);
      SpoiledHeap(k.sequence);
    }
  }

  /** Tasks numbered as they are submitted. */
  ghost predicate Submitted(batch: seq<Key>, k: Key) {
    && k in batch && (forall i :: 0 <= i < |batch| ==> batch[i].sequence == i)
    && (forall i :: 0 <= i < |batch| && batch[i] != k ==> Numeric(batch[i]))
  }

  lemma SubmittedRootLeast(batch: seq<Key>, k: Key)
    requires Submitted(batch, k) && Harmless(k)
    ensures RootLeast(Compare, PushedAll(Compare, batch))
  {
    var all := ToSet(batch);
    HarmlessOrderly(all);
    hide Orderly;
    PushedAllHeap(Compare, all, batch);
    var keys := PushedAll(Compare, batch);
    forall i | 0 <= i < |keys| ensures Le(Compare, keys[0], keys[i]) { RootIsLeast(Compare, all, keys, i); }
  }

  lemma SpoiledSubmitted(n: nat)
    ensures Submitted(Spoiled(n), Key(NaN, n))
  {
    assert Spoiled(n)[n] == Key(NaN, n);
  }

  lemma SpoiledPushed(n: nat)
    requires n > 0
    ensures !RootLeast(Compare, PushedAll(Compare, Spoiled(n)))
  {
    hide *;
    SpoiledArises(n, 2 * n + 2);
    assert Spoiled(n)[..2 * n + 2] == Spoiled(n);
    SpoiledHeap(n);
  }

  /** Whatever tasks are submitted before and after it, the heap they are pushed onto has a least root if and
      only if the one priority that may not be a number is harmless. */
  lemma SubmissionLeastIff(k: Key)
    ensures (forall batch: seq<Key> :: Submitted(batch, k) ==> RootLeast(Compare, PushedAll(Compare, batch)))
      <==> Harmless(k)
  {
    if Harmless(k) {
      forall batch: seq<Key> | Submitted(batch, k) ensures RootLeast(Compare, PushedAll(Compare, batch)) {
        SubmittedRootLeast(batch, k);
      }
    } else {
      SpoiledSubmitted(k.sequence);
      SpoiledPushed(k.sequence);
    }
  }
}
