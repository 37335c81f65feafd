/** The indexed binary min-heap the priority pool and the delay pool keep their tasks in. */
module IndexedHeap {
  import opened Base
  import opened HeapOrder

  /** Which items the heap holds, where, each once. */
  ghost predicate Indexed<T>(items: seq<T>, positions: map<T, nat>) {
    && (forall i :: 0 <= i < |items| ==> items[i] in positions && positions[items[i]] == i)
    && (forall t <- positions :: positions[t] < |items| && items[positions[t]] == t)
  }

  ghost predicate Keyed<T, K>(items: seq<T>, keys: map<T, K>) {
    forall i :: 0 <= i < |items| ==> items[i] in keys
  }

  /** The keys in the order of the items. */
  ghost function Ranks<T, K>(items: seq<T>, keys: map<T, K>): (r: seq<K>)
    requires Keyed(items, keys)
    ensures |r| == |items|
  {
    seq(|items|, i requires 0 <= i < |items| => keys[items[i]])
  }

  lemma {:induction false} IndexedSize<T>(items: seq<T>, positions: map<T, nat>)
    requires Indexed(items, positions)
    ensures |items| == |positions|
  {
    if items == [] {
      assert positions.Keys == {};
    } else {
      var n := |items| - 1;
      var fewer := positions - {items[n]};
      assert |fewer| == |positions| - 1;
      IndexedSize(items[..n], fewer);
    }
  }

  /** No arrangement has room for an item that is there already. */
  lemma PresentTwice<T>(items: seq<T>, positions: map<T, nat>, more: seq<T>, places: map<T, nat>)
    requires Indexed(items, positions) && |more| == |items| + 1 && places.Keys == positions.Keys
    ensures !Indexed(more, places)
  {
    IndexedSize(items, positions);
    assert |places| == |places.Keys| && |positions| == |positions.Keys|;
    if Indexed(more, places) { IndexedSize(more, places); }
    hide Indexed;
  }

  lemma RanksWithin<T, K>(items: seq<T>, keys: map<T, K>)
    requires Keyed(items, keys)
    ensures Within(Ranks(items, keys), keys.Values)
  {
    forall i | 0 <= i < |items| ensures Ranks(items, keys)[i] in keys.Values { assert items[i] in keys; }
  }

  lemma RekeyLeavesRest<T, K>(compare: (K, K) -> int, before: map<T, K>, key: K, items: seq<T>,
      positions: map<T, nat>, item: T)
    requires Indexed(items, positions) && before.Keys == positions.Keys && item in positions
    requires Heap(compare, Ranks(items, before)) && Orderly(compare, before.Values)
    ensures HeapBut(compare, Ranks(items, before[item := key]), positions[item])
  {
    hide Orderly, Heap, HeapBut;
    var old', new', i := Ranks(items, before), Ranks(items, before[item := key]), positions[item];
    assert forall j :: 0 <= j < |items| && j != i ==> new'[j] == old'[j];
    RanksWithin(items, before);
    HeapSkips(compare, before.Values, old', new', i);
  }

  /** The list without its last element, which takes the place of position `i` if that is still there. */
  function Vacated<T>(s: seq<T>, i: nat): (r: seq<T>)
    requires i < |s|
    ensures multiset(r) == multiset(s) - multiset{s[i]} && |r| == |s| - 1
  {
    var rest, last := s[..|s| - 1], s[|s| - 1];
    assert s == rest + [last];
    if i < |rest| then
      assert rest == rest[..i] + [s[i]] + rest[i + 1..];
      assert rest[i := last] == rest[..i] + [last] + rest[i + 1..];
      rest[i := last]
    else rest
  }

  lemma VacatedIndexed<T>(items: seq<T>, positions: map<T, nat>, item: T)
    requires Indexed(items, positions) && item in positions
    ensures var i, last := positions[item], items[|items| - 1];
      Indexed(Vacated(items, i), if i < |items| - 1 then (positions - {item})[last := i] else positions - {item})
  {}

  lemma VacatedRanks<T, K>(items: seq<T>, positions: map<T, nat>, keys: map<T, K>, item: T)
    requires Indexed(items, positions) && keys.Keys == positions.Keys && item in positions
    ensures var i := positions[item]; var rest := Vacated(items, i);
      Keyed(rest, keys - {item}) && Ranks(rest, keys - {item}) == Vacated(Ranks(items, keys), i)
  {}

  lemma FewerValues<T, K>(compare: (K, K) -> int, keys: map<T, K>, item: T)
    requires Orderly(compare, keys.Values)
    ensures Orderly(compare, (keys - {item}).Values)
  {
    hide Orderly;
    var fewer := keys - {item};
    forall v <- fewer.Values ensures v in keys.Values {
      var t :| t in fewer && fewer[t] == v;
      assert keys[t] == v;
    }
    OrderlySubset(compare, keys.Values, fewer.Values);
  }

  lemma VacatedOrder<T, K>(compare: (K, K) -> int, items: seq<T>, positions: map<T, nat>, keys: map<T, K>, item: T)
    requires Indexed(items, positions) && keys.Keys == positions.Keys && item in positions
    requires Orderly(compare, keys.Values) && Heap(compare, Ranks(items, keys))
    ensures HeapBut(compare, Vacated(Ranks(items, keys), positions[item]), positions[item])
  {
    hide Orderly, Heap, HeapBut;
    RanksWithin(items, keys);
    var before := Ranks(items, keys);
    HeapSkips(compare, keys.Values, before, Vacated(before, positions[item]), positions[item]);
  }

  /** What removing the item at place `i` makes of the keys. */
  function Removed<K>(compare: (K, K) -> int, keys: seq<K>, i: nat): (r: seq<K>)
    requires i < |keys|
  {
    var rest := Vacated(keys, i);
    if i < |rest| then Fixed(compare, rest, i) else rest
  }

  class IndexedHeap<T(==), K(==)> {
    const compare: (K, K) -> int
    var items: seq<T>
    var positions: map<T, nat>
    /** The fields of the items that the comparator reads. */
    var keys: map<T, K>
    /** The keys have been totally ordered by the comparator at every moment. */
    ghost var clean: bool

    /** What a push of an item that is there already leaves intact. */
    ghost predicate Readable()
      reads this
    {
      Keyed(items, keys)
    }

    ghost predicate Linked()
      reads this
    {
      Indexed(items, positions) && keys.Keys == positions.Keys
    }

    ghost function Order(): (r: seq<K>)
      requires Readable()
      reads this
    {
      Ranks(items, keys)
    }

    ghost predicate Valid()
      reads this
    {
      Linked() && Readable() && (clean ==> Orderly(compare, keys.Values) && Heap(compare, Order()))
    }

    /** Valid but for the order around position `i`. */
    ghost predicate ValidBut(i: nat)
      reads this
    {
      Linked() && Readable() && i < |items| && (clean ==> Orderly(compare, keys.Values) && HeapBut(compare, Order(), i))
    }

    constructor (compare: (K, K) -> int)
      ensures Valid() && clean && this.compare == compare && items == [] && keys == map[]
    {
      this.compare, items, positions, keys, clean := compare, [], map[], map[], true;
    }

    method Swap(a: nat, b: nat)
      requires Readable() && a < |items| && b < |items| && a != b
      requires items[a] in positions && items[b] in positions
      modifies this`items, this`positions
      ensures Readable() && items == Swapped(old(items), a, b) && positions.Keys == old(positions.Keys)
      ensures Order() == Swapped(old(Order()), a, b) && (old(Linked()) ==> Linked())
    {
      var left, right := items[a], items[b];
      items := items[a := right][b := left];
      positions := positions[right := a][left := b];
    }

    method Up(start: nat) returns (index: nat)
      requires Readable() && start < |items| && keys.Keys == positions.Keys
      modifies this`items, this`positions
      ensures Readable() && |items| == old(|items|) && (Order(), index) == SiftUp(compare, old(Order()), start)
      ensures positions.Keys == old(positions.Keys) && multiset(items) == multiset(old(items))
        && (old(Linked()) ==> Linked())
    {
      hide Indexed, Swapped;
      index := start;
      while index > 0
        invariant Readable() && index < |items| == old(|items|) && positions.Keys == old(positions.Keys)
        invariant SiftUp(compare, Order(), index) == SiftUp(compare, old(Order()), start)
        invariant multiset(items) == multiset(old(items)) && (old(Linked()) ==> Linked())
      {
        var parent := (index - 1) / 2;
        if compare(keys[items[index]], keys[items[parent]]) >= 0 { break; }
        Swap(index, parent);
        index := parent;
      }
    }

    method Down(start: nat)
      requires Linked() && Readable() && start < |items|
      modifies this`items, this`positions
      ensures Linked() && Readable() && |items| == old(|items|) && Order() == SiftDown(compare, old(Order()), start)
      ensures positions.Keys == old(positions.Keys) && multiset(items) == multiset(old(items))
    {
      hide Indexed, Swapped;
      var index: nat := start;
      while true
        invariant Linked() && Readable() && index < |items| == old(|items|) && positions.Keys == old(positions.Keys)
        invariant SiftDown(compare, Order(), index) == SiftDown(compare, old(Order()), start)
        invariant multiset(items) == multiset(old(items))
        decreases |items| - index
      {
        var child := index * 2 + 1;
        if child >= |items| { return; }
        if child + 1 < |items| && compare(keys[items[child + 1]], keys[items[child]]) < 0 { child := child + 1; }
        assert child == LesserChild(compare, Order(), index);
        if compare(keys[items[index]], keys[items[child]]) <= 0 { return; }
        ItemsKnown(index);
        ItemsKnown(child);
        Swap(index, child);
        index := child;
      }
    }

    lemma ItemsKnown(i: nat)
      requires Linked() && i < |items|
      ensures items[i] in positions && positions[items[i]] == i
    {}

    /** Restores the order around an item whose key changed in place. */
    method Fix(item: T)
      requires if item in positions then ValidBut(positions[item]) else Valid()
      modifies this`items, this`positions
      ensures Valid() && positions.Keys == old(positions.Keys) && multiset(items) == multiset(old(items))
      ensures |items| == old(|items|) && keys.Keys == positions.Keys
      ensures item in old(positions) ==> Order() == Fixed(compare, old(Order()), old(positions)[item])
    {
      hide Indexed, Orderly, HeapBut, Heap, Ranks;
      if item in positions {
        if clean {
          RanksWithin(items, keys);
          FixedHeap(compare, keys.Values, Order(), positions[item]);
        }
        var index := Up(positions[item]);
        Down(index);
      }
    }

    /** An assignment to the field of an item that the comparator reads. */
    method Rekey(item: T, key: K)
      requires Valid() && item in keys
      modifies this`keys, this`clean
      ensures item in positions && ValidBut(positions[item])
      ensures keys == old(keys)[item := key] && clean == (old(clean) && Orderly(compare, keys.Values))
    {
      hide Orderly, HeapBut, Heap;
      if clean { RekeyLeavesRest(compare, keys, key, items, positions, item); }
      keys := keys[item := key];
      clean := clean && Orderly(compare, keys.Values);
    }

    /** The item is the last, out of order. */
    method Append(item: T, key: K)
      requires Valid()
      modifies this`items, this`positions, this`keys
      ensures Readable() && items == old(items) + [item] && keys == old(keys)[item := key]
      ensures positions == old(positions)[item := old(|items|)] && keys.Keys == positions.Keys
      ensures item !in old(keys) ==> Linked() && Order() == old(Order()) + [key]
    {
      hide Orderly, Heap;
      if item !in keys { PushedRanks(items, keys, item, key); }
      positions := positions[item := |items|];
      keys := keys[item := key];
      items := items + [item];
    }

    /** An item enters. The heap stays in order if and only if the item was not there. */
    method Push(item: T, key: K)
      requires Valid()
      modifies this
      ensures Readable() && keys == old(keys)[item := key] && clean == (old(clean) && Orderly(compare, keys.Values))
      ensures multiset(items) == multiset(old(items)) + multiset{item}
      ensures Valid() <==> item !in old(keys)
      ensures item !in old(keys) ==> Order() == Pushed(compare, old(Order()), key)
    {
      hide Orderly, Heap, Indexed, Ranks, Keyed, SiftUp;
      if clean && item !in keys { AppendedSafe(compare, items, keys, item, key); }
      ghost var present := item in keys;
      Append(item, key);
      clean := clean && Orderly(compare, keys.Values);
      var _ := Up(|items| - 1);
      if present {
        assert old(positions.Keys) + {item} == old(positions.Keys);
        PresentTwice(old(items), old(positions), items, positions);
      }
    }

    /** The last item takes the place of the removed one, out of order. */
    method Vacate(item: T) returns (index: nat)
      requires Valid() && item in positions
      modifies this`items, this`positions, this`keys
      ensures Linked() && Readable() && index == old(positions)[item] < old(|items|)
        && items == Vacated(old(items), index)
      ensures keys == old(keys) - {item} && Order() == Vacated(old(Order()), index)
    {
      hide Orderly, Heap;
      VacatedIndexed(items, positions, item);
      VacatedRanks(items, positions, keys, item);
      hide Indexed, Ranks;
      index := positions[item];
      var last := items[|items| - 1];
      items := items[..|items| - 1];
      positions := positions - {item};
      keys := keys - {item};
      if index < |items| {
        items := items[index := last];
        positions := positions[last := index];
      }
    }

    /** An item that is there leaves, and the order is restored around its place. */
    method Take(item: T)
      requires Valid() && item in positions
      modifies this`items, this`positions, this`keys
      ensures Valid() && keys == old(keys) - {item} && |items| == old(|items|) - 1
      ensures multiset(items) == multiset(old(items)) - multiset{old(items)[old(positions)[item]]}
      ensures Order() == Removed(compare, old(Order()), old(positions)[item])
    {
      hide Orderly, Heap, HeapBut, Ranks, Vacated, Fixed, Indexed, Keyed;
      PlaceKnown(item);
      if clean {
        VacatedOrder(compare, items, positions, keys, item);
        FewerValues(compare, keys, item);
      }
      var index := Vacate(item);
      if index < |items| {
        ItemsKnown(index);
        Fix(items[index]);
      } else if clean {
        LastSkipped(compare, Order());
      }
    }

    lemma PlaceKnown(item: T)
      requires Linked() && item in positions
      ensures positions[item] < |items| && items[positions[item]] == item
    {}

    method Remove(item: T) returns (found: bool)
      requires Valid()
      modifies this`items, this`positions, this`keys
      ensures Valid() && found == (item in old(keys))
      ensures keys == old(keys) - {item} && multiset(items) == multiset(old(items)) - multiset{item}
      ensures |items| == old(|items|) - if found then 1 else 0
      ensures found ==> Order() == Removed(compare, old(Order()), old(positions)[item])
    {
      hide Orderly, Heap, HeapBut, Ranks, Removed;
      if item !in positions {
        assert item !in items;
        return false;
      }
      PlaceKnown(item);
      Take(item);
      return true;
    }

    method Length() returns (n: nat)
      requires Valid()
      ensures n == |items| && (n == 0 <==> keys.Keys == {})
    {
      n := |items|;
      assert n > 0 ==> items[0] in keys;
    }

    method Has(item: T) returns (b: bool)
      requires Valid()
      ensures b == (item in keys)
    {
      b := item in positions;
    }

    method Peek() returns (least: Option<T>)
      requires Valid()
      ensures least.None? <==> keys == map[]
      ensures least.Some? ==> least.value in keys && items[0] == least.value
      ensures least.Some? && clean ==> forall t <- keys :: Le(compare, keys[least.value], keys[t])
    {
      if items == [] { return None; }
      if clean {
        RanksWithin(items, keys);
        forall t <- keys ensures Le(compare, keys[items[0]], keys[t]) {
          RootIsLeast(compare, keys.Values, Order(), positions[t]);
        }
      }
      return Some(items[0]);
    }

    method Pop() returns (least: Option<T>)
      requires Valid()
      modifies this`items, this`positions, this`keys
      ensures Valid() && (least.None? <==> old(keys) == map[])
      ensures least.None? ==> keys == old(keys) && items == old(items)
      ensures least.Some? ==> least.value in old(keys) && keys == old(keys) - {least.value}
      ensures least.Some?
        ==> multiset(items) == multiset(old(items)) - multiset{least.value} && |items| == old(|items|) - 1
      ensures least.Some? && clean ==> forall t <- old(keys) :: Le(compare, old(keys)[least.value], old(keys)[t])
    {
      hide Orderly, Heap, Ranks, Removed;
      least := Peek();
      if least.Some? {
        var _ := Remove(least.value);
      }
    }
  }

  lemma PushedRanks<T, K>(items: seq<T>, keys: map<T, K>, item: T, key: K)
    requires Keyed(items, keys) && item !in keys
    ensures Keyed(items + [item], keys[item := key])
      && Ranks(items + [item], keys[item := key]) == Ranks(items, keys) + [key]
  {}

  lemma MoreValues<T, K>(keys: map<T, K>, item: T, key: K)
    requires item !in keys
    ensures keys.Values <= keys[item := key].Values && key in keys[item := key].Values
  {
    var more := keys[item := key];
    assert more[item] == key;
    forall v <- keys.Values ensures v in more.Values {
      var t :| t in keys && keys[t] == v;
      assert more[t] == v;
    }
  }

  lemma AppendedSafe<T, K>(compare: (K, K) -> int, items: seq<T>, keys: map<T, K>, item: T, key: K)
    requires Keyed(items, keys) && item !in keys && Heap(compare, Ranks(items, keys))
    ensures Orderly(compare, keys[item := key].Values) ==> Heap(compare, Pushed(compare, Ranks(items, keys), key))
  {
    hide Orderly, Heap, Ranks;
    RanksWithin(items, keys);
    MoreValues(keys, item, key);
    if Orderly(compare, keys[item := key].Values) {
      PushedHeap(compare, keys[item := key].Values, Ranks(items, keys), key);
    }
  }
}
