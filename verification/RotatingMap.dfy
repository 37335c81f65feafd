/** The sharded two-generation map of pending requests, which answers as one plain map would. */
module RotatingMap {
  import opened Base

  const SHARD_COUNT := 64

  /** A key as the hash sees it: an object, known by its identity, or a primitive with its type's name and
      its text in UTF-16 units. Equal primitives have equal texts, but not the other way round. */
  datatype Key = Object(identity: nat) | Primitive(text: seq<bv16>, identity: nat)

  const FNV_BASIS: bv32 := 0x811c9dc5
  const FNV_PRIME: bv32 := 0x0100_0193
  const MIX_FACTOR: bv32 := 0x045d_9f3b

  function Blend(hash: bv32, unit: bv16): bv32 {
    (hash ^ (unit as bv32)) * FNV_PRIME
  }

  /** One unit after the other enters the hash. */
  function HashUnits(text: seq<bv16>): bv32 {
    if text == [] then FNV_BASIS else Blend(HashUnits(text[..|text| - 1]), text[|text| - 1])
  }

  method HashString(text: seq<bv16>) returns (hash: bv32)
    ensures hash == HashUnits(text)
  {
    hide Blend;
    hash := FNV_BASIS;
    var index := 0;
    assert text[..0] == [];
    while index < |text|
      invariant index <= |text| && hash == HashUnits(text[..index])
    {
      assert text[..index + 1][..index] == text[..index];
      hash := Blend(hash, text[index]);
      index := index + 1;
    }
    assert text[..index] == text;
  }

  function Mix(value: nat): bv32 {
    var h0 := (value % 0x1_0000_0000) as bv32;
    var h1 := (h0 ^ (h0 >> 16)) * MIX_FACTOR;
    var h2 := (h1 ^ (h1 >> 16)) * MIX_FACTOR;
    h2 ^ (h2 >> 16)
  }

  /** Object ids, once given, stay: the hash of a key that was seen is stable. */
  predicate Seen(key: Key, objectIds: map<nat, nat>) {
    key.Object? ==> key.identity in objectIds
  }

  function Hash(key: Key, objectIds: map<nat, nat>): bv32
    requires Seen(key, objectIds)
  {
    if key.Object? then Mix(objectIds[key.identity]) else HashUnits(key.text)
  }

  function Index(hash: bv32): (i: nat)
    ensures i < SHARD_COUNT
  {
    var low: bv6 := (hash & 63) as bv6;
    low as nat
  }

  function Home(key: Key, objectIds: map<nat, nat>): (i: nat)
    requires Seen(key, objectIds)
    ensures i < SHARD_COUNT
  {
    Index(Hash(key, objectIds))
  }

  datatype Shard<V> = Shard(current: map<Key, V>, previous: map<Key, V>, highWaterMark: nat)

  ghost function Entries<V>(shard: Shard<V>): map<Key, V> {
    shard.previous + shard.current
  }

  /** A shard holds only keys of its own, each in one generation. */
  ghost predicate ShardOk<V>(shard: Shard<V>, i: nat, objectIds: map<nat, nat>) {
    && shard.current.Keys !! shard.previous.Keys
    && (forall k <- Entries(shard) :: Seen(k, objectIds) && Home(k, objectIds) == i)
  }

  /** The sharded map stands for a plain one: every entry is in its home shard, and nowhere else. */
  ghost predicate Stands<V>(shards: seq<Shard<V>>, objectIds: map<nat, nat>, contents: map<Key, V>) {
    && |shards| == SHARD_COUNT
    && (forall i :: 0 <= i < SHARD_COUNT ==> ShardOk(shards[i], i, objectIds))
    && (forall k <- contents :: Seen(k, objectIds) && k in Entries(shards[Home(k, objectIds)])
          && Entries(shards[Home(k, objectIds)])[k] == contents[k])
    && (forall i, k :: 0 <= i < SHARD_COUNT && k in Entries(shards[i]) ==> k in contents)
  }

  /** What the home shard of a key says about it. */
  lemma AtHome<V>(shards: seq<Shard<V>>, objectIds: map<nat, nat>, contents: map<Key, V>, key: Key)
    requires Stands(shards, objectIds, contents) && Seen(key, objectIds)
    ensures var shard := shards[Home(key, objectIds)];
      && shard.current.Keys !! shard.previous.Keys
      && (key in contents <==> key in shard.current || key in shard.previous)
      && (key in shard.current ==> contents[key] == shard.current[key])
      && (key in shard.previous ==> contents[key] == shard.previous[key])
  {
    hide Home;
    var i := Home(key, objectIds);
    assert ShardOk(shards[i], i, objectIds);
    assert key in Entries(shards[i]) ==> key in contents;
  }

  lemma Apart<V>(shards: seq<Shard<V>>, objectIds: map<nat, nat>, contents: map<Key, V>, i: nat)
    requires Stands(shards, objectIds, contents) && i < SHARD_COUNT
    ensures shards[i].current.Keys !! shards[i].previous.Keys
  {
    assert ShardOk(shards[i], i, objectIds);
  }

  /** `after` differs from `before` in one key at most. */
  ghost predicate But<V>(before: map<Key, V>, after: map<Key, V>, key: Key) {
    && (forall k :: k != key ==> (k in after <==> k in before))
    && (forall k <- before :: k != key ==> k in after && after[k] == before[k])
  }

  lemma ChangedShard<V>(shards: seq<Shard<V>>, objectIds: map<nat, nat>, contents: map<Key, V>, key: Key,
      shard: Shard<V>)
    requires Stands(shards, objectIds, contents) && Seen(key, objectIds) && shard.current.Keys !! shard.previous.Keys
    requires But(Entries(shards[Home(key, objectIds)]), Entries(shard), key)
    ensures ShardOk(shard, Home(key, objectIds), objectIds)
  {
    hide Home, Entries;
    var h := Home(key, objectIds);
    assert ShardOk(shards[h], h, objectIds);
  }

  lemma ChangedEntry<V>(shards: seq<Shard<V>>, objectIds: map<nat, nat>, contents: map<Key, V>, key: Key,
      shard: Shard<V>, after: map<Key, V>, k: Key)
    requires Stands(shards, objectIds, contents) && Seen(key, objectIds) && But(contents, after, key) && k in after
    requires But(Entries(shards[Home(key, objectIds)]), Entries(shard), key)
    requires key in after ==> key in Entries(shard) && after[key] == Entries(shard)[key]
    ensures Seen(k, objectIds)
    ensures var t := shards[Home(key, objectIds) := shard];
      k in Entries(t[Home(k, objectIds)]) && Entries(t[Home(k, objectIds)])[k] == after[k]
  {
    hide Home, Entries, ShardOk;
  }

  /** A change of one key in its home shard is that change of the plain map. */
  lemma Changed<V>(shards: seq<Shard<V>>, objectIds: map<nat, nat>, contents: map<Key, V>, key: Key, shard: Shard<V>,
      after: map<Key, V>)
    requires Stands(shards, objectIds, contents) && Seen(key, objectIds) && shard.current.Keys !! shard.previous.Keys
    requires But(Entries(shards[Home(key, objectIds)]), Entries(shard), key) && But(contents, after, key)
    requires key in after <==> key in Entries(shard)
    requires key in after ==> after[key] == Entries(shard)[key]
    ensures Stands(shards[Home(key, objectIds) := shard], objectIds, after)
  {
    hide Home, Entries, ShardOk;
    var h := Home(key, objectIds);
    var t := shards[h := shard];
    ChangedShard(shards, objectIds, contents, key, shard);
    forall k <- after
      ensures Seen(k, objectIds) && k in Entries(t[Home(k, objectIds)]) && Entries(t[Home(k, objectIds)])[k] == after[k]
    {
      ChangedEntry(shards, objectIds, contents, key, shard, after, k);
    }
    forall i, k | 0 <= i < SHARD_COUNT && k in Entries(t[i]) ensures k in after {
      if i == h && k != key { assert k in Entries(shards[h]); }
      if i != h { OneHome(shards, objectIds, contents, i, k); }
    }
  }

  lemma OneHome<V>(shards: seq<Shard<V>>, objectIds: map<nat, nat>, contents: map<Key, V>, i: nat, k: Key)
    requires Stands(shards, objectIds, contents) && i < SHARD_COUNT && k in Entries(shards[i])
    ensures Seen(k, objectIds) && Home(k, objectIds) == i
  {
    hide Home, Entries;
    assert ShardOk(shards[i], i, objectIds);
  }

  /** A shard that holds the same entries after as before stands for the same map. */
  lemma Rotated<V>(shards: seq<Shard<V>>, objectIds: map<nat, nat>, contents: map<Key, V>, i: nat, shard: Shard<V>)
    requires Stands(shards, objectIds, contents) && i < SHARD_COUNT
    requires Entries(shard) == Entries(shards[i]) && shard.current.Keys !! shard.previous.Keys
    ensures Stands(shards[i := shard], objectIds, contents)
  {
    hide Home, Entries;
    var t := shards[i := shard];
    forall j | 0 <= j < SHARD_COUNT ensures ShardOk(t[j], j, objectIds) { assert ShardOk(shards[j], j, objectIds); }
  }

  /** Giving an id to a new object moves no entry. */
  lemma IdGiven<V>(shards: seq<Shard<V>>, objectIds: map<nat, nat>, contents: map<Key, V>, identity: nat, id: nat)
    requires Stands(shards, objectIds, contents) && identity !in objectIds
    ensures Stands(shards, objectIds[identity := id], contents)
  {
    var after := objectIds[identity := id];
    forall k: Key | Seen(k, objectIds) ensures Seen(k, after) && Home(k, after) == Home(k, objectIds) {}
    hide Home, Entries;
    forall i | 0 <= i < SHARD_COUNT ensures ShardOk(shards[i], i, after) { assert ShardOk(shards[i], i, objectIds); }
  }

  // ---- The size ----

  ghost function HomedBelow<V>(objectIds: map<nat, nat>, contents: map<Key, V>, n: nat): (r: set<Key>) {
    set k | k in contents && Seen(k, objectIds) && Home(k, objectIds) < n
  }

  lemma HomedAll<V>(shards: seq<Shard<V>>, objectIds: map<nat, nat>, contents: map<Key, V>)
    requires Stands(shards, objectIds, contents)
    ensures HomedBelow(objectIds, contents, 0) == {} && HomedBelow(objectIds, contents, SHARD_COUNT) == contents.Keys
  {}

  lemma InShard<V>(shards: seq<Shard<V>>, objectIds: map<nat, nat>, contents: map<Key, V>, n: nat, k: Key)
    requires Stands(shards, objectIds, contents) && n < SHARD_COUNT
    ensures k in shards[n].current.Keys + shards[n].previous.Keys
      <==> k in contents && Seen(k, objectIds) && Home(k, objectIds) == n
  {
    hide Home;
    assert ShardOk(shards[n], n, objectIds);
    assert k in shards[n].current.Keys + shards[n].previous.Keys <==> k in Entries(shards[n]);
  }

  lemma HomedStep<V>(shards: seq<Shard<V>>, objectIds: map<nat, nat>, contents: map<Key, V>, n: nat)
    requires Stands(shards, objectIds, contents) && n < SHARD_COUNT == |shards|
    ensures var here := shards[n].current.Keys + shards[n].previous.Keys;
      HomedBelow(objectIds, contents, n + 1) == HomedBelow(objectIds, contents, n) + here
        && HomedBelow(objectIds, contents, n) !! here
  {
    hide Home, Stands, Entries;
    forall k
      ensures k in shards[n].current.Keys + shards[n].previous.Keys
        <==> k in contents && Seen(k, objectIds) && Home(k, objectIds) == n
    {
      InShard(shards, objectIds, contents, n, k);
    }
  }

  lemma CountShard<V>(shards: seq<Shard<V>>, objectIds: map<nat, nat>, contents: map<Key, V>, n: nat)
    requires Stands(shards, objectIds, contents) && n < SHARD_COUNT == |shards|
    ensures |HomedBelow(objectIds, contents, n + 1)|
      == |HomedBelow(objectIds, contents, n)| + |shards[n].current| + |shards[n].previous|
  {
    hide *;
    HomedStep(shards, objectIds, contents, n);
    Apart(shards, objectIds, contents, n);
    Sizes(HomedBelow(objectIds, contents, n), shards[n].current.Keys, shards[n].previous.Keys);
  }

  lemma Sizes(below: set<Key>, current: set<Key>, previous: set<Key>)
    requires current !! previous && below !! current + previous
    ensures |below + (current + previous)| == |below| + |current| + |previous|
  {
    assert |current + previous| == |current| + |previous|;
  }

  // ---- Rotation ----

  /** What rotation makes of a shard: once it has shrunk to less than a quarter of its high-water mark, or the
      mark is new, its entries all move into the old generation. */
  ghost function Turned<V>(shard: Shard<V>, minCapacity: nat): (after: Shard<V>) {
    var total, mark := |shard.current| + |shard.previous|, shard.highWaterMark;
    var raised := if total > mark then total else mark;
    if raised >= minCapacity && (mark == 0 || total * SHRINK_FACTOR < mark) then Shard(map[], Entries(shard), total)
    else shard.(highWaterMark := raised)
  }

  lemma TurnedKeeps<V>(shard: Shard<V>, minCapacity: nat)
    requires shard.current.Keys !! shard.previous.Keys
    ensures var after := Turned(shard, minCapacity);
      Entries(after) == Entries(shard) && after.current.Keys !! after.previous.Keys
  {
    var total := |shard.current| + |shard.previous|;
    assert Entries(Shard(map[], Entries(shard), total)) == Entries(shard);
  }

  /** When a shard turns its generations, and what becomes of its high-water mark. */
  lemma TurnedWhen<V>(shard: Shard<V>, minCapacity: nat)
    requires shard.current.Keys !! shard.previous.Keys
    ensures var after, mark := Turned(shard, minCapacity), shard.highWaterMark;
      var total := |shard.current| + |shard.previous|;
      && (forall k :: (k in after.current || k in after.previous) <==> (k in shard.current || k in shard.previous))
      && if (mark == 0 || total * SHRINK_FACTOR < mark) && (mark >= minCapacity || total >= minCapacity) then
           after.current == map[] && after.highWaterMark == total == |after.previous|
         else
           && after.current == shard.current && after.previous == shard.previous
           && after.highWaterMark == if mark < total then total else mark
  {
    assert Entries(shard).Keys == shard.current.Keys + shard.previous.Keys;
    assert |Entries(shard).Keys| == |shard.current.Keys| + |shard.previous.Keys|;
  }

  ghost function CombinedBut<V>(shard: Shard<V>, left: set<Key>): (m: map<Key, V>) {
    map k | k in Entries(shard) && (k in shard.current || k !in left) :: Entries(shard)[k]
  }

  class RotatingMap<V> {
    const minCapacity: nat
    const shards: array<Shard<V>>
    var objectIds: map<nat, nat>
    var nextObjectId: nat
    var timer: bool
    var started: bool
    var stopped: bool
    /** The plain map. */
    ghost var contents: map<Key, V>

    ghost predicate Valid()
      reads this, shards
    {
      shards.Length == SHARD_COUNT && Stands(shards[..], objectIds, contents) && (stopped ==> !timer)
    }

    constructor (minCapacity: nat)
      ensures Valid() && fresh(shards) && contents == map[] && !started && !stopped
    {
      this.minCapacity := minCapacity;
      shards := new Shard<V>[SHARD_COUNT](_ => Shard(map[], map[], 0));
      objectIds, nextObjectId, timer, started, stopped, contents := map[], 1, false, false, false, map[];
    }

    /** `shard`: the place of a key, which gets an id first if it is an object that has none. */
    method Locate(key: Key) returns (i: nat)
      requires Valid()
      modifies this`objectIds, this`nextObjectId
      ensures Valid() && Seen(key, objectIds) && i == Home(key, objectIds)
    {
      hide Stands, Mix, HashUnits, Index;
      if key.Object? && key.identity !in objectIds {
        IdGiven(shards[..], objectIds, contents, key.identity, nextObjectId);
        objectIds := objectIds[key.identity := nextObjectId];
        nextObjectId := nextObjectId + 1;
      }
      var hash: bv32;
      match key {
        case Object(identity) => hash := Mix(objectIds[identity]);
        case Primitive(text, _) => hash := HashString(text);
      }
      assert hash == Hash(key, objectIds);
      i := Index(hash);
    }

    method Set(key: Key, value: V) returns (ok: bool)
      requires Valid()
      modifies this, shards
      ensures Valid() && ok == (key !in old(contents))
      ensures contents == if ok then old(contents)[key := value] else old(contents)
    {
      hide Home, Stands;
      var i := Locate(key);
      AtHome(shards[..], objectIds, contents, key);
      var shard := shards[i];
      if key in shard.current || key in shard.previous { return false; }
      var after := shard.(current := shard.current[key := value]);
      Changed(shards[..], objectIds, contents, key, after, contents[key := value]);
      shards[i] := after;
      contents := contents[key := value];
      assert shards[..] == old(shards[..])[i := after];
      return true;
    }

    /** `made` is what the factory would return. */
    method GetOrCreate(key: Key, made: V) returns (value: V, loaded: bool)
      requires Valid()
      modifies this, shards
      ensures Valid() && loaded == (key in old(contents))
      ensures value == if loaded then old(contents)[key] else made
      ensures contents == if loaded then old(contents) else old(contents)[key := made]
    {
      hide Home, Stands;
      var i := Locate(key);
      AtHome(shards[..], objectIds, contents, key);
      var shard := shards[i];
      if key in shard.current { return shard.current[key], true; }
      if key in shard.previous { return shard.previous[key], true; }
      var after := shard.(current := shard.current[key := made]);
      Changed(shards[..], objectIds, contents, key, after, contents[key := made]);
      shards[i] := after;
      contents := contents[key := made];
      assert shards[..] == old(shards[..])[i := after];
      return made, false;
    }

    method Get(key: Key) returns (value: Option<V>)
      requires Valid()
      modifies this`objectIds, this`nextObjectId
      ensures Valid() && value == if key in contents then Some(contents[key]) else None
    {
      hide Home, Stands;
      var i := Locate(key);
      AtHome(shards[..], objectIds, contents, key);
      var shard := shards[i];
      if key in shard.current { return Some(shard.current[key]); }
      if key in shard.previous { return Some(shard.previous[key]); }
      return None;
    }

    method Pop(key: Key) returns (value: Option<V>)
      requires Valid()
      modifies this, shards
      ensures Valid() && value == if key in old(contents) then Some(old(contents)[key]) else None
      ensures contents == old(contents) - {key}
    {
      hide Home, Stands;
      var i := Locate(key);
      AtHome(shards[..], objectIds, contents, key);
      var shard := shards[i];
      var after := shard;
      if key in shard.current {
        value := Some(shard.current[key]);
        after := shard.(current := shard.current - {key});
      } else if key in shard.previous {
        value := Some(shard.previous[key]);
        after := shard.(previous := shard.previous - {key});
      } else {
        return None;
      }
      Changed(shards[..], objectIds, contents, key, after, contents - {key});
      shards[i] := after;
      contents := contents - {key};
      assert shards[..] == old(shards[..])[i := after];
    }

    method Size() returns (size: nat)
      requires Valid()
      ensures size == |contents|
    {
      hide Stands, HomedBelow;
      HomedAll(shards[..], objectIds, contents);
      size := 0;
      var i := 0;
      while i < shards.Length
        invariant i <= SHARD_COUNT && size == |HomedBelow(objectIds, contents, i)|
      {
        CountShard(shards[..], objectIds, contents, i);
        size := size + |shards[i].current| + |shards[i].previous|;
        i := i + 1;
      }
    }

    /** Both generations of a shard in one map. */
    static method Combine(shard: Shard<V>) returns (combined: map<Key, V>)
      requires shard.current.Keys !! shard.previous.Keys
      ensures combined == Entries(shard)
    {
      combined := shard.current;
      var left := shard.previous.Keys;
      while left != {}
        invariant left <= shard.previous.Keys && combined == CombinedBut(shard, left)
      {
        var k :| k in left;
        left := left - {k};
        if k !in combined { combined := combined[k := shard.previous[k]]; }
      }
    }

    method Turn(shard: Shard<V>) returns (after: Shard<V>)
      requires shard.current.Keys !! shard.previous.Keys
      ensures after == Turned(shard, minCapacity)
    {
      hide Entries;
      var total := |shard.current| + |shard.previous|;
      var shouldRotate := shard.highWaterMark == 0 || total * SHRINK_FACTOR < shard.highWaterMark;
      var mark := if total > shard.highWaterMark then total else shard.highWaterMark;
      if mark < minCapacity || !shouldRotate { return shard.(highWaterMark := mark); }
      var combined := Combine(shard);
      return Shard(map[], combined, total);
    }

    method RotateShard(i: nat)
      requires Valid() && i < SHARD_COUNT
      modifies shards
      ensures Valid() && shards[i] == Turned(old(shards[i]), minCapacity)
      ensures forall j :: 0 <= j < SHARD_COUNT && j != i ==> shards[j] == old(shards[j])
      ensures var before, after := old(shards[i]), shards[i];
        forall k :: (k in after.current || k in after.previous) <==> (k in before.current || k in before.previous)
      ensures var before, after := old(shards[i]), shards[i]; var mark := before.highWaterMark;
        var total := |before.current| + |before.previous|;
        if (mark == 0 || total * SHRINK_FACTOR < mark) && (mark >= minCapacity || total >= minCapacity) then
          after.current == map[] && after.highWaterMark == total == |after.previous|
        else
          && after.current == before.current && after.previous == before.previous
          && after.highWaterMark == if mark < total then total else mark
    {
      hide Home, Entries, Stands, Turned;
      Apart(shards[..], objectIds, contents, i);
      TurnedWhen(shards[i], minCapacity);
      TurnedKeeps(shards[i], minCapacity);
      var after := Turn(shards[i]);
      Rotated(shards[..], objectIds, contents, i, after);
      shards[i] := after;
      assert shards[..] == old(shards[..])[i := after];
    }

    method Rotate()
      requires Valid()
      modifies shards
      ensures Valid() && forall i :: 0 <= i < SHARD_COUNT ==> shards[i] == Turned(old(shards[i]), minCapacity)
    {
      hide Home, Stands, Entries, Turned;
      var i := 0;
      while i < shards.Length
        invariant i <= SHARD_COUNT && Valid()
        invariant forall j :: 0 <= j < i ==> shards[j] == Turned(old(shards[j]), minCapacity)
        invariant forall j :: i <= j < SHARD_COUNT ==> shards[j] == old(shards[j])
      {
        RotateShard(i);
        i := i + 1;
      }
    }

    method Start() returns (ok: bool)
      requires Valid()
      modifies this`started, this`timer
      ensures Valid() && ok == (!old(stopped) && !old(started)) && started == (old(started) || ok)
        && timer == (old(timer) || ok)
    {
      hide Stands;
      if stopped || started { return false; }
      started := true;
      timer := true;
      return true;
    }

    method Stop()
      requires Valid()
      modifies this`stopped, this`timer
      ensures Valid() && stopped && !timer
    {
      hide Stands;
      if stopped { return; }
      stopped := true;
      timer := false;
    }

    /** The timer callback, which may come when a stop has just taken its timer away. */
    method Tick()
      requires Valid() && (timer || stopped)
      modifies this`timer, shards
      ensures Valid() && timer == !stopped
    {
      hide Home, Stands, Entries;
      timer := false;
      if stopped { return; }
      Rotate();
      timer := true;
    }
  }
}
