/** Which values the serdes serialize, and to how many bytes. */
module SerdeDomain {
  import opened Base
  import opened SerdeFraming
  import opened Serde

  /** The bytes a value takes. */
  function Size(schema: Schema, value: Value): nat
    decreases schema, 0
  {
    match (schema, value)
    case (Integer(kind), _) => kind.bytes
    case (Bytes(_), Blob(bytes)) => SIZE_BYTES + |bytes|
    case (FixedArray(element, size, _), List(items)) => SIZE_BYTES + |items| * size
    case (Array(element, _), List(items)) => SIZE_BYTES + Sizes(element, items)
    case (Mapping(keys, values, _), Table(entries)) =>
      2 * SIZE_BYTES + Size(keys, List(Firsts(entries))) + Size(values, List(Seconds(entries)))
    case (KeyValue(key, item), Pair(k, v)) => 2 * SIZE_BYTES + Size(key, k) + Size(item, v)
    case _ => 0
  }

  /** The bytes of framed elements. */
  function Sizes(element: Schema, items: seq<Value>): nat
    decreases element, 1, |items|
  {
    if items == [] then 0 else SIZE_BYTES + Size(element, items[0]) + Sizes(element, items[1..])
  }

  /** The value is of the schema's kind, every number in its range, every container within the limits its serde was made
      with, every element of a fixed size of that size, and every framed part of a size that is a safe integer. */
  ghost predicate Writable(schema: Schema, value: Value)
    decreases schema, 0
  {
    match (schema, value)
    case (Integer(kind), Number(n)) =>
      if kind.signed then 0 <= 2 * n + Pow256(kind.bytes) && 2 * n < Pow256(kind.bytes) else 0 <= n < Pow256(kind.bytes)
    case (Bytes(limits), Blob(bytes)) => |bytes| <= limits.maxBytes
    case (FixedArray(element, size, limits), List(items)) =>
      && |items| <= limits.maxContainerElements
      && forall i :: 0 <= i < |items| ==> Writable(element, items[i]) && Size(element, items[i]) == size
    case (Array(element, limits), List(items)) =>
      && |items| <= limits.maxContainerElements
      && forall i :: 0 <= i < |items| ==> FramedWell(element, items[i])
    case (Mapping(keys, values, _), Table(entries)) =>
      FramedWell(keys, List(Firsts(entries))) && FramedWell(values, List(Seconds(entries)))
    case (KeyValue(key, item), Pair(k, v)) => FramedWell(key, k) && FramedWell(item, v)
    case _ => false
  }

  ghost predicate FramedWell(schema: Schema, value: Value)
    decreases schema, 1
  {
    Writable(schema, value) && Size(schema, value) <= MAX_SAFE_INTEGER
  }

  /** `serialize` succeeds exactly on these values, and writes that many bytes. */
  ghost predicate Encodes(schema: Schema, value: Value) {
    && (Encode(schema, value).Some? <==> Writable(schema, value))
    && (Writable(schema, value) ==> |Encode(schema, value).value| == Size(schema, value))
  }

  lemma HalfPower(w: nat)
    requires w > 0
    ensures Pow256(w) == 256 * Pow256(w - 1)
  {}

  lemma FramedEncodes(schema: Schema, value: Value)
    requires Encodes(schema, value)
    ensures Framed(Encode(schema, value)).Some? <==> FramedWell(schema, value)
    ensures FramedWell(schema, value) ==> |Framed(Encode(schema, value)).value| == SIZE_BYTES + Size(schema, value)
  {
    hide Encode, Writable, Size;
  }

  lemma {:induction false} FixedEncodes(element: Schema, size: nat, items: seq<Value>)
    requires forall i :: 0 <= i < |items| ==> Encodes(element, items[i])
    ensures EncodeFixed(element, size, items).Some?
      <==> forall i :: 0 <= i < |items| ==> Writable(element, items[i]) && Size(element, items[i]) == size
    ensures EncodeFixed(element, size, items).Some? ==> |EncodeFixed(element, size, items).value| == |items| * size
  {
    hide Encode, Writable, Size;
    if items != [] {
      var rest := items[1..];
      assert items == [items[0]] + rest;
      assert forall i :: 0 <= i < |rest| ==> rest[i] == items[i + 1];
      FixedEncodes(element, size, rest);
      assert |items| * size == size + |rest| * size;
    }
  }

  lemma {:induction false} ArrayEncodes(element: Schema, items: seq<Value>)
    requires forall i :: 0 <= i < |items| ==> Encodes(element, items[i])
    ensures EncodeFramed(element, items).Some?
      <==> forall i :: 0 <= i < |items| ==> FramedWell(element, items[i])
    ensures EncodeFramed(element, items).Some? ==> |EncodeFramed(element, items).value| == Sizes(element, items)
  {
    hide Encode, Writable, Size;
    if items != [] {
      var rest := items[1..];
      assert items == [items[0]] + rest;
      assert forall i :: 0 <= i < |rest| ==> rest[i] == items[i + 1];
      ArrayEncodes(element, rest);
      FramedEncodes(element, items[0]);
    }
  }

  /** The domain of `serialize`, for every nesting of the serdes: it succeeds if and only if the value is within the
      schema's kinds and limits, and then writes exactly its size. */
  lemma {:induction false} EncodesIff(schema: Schema, value: Value)
    requires WellMade(schema)
    ensures Encode(schema, value).Some? <==> Writable(schema, value)
    ensures Writable(schema, value) ==> |Encode(schema, value).value| == Size(schema, value)
    decreases schema, 0
  {
    hide EncodeFixed, EncodeFramed, EncodeSize, ToWire, ToBytes;
    match (schema, value)
    case (Integer(kind), Number(n)) => HalfPower(kind.bytes);
    case (FixedArray(element, size, _), List(items)) =>
      forall i | 0 <= i < |items| ensures Encodes(element, items[i]) { EncodesIff(element, items[i]); }
      FixedEncodes(element, size, items);
    case (Array(element, _), List(items)) =>
      forall i | 0 <= i < |items| ensures Encodes(element, items[i]) { EncodesIff(element, items[i]); }
      ArrayEncodes(element, items);
    case (Mapping(keys, values, _), Table(entries)) =>
      EncodesIff(keys, List(Firsts(entries)));
      EncodesIff(values, List(Seconds(entries)));
      FramedEncodes(keys, List(Firsts(entries)));
      FramedEncodes(values, List(Seconds(entries)));
    case (KeyValue(key, item), Pair(k, v)) =>
      EncodesIff(key, k);
      EncodesIff(item, v);
      FramedEncodes(key, k);
      FramedEncodes(item, v);
    case _ =>
  }

  // ---- What reading can return, whatever the data ----

  /** The value is of the schema's kind, every number in its range, every container within the limits its reader was
      made with, and no number twice a key of a table. */
  ghost predicate Readable(schema: Schema, value: Value)
    decreases schema
  {
    match (schema, value)
    case (Integer(kind), Number(n)) =>
      if kind.signed then 0 <= 2 * n + Pow256(kind.bytes) && 2 * n < Pow256(kind.bytes) else 0 <= n < Pow256(kind.bytes)
    case (Bytes(limits), Blob(bytes)) => |bytes| <= limits.maxBytes
    case (FixedArray(element, _, limits), List(items)) =>
      |items| <= limits.maxContainerElements && forall i :: 0 <= i < |items| ==> Readable(element, items[i])
    case (Array(element, limits), List(items)) =>
      |items| <= limits.maxContainerElements && forall i :: 0 <= i < |items| ==> Readable(element, items[i])
    case (Mapping(keys, values, _), Table(entries)) =>
      && Readable(keys, List(Firsts(entries))) && Readable(values, List(Seconds(entries))) && DistinctKeys(entries)
    case (KeyValue(key, item), Pair(k, v)) => Readable(key, k) && Readable(item, v)
    case _ => false
  }

  /** Fewer of the same. */
  lemma FewerReadable(schema: Schema, all: seq<Value>, some: seq<Value>)
    requires Readable(schema, List(all)) && |some| <= |all| && forall x <- some :: x in all
    ensures Readable(schema, List(some))
  {
    forall i | 0 <= i < |some| ensures exists j :: 0 <= j < |all| && all[j] == some[i] { assert some[i] in all; }
  }

  /** `Map.set` adds at most an entry, of that key and value. */
  lemma {:induction false} SetEntryAdds(entries: seq<(Value, Value)>, key: Value, value: Value)
    ensures var t := SetEntry(entries, key, value);
      |entries| <= |t| <= |entries| + 1
      && forall i :: 0 <= i < |t| ==>
           (t[i].0 == key || exists j :: 0 <= j < |entries| && t[i].0 == entries[j].0)
           && (t[i].1 == value || exists j :: 0 <= j < |entries| && t[i].1 == entries[j].1)
  {
    if entries != [] && !SameKey(entries[0].0, key) {
      var rest := entries[1..];
      SetEntryAdds(rest, key, value);
      assert forall j :: 0 <= j < |rest| ==> rest[j] == entries[j + 1];
    }
  }

  lemma {:induction false} SetEntryDistinct(entries: seq<(Value, Value)>, key: Value, value: Value)
    requires DistinctKeys(entries)
    ensures DistinctKeys(SetEntry(entries, key, value))
    ensures forall i :: 0 <= i < |SetEntry(entries, key, value)| ==>
      SameKey(SetEntry(entries, key, value)[i].0, key) || SetEntry(entries, key, value)[i].0 == key
      || exists j :: 0 <= j < |entries| && SetEntry(entries, key, value)[i].0 == entries[j].0
  {
    if entries != [] && !SameKey(entries[0].0, key) {
      var rest := entries[1..];
      assert forall j :: 0 <= j < |rest| ==> rest[j] == entries[j + 1];
      SetEntryDistinct(rest, key, value);
    }
  }

  /** Zipping makes a map of the keys with values among the values. */
  lemma {:induction false} ZippedOf(keys: seq<Value>, values: seq<Value>)
    requires |keys| == |values|
    ensures var t := Zipped(keys, values);
      && |t| <= |keys| && DistinctKeys(t)
      && (forall x <- Firsts(t) :: x in keys) && (forall x <- Seconds(t) :: x in values)
  {
    if keys != [] {
      var n := |keys| - 1;
      var before, t := Zipped(keys[..n], values[..n]), Zipped(keys, values);
      ZippedOf(keys[..n], values[..n]);
      SetEntryAdds(before, keys[n], values[n]);
      SetEntryDistinct(before, keys[n], values[n]);
      forall i | 0 <= i < |t| ensures t[i].0 in keys && t[i].1 in values {
        if t[i].0 != keys[n] {
          var j :| 0 <= j < |before| && t[i].0 == before[j].0;
          assert Firsts(before)[j] in keys[..n];
        }
        if t[i].1 != values[n] {
          var j :| 0 <= j < |before| && t[i].1 == before[j].1;
          assert Seconds(before)[j] in values[..n];
        }
      }
    }
  }

  /** Whatever the data, what is read is of the schema's kind and within the limits its readers were made with. */
  lemma {:induction false} ReadsWithin(schema: Schema, data: seq<Byte>)
    requires WellMade(schema) && Decode(schema, data).Some?
    ensures Readable(schema, Decode(schema, data).value)
    decreases schema, 0
  {
    hide Zipped, DecodeFixed, DecodeFramed, DecodePiece, FromBytes;
    match schema
    case Integer(kind) => HalfPower(kind.bytes);
    case Bytes(_) =>
    case FixedArray(element, size, limits) =>
      FixedWithin(element, size, data, SIZE_BYTES, ReadSizeAt(data, 0, limits.maxContainerElements).value);
    case Array(element, limits) =>
      FramedWithin(element, data, SIZE_BYTES, ReadSizeAt(data, 0, limits.maxContainerElements).value);
    case Mapping(keys, values, _) =>
      PieceWithin(keys, data, 0);
      var k := DecodePiece(keys, data, 0).value;
      PieceWithin(values, data, k.1);
      var v := DecodePiece(values, data, k.1).value;
      ZippedOf(k.0.items, v.0.items);
      var t := Zipped(k.0.items, v.0.items);
      FewerReadable(keys, k.0.items, Firsts(t));
      FewerReadable(values, v.0.items, Seconds(t));
    case KeyValue(key, item) =>
      PieceWithin(key, data, 0);
      PieceWithin(item, data, DecodePiece(key, data, 0).value.1);
  }

  lemma {:induction false} PieceWithin(schema: Schema, data: seq<Byte>, offset: nat)
    requires WellMade(schema) && DecodePiece(schema, data, offset).Some?
    ensures Readable(schema, DecodePiece(schema, data, offset).value.0)
    decreases schema, 1
  {
    hide Decode, Readable;
    ReadsWithin(schema, ReadAt(data, offset + SIZE_BYTES, ReadSizeAt(data, offset, |data|).value).value);
  }

  lemma {:induction false} FixedWithin(element: Schema, size: nat, data: seq<Byte>, offset: nat, count: nat)
    requires WellMade(element) && DecodeFixed(element, size, data, offset, count).Some?
    ensures var items := DecodeFixed(element, size, data, offset, count).value;
      |items| == count && forall i :: 0 <= i < |items| ==> Readable(element, items[i])
    decreases element, 1, count
  {
    hide Decode, Readable;
    if count > 0 {
      ReadsWithin(element, ReadAt(data, offset, size).value);
      FixedWithin(element, size, data, offset + size, count - 1);
    }
  }

  lemma {:induction false} FramedWithin(element: Schema, data: seq<Byte>, offset: nat, count: nat)
    requires WellMade(element) && DecodeFramed(element, data, offset, count).Some?
    ensures var items := DecodeFramed(element, data, offset, count).value;
      |items| == count && forall i :: 0 <= i < |items| ==> Readable(element, items[i])
    decreases element, 2, count
  {
    hide Decode, DecodePiece, Readable;
    if count > 0 {
      PieceWithin(element, data, offset);
      FramedWithin(element, data, DecodePiece(element, data, offset).value.1, count - 1);
    }
  }
}
