/** The serdes as the source runs them: loops that append to an output and advance a reader, proved to
    compute what `Serde` says. */
module SerdeLoops {
  import opened Base
  import opened SerdeFraming
  import opened Serde

  function After(prefix: seq<Byte>, rest: Option<seq<Byte>>): Option<seq<Byte>> {
    if rest.None? then None else Some(prefix + rest.value)
  }

  lemma AfterJoined(prefix: seq<Byte>, a: seq<Byte>, rest: Option<seq<Byte>>)
    ensures After(prefix, Joined(Some(a), rest)) == After(prefix + a, rest)
  {
    if rest.Some? { assert prefix + (a + rest.value) == prefix + a + rest.value; }
  }

  lemma AfterFramed(prefix: seq<Byte>, a: seq<Byte>, rest: Option<seq<Byte>>)
    requires |a| <= MAX_SAFE_INTEGER
    ensures After(prefix, Joined(Framed(Some(a)), rest)) == After(prefix + EncodeSize(|a|).value + a, rest)
  {
    var size := EncodeSize(|a|).value;
    AfterJoined(prefix, size + a, rest);
    assert prefix + (size + a) == prefix + size + a;
  }

  /** `serialize` of the serde for a schema. */
  method Serialize(schema: Schema, value: Value, prefix: seq<Byte>) returns (output: Option<seq<Byte>>)
    ensures output == After(prefix, Encode(schema, value))
    decreases schema, 1
  {
    match (schema, value)
    case (Integer(kind), Number(n)) =>
      if kind.bytes == 0 || !InRange(kind, n) { return None; }
      var result := AppendBytes(prefix, ToBytes(ToWire(kind, n), kind.bytes));
      return Some(result);
    case (Bytes(limits), Blob(bytes)) =>
      if |bytes| > limits.maxBytes { return None; }
      output := AppendFramed(prefix, bytes);
    case (FixedArray(element, size, limits), List(items)) =>
      if |items| > limits.maxContainerElements { return None; }
      output := SerializeFixed(element, size, items, prefix);
    case (Array(element, limits), List(items)) =>
      if |items| > limits.maxContainerElements { return None; }
      output := SerializeFramed(element, items, prefix);
    case (Mapping(_, _, _), Table(entries)) =>
      output := SerializeMap(schema, entries, prefix);
    case (KeyValue(key, item), Pair(k, v)) =>
      var a := Serialize(key, k, []);
      var b := Serialize(item, v, []);
      output := AppendBoth(a, b, prefix);
      NoPrefix(Encode(key, k));
      NoPrefix(Encode(item, v));
    case _ => return None;
  }

  lemma NoPrefix(b: Option<seq<Byte>>)
    ensures After([], b) == b
  {
    if b.Some? { assert [] + b.value == b.value; }
  }

  method AppendFramed(prefix: seq<Byte>, bytes: seq<Byte>) returns (output: Option<seq<Byte>>)
    ensures output == After(prefix, Framed(Some(bytes)))
  {
    hide ToBytes;
    var size := EncodeSize(|bytes|);
    if size.None? { return None; }
    var framed := AppendBytes(size.value, bytes);
    var result := AppendBytes(prefix, framed);
    return Some(result);
  }

  /** Two encoded parts, each behind its length. */
  method AppendBoth(a: Option<seq<Byte>>, b: Option<seq<Byte>>, prefix: seq<Byte>) returns (output: Option<seq<Byte>>)
    ensures output == After(prefix, Joined(Framed(a), Framed(b)))
  {
    hide ToBytes;
    if a.None? || b.None? { return None; }
    output := AppendFramed(prefix, a.value);
    if output.None? { return None; }
    var first := output.value;
    output := AppendFramed(first, b.value);
    if |b.value| <= MAX_SAFE_INTEGER { AfterJoined(prefix, EncodeSize(|a.value|).value + a.value, Framed(b)); }
  }

  method SerializeFixed(element: Schema, size: nat, items: seq<Value>, prefix: seq<Byte>)
    returns (output: Option<seq<Byte>>)
    ensures output == After(prefix, Joined(EncodeSize(|items|), EncodeFixed(element, size, items)))
    decreases element, 2
  {
    hide ToBytes, Encode;
    var count := EncodeSize(|items|);
    if count.None? { return None; }
    var result := AppendBytes(prefix, count.value);
    ghost var total := After(prefix, Joined(count, EncodeFixed(element, size, items)));
    AfterJoined(prefix, count.value, EncodeFixed(element, size, items));
    var i := 0;
    assert items[0..] == items;
    while i < |items|
      invariant i <= |items| && After(result, EncodeFixed(element, size, items[i..])) == total
    {
      assert items[i..][1..] == items[i + 1..];
      var encoded := Serialize(element, items[i], []);
      NoPrefix(Encode(element, items[i]));
      if encoded.None? || |encoded.value| != size { return None; }
      AfterJoined(result, encoded.value, EncodeFixed(element, size, items[i + 1..]));
      result := AppendBytes(result, encoded.value);
      i := i + 1;
    }
    assert result + [] == result;
    return Some(result);
  }

  method SerializeFramed(element: Schema, items: seq<Value>, prefix: seq<Byte>) returns (output: Option<seq<Byte>>)
    ensures output == After(prefix, Joined(EncodeSize(|items|), EncodeFramed(element, items)))
    decreases element, 2
  {
    hide ToBytes, Encode;
    var count := EncodeSize(|items|);
    if count.None? { return None; }
    var result := AppendBytes(prefix, count.value);
    ghost var total := After(prefix, Joined(count, EncodeFramed(element, items)));
    AfterJoined(prefix, count.value, EncodeFramed(element, items));
    var i := 0;
    assert items[0..] == items;
    while i < |items|
      invariant i <= |items| && After(result, EncodeFramed(element, items[i..])) == total
    {
      assert items[i..][1..] == items[i + 1..];
      var encoded := Serialize(element, items[i], []);
      NoPrefix(Encode(element, items[i]));
      if encoded.None? { return None; }
      var length := EncodeSize(|encoded.value|);
      if length.None? { return None; }
      AfterFramed(result, encoded.value, EncodeFramed(element, items[i + 1..]));
      result := AppendBytes(result, length.value);
      result := AppendBytes(result, encoded.value);
      i := i + 1;
    }
    assert result + [] == result;
    return Some(result);
  }

  method SerializeMap(schema: Schema, entries: seq<(Value, Value)>, prefix: seq<Byte>)
    returns (output: Option<seq<Byte>>)
    requires schema.Mapping?
    ensures output == After(prefix, Joined(Framed(Encode(schema.keys, List(Firsts(entries)))),
                                           Framed(Encode(schema.values, List(Seconds(entries))))))
    decreases schema, 0
  {
    hide Encode;
    var firsts: seq<Value>, seconds: seq<Value> := [], [];
    var i := 0;
    while i < |entries|
      invariant i <= |entries| && |firsts| == i && |seconds| == i
      invariant forall j :: 0 <= j < i ==> firsts[j] == entries[j].0 && seconds[j] == entries[j].1
    {
      firsts := firsts + [entries[i].0];
      seconds := seconds + [entries[i].1];
      i := i + 1;
    }
    assert firsts == Firsts(entries) && seconds == Seconds(entries);
    var a := Serialize(schema.keys, List(firsts), []);
    var b := Serialize(schema.values, List(seconds), []);
    NoPrefix(Encode(schema.keys, List(firsts)));
    NoPrefix(Encode(schema.values, List(seconds)));
    output := AppendBoth(a, b, prefix);
  }

  // ---- Deserialization ----

  function Attach(done: seq<Value>, rest: Option<seq<Value>>): Option<seq<Value>> {
    if rest.None? then None else Some(done + rest.value)
  }

  lemma AttachOne(done: seq<Value>, v: Value, rest: Option<seq<Value>>)
    ensures Attach(done, Prepend(v, rest)) == Attach(done + [v], rest)
  {
    if rest.Some? { assert done + ([v] + rest.value) == done + [v] + rest.value; }
  }

  /** `deserialize` of the serde for a schema. */
  method Deserialize(schema: Schema, data: seq<Byte>) returns (value: Option<Value>)
    ensures value == Decode(schema, data)
    decreases schema, 1
  {
    hide FromBytes, ReadAt, ReadSizeAt, DecodeFixed, DecodeFramed, DecodePiece, Zipped;
    if |data| > Limit(schema) { return None; }
    var reader := new SerdeReader(data);
    match schema
    case Integer(kind) =>
      var encoded := reader.Read(kind.bytes);
      if encoded.None? || kind.bytes == 0 { return None; }
      return Some(Number(FromWire(kind, FromBytes(encoded.value))));
    case Bytes(limits) =>
      var length := reader.ReadSize(limits.maxBytes);
      if length.None? { return None; }
      var bytes := reader.Read(length.value);
      if bytes.None? { return None; }
      return Some(Blob(bytes.value));
    case FixedArray(element, size, limits) =>
      var count := reader.ReadSize(limits.maxContainerElements);
      if count.None? { return None; }
      var items := DeserializeFixed(element, size, reader, count.value);
      return ToList(items);
    case Array(element, limits) =>
      var count := reader.ReadSize(limits.maxContainerElements);
      if count.None? { return None; }
      var items := DeserializeFramed(element, reader, count.value);
      return ToList(items);
    case Mapping(_, _, _) => value := DeserializeMap(schema, reader);
    case KeyValue(_, _) => value := DeserializePair(schema, reader);
  }

  method DeserializeFixed(element: Schema, size: nat, reader: SerdeReader, count: nat)
    returns (items: Option<seq<Value>>)
    modifies reader
    ensures items == DecodeFixed(element, size, reader.data, old(reader.offset), count)
    decreases element, 2
  {
    hide Decode, ReadAt;
    ghost var total := DecodeFixed(element, size, reader.data, reader.offset, count);
    var result := [];
    if total.Some? { assert [] + total.value == total.value; }
    var index := 0;
    while index < count
      invariant index <= count
      invariant Attach(result, DecodeFixed(element, size, reader.data, reader.offset, count - index)) == total
    {
      var piece := reader.Read(size);
      if piece.None? { return None; }
      var v := Deserialize(element, piece.value);
      if v.None? { return None; }
      AttachOne(result, v.value, DecodeFixed(element, size, reader.data, reader.offset, count - index - 1));
      result := result + [v.value];
      index := index + 1;
    }
    assert result + [] == result;
    return Some(result);
  }

  /** One framed value off the front of a reader. */
  method DeserializePiece(schema: Schema, reader: SerdeReader) returns (value: Option<Value>)
    modifies reader
    ensures var piece := DecodePiece(schema, reader.data, old(reader.offset));
      if piece.None? then value.None? else value == Some(piece.value.0) && reader.offset == piece.value.1
    decreases schema, 2
  {
    hide Decode, ReadAt, ReadSizeAt;
    var length := reader.ReadSize(|reader.data|);
    if length.None? { return None; }
    var piece := reader.Read(length.value);
    if piece.None? { return None; }
    value := Deserialize(schema, piece.value);
  }

  method DeserializeFramed(element: Schema, reader: SerdeReader, count: nat) returns (items: Option<seq<Value>>)
    modifies reader
    ensures items == DecodeFramed(element, reader.data, old(reader.offset), count)
    decreases element, 3
  {
    hide DecodePiece;
    ghost var total := DecodeFramed(element, reader.data, reader.offset, count);
    var result := [];
    if total.Some? { assert [] + total.value == total.value; }
    var index := 0;
    while index < count
      invariant index <= count
      invariant Attach(result, DecodeFramed(element, reader.data, reader.offset, count - index)) == total
    {
      var v := DeserializePiece(element, reader);
      if v.None? { return None; }
      AttachOne(result, v.value, DecodeFramed(element, reader.data, reader.offset, count - index - 1));
      result := result + [v.value];
      index := index + 1;
    }
    assert result + [] == result;
    return Some(result);
  }

  method DeserializeMap(schema: Schema, reader: SerdeReader) returns (value: Option<Value>)
    requires schema.Mapping? && reader.offset == 0 && |reader.data| <= Limit(schema)
    modifies reader
    ensures value == Decode(schema, reader.data)
    decreases schema, 0
  {
    hide DecodePiece, SetEntry;
    var keys := DeserializePiece(schema.keys, reader);
    if keys.None? { return None; }
    var values := DeserializePiece(schema.values, reader);
    if values.None? || !keys.value.List? || !values.value.List? { return None; }
    var ks, vs := keys.value.items, values.value.items;
    if |ks| != |vs| { return None; }
    var entries: seq<(Value, Value)> := [];
    var i := 0;
    while i < |ks|
      invariant i <= |ks| && entries == Zipped(ks[..i], vs[..i])
    {
      assert ks[..i + 1][..i] == ks[..i] && vs[..i + 1][..i] == vs[..i];
      entries := SetEntry(entries, ks[i], vs[i]);
      i := i + 1;
    }
    assert ks[..i] == ks && vs[..i] == vs;
    return Some(Table(entries));
  }

  method DeserializePair(schema: Schema, reader: SerdeReader) returns (value: Option<Value>)
    requires schema.KeyValue? && reader.offset == 0 && |reader.data| <= Limit(schema)
    modifies reader
    ensures value == Decode(schema, reader.data)
    decreases schema, 0
  {
    hide DecodePiece;
    var key := DeserializePiece(schema.key, reader);
    if key.None? { return None; }
    var item := DeserializePiece(schema.value, reader);
    if item.None? { return None; }
    return Some(Pair(key.value, item.value));
  }
}
