/** The self-delimiting serdes: integers, bytes, and every nesting of arrays, maps and pairs over them. */
module Serde {
  import opened Base
  import opened SerdeFraming

  /** An integer serde: its width, whether it is signed, and whether it stores the sign bit inverted. */
  datatype IntKind = IntKind(bytes: nat, signed: bool, flipped: bool)

  const UINT8 := IntKind(1, false, false)
  const UINT16 := IntKind(2, false, false)
  const UINT32 := IntKind(4, false, false)
  const UINT64 := IntKind(8, false, false)
  const INT8 := IntKind(1, true, false)
  const INT16 := IntKind(2, true, true)
  const INT32 := IntKind(4, true, true)
  const INT64 := IntKind(8, true, true)
  const RUNE := IntKind(4, true, false)

  predicate Proper(kind: IntKind) {
    kind.bytes > 0 && (kind.flipped ==> kind.signed)
  }

  function Half(kind: IntKind): nat
    requires kind.bytes > 0
  {
    128 * Pow256(kind.bytes - 1)
  }

  predicate InRange(kind: IntKind, v: int)
    requires kind.bytes > 0
  {
    if kind.signed then 0 <= v + Half(kind) && v < Half(kind) else 0 <= v < 2 * Half(kind)
  }

  /** `x ^ signBit` on the unsigned representation. */
  function FlipTop(kind: IntKind, u: nat): nat
    requires kind.bytes > 0
  {
    if u >= Half(kind) then u - Half(kind) else u + Half(kind)
  }

  /** The bits as an unsigned number: two's complement, with the sign bit inverted if the kind says so. */
  function ToWire(kind: IntKind, v: int): (u: nat)
    requires kind.bytes > 0 && InRange(kind, v)
    ensures u < Pow256(kind.bytes)
  {
    var u := if v < 0 then v + 2 * Half(kind) else v;
    if kind.flipped then FlipTop(kind, u) else u
  }

  function FromWire(kind: IntKind, u: nat): int
    requires kind.bytes > 0
  {
    var w := if kind.flipped then FlipTop(kind, u) else u;
    if kind.signed && w >= Half(kind) then w - 2 * Half(kind) else w
  }

  lemma WireTrip(kind: IntKind, v: int)
    requires Proper(kind) && InRange(kind, v)
    ensures FromWire(kind, ToWire(kind, v)) == v
  {}

  /** Unsigned kinds, and signed ones that invert the sign bit, are stored in numeric order. */
  lemma OrderPreserved(kind: IntKind, a: int, b: int)
    requires Proper(kind) && kind.signed == kind.flipped && InRange(kind, a) && InRange(kind, b)
    ensures BytewiseLess(ToBytes(ToWire(kind, a), kind.bytes), ToBytes(ToWire(kind, b), kind.bytes)) <==> a < b
  {
    BytewiseIsNumeric(ToWire(kind, a), ToWire(kind, b), kind.bytes);
  }

  /** A signed kind that keeps the sign bit (8-bit integers and runes) is stored in numeric order exactly
      between numbers of one sign. */
  lemma OrderOfPlainSigned(kind: IntKind, a: int, b: int)
    requires Proper(kind) && kind.signed && !kind.flipped && InRange(kind, a) && InRange(kind, b) && a < b
    ensures BytewiseLess(ToBytes(ToWire(kind, a), kind.bytes), ToBytes(ToWire(kind, b), kind.bytes))
      <==> (a >= 0 || b < 0)
  {
    BytewiseIsNumeric(ToWire(kind, a), ToWire(kind, b), kind.bytes);
  }

  /** Whether the bytes of every two numbers of a kind compare as the numbers do. */
  ghost predicate KeepsOrder(kind: IntKind)
    requires Proper(kind)
  {
    forall a, b :: InRange(kind, a) && InRange(kind, b) ==>
      (BytewiseLess(ToBytes(ToWire(kind, a), kind.bytes), ToBytes(ToWire(kind, b), kind.bytes)) <==> a < b)
  }

  lemma KeepsOrderIff(kind: IntKind)
    requires Proper(kind)
    ensures KeepsOrder(kind) <==> kind.signed == kind.flipped
  {
    if kind.signed == kind.flipped {
      forall a, b | InRange(kind, a) && InRange(kind, b)
        ensures BytewiseLess(ToBytes(ToWire(kind, a), kind.bytes), ToBytes(ToWire(kind, b), kind.bytes)) <==> a < b
      {
        OrderPreserved(kind, a, b);
      }
    } else {
      assert InRange(kind, -1) && InRange(kind, 0);
      OrderOfPlainSigned(kind, -1, 0);
    }
  }

  /** Of the integer serdes exactly those of 8-bit integers and runes do not keep the numeric order. */
  lemma OrderedKinds(kind: IntKind)
    requires kind in {UINT8, UINT16, UINT32, UINT64, INT8, INT16, INT32, INT64, RUNE}
    ensures KeepsOrder(kind) <==> kind != INT8 && kind != RUNE
  {
    KeepsOrderIff(kind);
  }

  lemma PlainSignedOutOfOrder()
    ensures BytewiseLess(ToBytes(ToWire(INT8, 1), 1), ToBytes(ToWire(INT8, -1), 1))
  {
    OrderOfPlainSigned(INT8, -1, 1);
    BytewiseIsNumeric(ToWire(INT8, 1), ToWire(INT8, -1), 1);
  }

  datatype Limits = Limits(maxBytes: nat, maxContainerElements: nat, maxTotalBytes: nat)

  predicate Safe(limits: Limits) {
    limits.maxBytes <= MAX_SAFE_INTEGER && limits.maxContainerElements <= MAX_SAFE_INTEGER
      && limits.maxTotalBytes <= MAX_SAFE_INTEGER
  }

  datatype Schema =
    | Integer(kind: IntKind)
    | Bytes(limits: Limits)
    | FixedArray(element: Schema, elementSize: nat, limits: Limits)
    | Array(element: Schema, limits: Limits)
    | Mapping(keys: Schema, values: Schema, maxTotalBytes: nat)
    | KeyValue(key: Schema, value: Schema)

  datatype Value =
    | Number(number: int)
    | Blob(bytes: seq<Byte>)
    | List(items: seq<Value>)
    | Table(entries: seq<(Value, Value)>)
    | Pair(key: Value, value: Value)

  /** What the constructors of the serdes demand. */
  predicate WellMade(schema: Schema) {
    match schema
    case Integer(kind) => Proper(kind) && kind.bytes <= 8
    case Bytes(limits) => Safe(limits)
    case FixedArray(element, size, limits) => WellMade(element) && size > 0 && Safe(limits)
    case Array(element, limits) => WellMade(element) && Safe(limits)
    case Mapping(keys, values, max) => WellMade(keys) && WellMade(values) && max <= MAX_SAFE_INTEGER
    case KeyValue(key, value) => WellMade(key) && WellMade(value)
  }

  // ---- Tables: numbers are keys by value, everything else by identity ----

  predicate SameKey(a: Value, b: Value) {
    a.Number? && a == b
  }

  predicate HasKey(entries: seq<(Value, Value)>, key: Value) {
    exists i :: 0 <= i < |entries| && SameKey(entries[i].0, key)
  }

  /** `Map.set`: a key that is there keeps its place. */
  function SetEntry(entries: seq<(Value, Value)>, key: Value, value: Value): seq<(Value, Value)> {
    if entries == [] then [(key, value)]
    else if SameKey(entries[0].0, key) then [(key, value)] + entries[1..]
    else [entries[0]] + SetEntry(entries[1..], key, value)
  }

  lemma {:induction false} SetFresh(entries: seq<(Value, Value)>, key: Value, value: Value)
    requires !HasKey(entries, key)
    ensures SetEntry(entries, key, value) == entries + [(key, value)]
  {
    if entries != [] {
      assert !SameKey(entries[0].0, key);
      forall i | 0 <= i < |entries[1..]|
        ensures !SameKey(entries[1..][i].0, key)
      {
        assert entries[1..][i] == entries[i + 1];
      }
      SetFresh(entries[1..], key, value);
    }
  }

  function Firsts(entries: seq<(Value, Value)>): (r: seq<Value>)
    ensures |r| == |entries| && forall i :: 0 <= i < |r| ==> r[i] == entries[i].0
  {
    seq(|entries|, i requires 0 <= i < |entries| => entries[i].0)
  }

  function Seconds(entries: seq<(Value, Value)>): (r: seq<Value>)
    ensures |r| == |entries| && forall i :: 0 <= i < |r| ==> r[i] == entries[i].1
  {
    seq(|entries|, i requires 0 <= i < |entries| => entries[i].1)
  }

  function Zipped(keys: seq<Value>, values: seq<Value>): (r: seq<(Value, Value)>)
    requires |keys| == |values|
  {
    if keys == [] then []
    else SetEntry(Zipped(keys[..|keys| - 1], values[..|values| - 1]), keys[|keys| - 1], values[|values| - 1])
  }

  /** No number is a key twice, as in every `Map`. */
  ghost predicate DistinctKeys(entries: seq<(Value, Value)>) {
    forall i, j :: 0 <= i < j < |entries| ==> !SameKey(entries[i].0, entries[j].0)
  }

  ghost predicate TablesAreMaps(value: Value) {
    match value
    case Number(_) => true
    case Blob(_) => true
    case List(items) => forall i :: 0 <= i < |items| ==> TablesAreMaps(items[i])
    case Table(entries) => DistinctKeys(entries) && forall i ::
      0 <= i < |entries| ==> TablesAreMaps(entries[i].0) && TablesAreMaps(entries[i].1)
    case Pair(key, item) => TablesAreMaps(key) && TablesAreMaps(item)
  }

  lemma {:induction false} ZipsBack(entries: seq<(Value, Value)>)
    requires DistinctKeys(entries)
    ensures Zipped(Firsts(entries), Seconds(entries)) == entries
  {
    if entries != [] {
      var n := |entries| - 1;
      ZipsBack(entries[..n]);
      assert Firsts(entries)[..n] == Firsts(entries[..n]) && Seconds(entries)[..n] == Seconds(entries[..n]);
      assert !HasKey(entries[..n], entries[n].0);
      SetFresh(entries[..n], entries[n].0, entries[n].1);
      assert entries == entries[..n] + [(entries[n].0, entries[n].1)];
    }
  }

  // ---- Serialization ----

  function Joined(a: Option<seq<Byte>>, b: Option<seq<Byte>>): Option<seq<Byte>> {
    if a.None? || b.None? then None else Some(a.value + b.value)
  }

  /** A length and what it is the length of. */
  function Framed(b: Option<seq<Byte>>): Option<seq<Byte>> {
    if b.None? then None else Joined(EncodeSize(|b.value|), b)
  }

  /** What `serialize` returns, or that it throws. */
  function Encode(schema: Schema, value: Value): Option<seq<Byte>>
    decreases schema, 0
  {
    match (schema, value)
    case (Integer(kind), Number(n)) =>
      if kind.bytes > 0 && InRange(kind, n) then Some(ToBytes(ToWire(kind, n), kind.bytes)) else None
    case (Bytes(limits), Blob(bytes)) => if |bytes| > limits.maxBytes then None else Framed(Some(bytes))
    case (FixedArray(element, size, limits), List(items)) =>
      if |items| > limits.maxContainerElements then None
      else Joined(EncodeSize(|items|), EncodeFixed(element, size, items))
    case (Array(element, limits), List(items)) =>
      if |items| > limits.maxContainerElements then None
      else Joined(EncodeSize(|items|), EncodeFramed(element, items))
    case (Mapping(keys, values, _), Table(entries)) =>
      Joined(Framed(Encode(keys, List(Firsts(entries)))), Framed(Encode(values, List(Seconds(entries)))))
    case (KeyValue(key, item), Pair(k, v)) => Joined(Framed(Encode(key, k)), Framed(Encode(item, v)))
    case _ => None
  }

  function EncodeFixed(element: Schema, size: nat, items: seq<Value>): Option<seq<Byte>>
    decreases element, 1, |items|
  {
    if items == [] then Some([])
    else
      var first := Encode(element, items[0]);
      if first.None? || |first.value| != size then None else Joined(first, EncodeFixed(element, size, items[1..]))
  }

  function EncodeFramed(element: Schema, items: seq<Value>): Option<seq<Byte>>
    decreases element, 1, |items|
  {
    if items == [] then Some([]) else Joined(Framed(Encode(element, items[0])), EncodeFramed(element, items[1..]))
  }

  // ---- Deserialization ----

  function Limit(schema: Schema): nat {
    match schema
    case Integer(_) => MAX_SAFE_INTEGER
    case Bytes(limits) => limits.maxTotalBytes
    case FixedArray(_, _, limits) => limits.maxTotalBytes
    case Array(_, limits) => limits.maxTotalBytes
    case Mapping(_, _, max) => max
    case KeyValue(_, _) => MAX_SAFE_INTEGER
  }

  /** What `deserialize` returns, or that it throws. */
  function Decode(schema: Schema, data: seq<Byte>): Option<Value>
    decreases schema, 0
  {
    if |data| > Limit(schema) then None
    else
      match schema
      case Integer(kind) =>
        var encoded := ReadAt(data, 0, kind.bytes);
        if encoded.None? || kind.bytes == 0 then None else Some(Number(FromWire(kind, FromBytes(encoded.value))))
      case Bytes(limits) =>
        var n := ReadSizeAt(data, 0, limits.maxBytes);
        if n.None? then None
        else
          var bytes := ReadAt(data, SIZE_BYTES, n.value);
          if bytes.None? then None else Some(Blob(bytes.value))
      case FixedArray(element, size, limits) =>
        var n := ReadSizeAt(data, 0, limits.maxContainerElements);
        if n.None? then None else ToList(DecodeFixed(element, size, data, SIZE_BYTES, n.value))
      case Array(element, limits) =>
        var n := ReadSizeAt(data, 0, limits.maxContainerElements);
        if n.None? then None else ToList(DecodeFramed(element, data, SIZE_BYTES, n.value))
      case Mapping(keys, values, _) =>
        var k := DecodePiece(keys, data, 0);
        if k.None? then None
        else
          var v := DecodePiece(values, data, k.value.1);
          if v.None? || !k.value.0.List? || !v.value.0.List? || |k.value.0.items| != |v.value.0.items| then None
          else Some(Table(Zipped(k.value.0.items, v.value.0.items)))
      case KeyValue(key, item) =>
        var k := DecodePiece(key, data, 0);
        if k.None? then None
        else
          var v := DecodePiece(item, data, k.value.1);
          if v.None? then None else Some(Pair(k.value.0, v.value.0))
  }

  function ToList(items: Option<seq<Value>>): Option<Value> {
    if items.None? then None else Some(List(items.value))
  }

  /** One framed value at an offset, and the offset behind it. */
  function DecodePiece(schema: Schema, data: seq<Byte>, offset: nat): Option<(Value, nat)>
    decreases schema, 1
  {
    var n := ReadSizeAt(data, offset, |data|);
    if n.None? then None
    else
      var piece := ReadAt(data, offset + SIZE_BYTES, n.value);
      if piece.None? then None
      else
        var v := Decode(schema, piece.value);
        if v.None? then None else Some((v.value, offset + SIZE_BYTES + n.value))
  }

  function Prepend(v: Value, rest: Option<seq<Value>>): Option<seq<Value>> {
    if rest.None? then None else Some([v] + rest.value)
  }

  function DecodeFixed(element: Schema, size: nat, data: seq<Byte>, offset: nat, count: nat): Option<seq<Value>>
    decreases element, 2, count
  {
    if count == 0 then Some([])
    else
      var piece := ReadAt(data, offset, size);
      if piece.None? then None
      else
        var v := Decode(element, piece.value);
        if v.None? then None else Prepend(v.value, DecodeFixed(element, size, data, offset + size, count - 1))
  }

  function DecodeFramed(element: Schema, data: seq<Byte>, offset: nat, count: nat): Option<seq<Value>>
    decreases element, 2, count
  {
    if count == 0 then Some([])
    else
      var v := DecodePiece(element, data, offset);
      if v.None? then None else Prepend(v.value.0, DecodeFramed(element, data, v.value.1, count - 1))
  }

  // ---- The round trip ----

  /** Every part of a value that a reader of its own decodes is within that reader's total limit. */
  ghost predicate Fits(schema: Schema, value: Value)
    decreases schema, 0
  {
    match (schema, value)
    case (FixedArray(element, _, _), List(items)) => forall i :: 0 <= i < |items| ==> PartFits(element, items[i])
    case (Array(element, _), List(items)) => forall i :: 0 <= i < |items| ==> PartFits(element, items[i])
    case (Mapping(keys, values, _), Table(entries)) =>
      PartFits(keys, List(Firsts(entries))) && PartFits(values, List(Seconds(entries)))
    case (KeyValue(key, item), Pair(k, v)) => PartFits(key, k) && PartFits(item, v)
    case _ => true
  }

  ghost predicate PartFits(schema: Schema, value: Value)
    decreases schema, 1
  {
    Encode(schema, value).Some? && |Encode(schema, value).value| <= Limit(schema) && Fits(schema, value)
  }

  lemma AllFit(element: Schema, items: seq<Value>)
    requires items != []
    ensures (forall i :: 0 <= i < |items| ==> PartFits(element, items[i]))
      <==> PartFits(element, items[0]) && forall i :: 0 <= i < |items[1..]| ==> PartFits(element, items[1..][i])
  {
    hide PartFits;
    if PartFits(element, items[0]) && forall i :: 0 <= i < |items[1..]| ==> PartFits(element, items[1..][i]) {
      forall i | 0 <= i < |items| ensures PartFits(element, items[i]) {
        if i > 0 { assert items[1..][i - 1] == items[i]; }
      }
    }
  }

  /** `piece` stands at `offset` in the data. */
  ghost predicate At(data: seq<Byte>, offset: nat, piece: seq<Byte>) {
    offset + |piece| <= |data| && data[offset..offset + |piece|] == piece
  }

  lemma AtSplit(data: seq<Byte>, offset: nat, a: seq<Byte>, b: seq<Byte>)
    requires At(data, offset, a + b)
    ensures At(data, offset, a) && At(data, offset + |a|, b)
  {
    assert data[offset..offset + |a + b|][..|a|] == a && data[offset..offset + |a + b|][|a|..] == b;
    assert data[offset..offset + |a + b|][..|a|] == data[offset..offset + |a|];
    assert data[offset..offset + |a + b|][|a|..] == data[offset + |a|..offset + |a| + |b|];
  }

  lemma AtStart(b: seq<Byte>, suffix: seq<Byte>)
    ensures At(b + suffix, 0, b)
  {}

  /** A framed part reads back as itself, if it fits, and not at all otherwise. */
  lemma {:induction false} PieceTrip(schema: Schema, value: Value, data: seq<Byte>, offset: nat)
    requires WellMade(schema) && TablesAreMaps(value) && |data| <= MAX_SAFE_INTEGER
    requires Framed(Encode(schema, value)).Some? && At(data, offset, Framed(Encode(schema, value)).value)
    ensures var n := |Encode(schema, value).value|;
      DecodePiece(schema, data, offset) ==
        if PartFits(schema, value) then Some((value, offset + SIZE_BYTES + n)) else None
    decreases schema, 2
  {
    hide Decode, Encode, WellMade, TablesAreMaps;
    var b := Encode(schema, value).value;
    AtSplit(data, offset, EncodeSize(|b|).value, b);
    ReadsSizeBack(data, offset, |b|, |data|);
    ReadsBack(data, offset + SIZE_BYTES, b);
    RoundTrip(schema, value, []);
    assert b + [] == b;
  }

  lemma {:induction false} FixedTrip(element: Schema, size: nat, items: seq<Value>, data: seq<Byte>, offset: nat)
    requires WellMade(element) && (forall i :: 0 <= i < |items| ==> TablesAreMaps(items[i]))
      && |data| <= MAX_SAFE_INTEGER
    requires EncodeFixed(element, size, items).Some? && At(data, offset, EncodeFixed(element, size, items).value)
    ensures DecodeFixed(element, size, data, offset, |items|)
      == if forall i :: 0 <= i < |items| ==> PartFits(element, items[i]) then Some(items) else None
    decreases element, 2, |items|
  {
    hide Decode, Encode, WellMade, TablesAreMaps;
    if items != [] {
      var first := Encode(element, items[0]).value;
      AtSplit(data, offset, first, EncodeFixed(element, size, items[1..]).value);
      ReadsBack(data, offset, first);
      RoundTrip(element, items[0], []);
      assert first + [] == first;
      FixedTrip(element, size, items[1..], data, offset + size);
      assert items == [items[0]] + items[1..];
      AllFit(element, items);
    }
  }

  lemma {:induction false} FramedTrip(element: Schema, items: seq<Value>, data: seq<Byte>, offset: nat)
    requires WellMade(element) && (forall i :: 0 <= i < |items| ==> TablesAreMaps(items[i]))
      && |data| <= MAX_SAFE_INTEGER
    requires EncodeFramed(element, items).Some? && At(data, offset, EncodeFramed(element, items).value)
    ensures DecodeFramed(element, data, offset, |items|)
      == if forall i :: 0 <= i < |items| ==> PartFits(element, items[i]) then Some(items) else None
    decreases element, 3, |items|
  {
    hide DecodePiece, Encode, WellMade, TablesAreMaps, PartFits;
    if items != [] {
      var first := Framed(Encode(element, items[0])).value;
      AtSplit(data, offset, first, EncodeFramed(element, items[1..]).value);
      PieceTrip(element, items[0], data, offset);
      FramedTrip(element, items[1..], data, offset + |first|);
      assert items == [items[0]] + items[1..];
      AllFit(element, items);
    }
  }

  lemma IntegerTrip(kind: IntKind, n: int, suffix: seq<Byte>)
    requires Proper(kind) && kind.bytes <= 8 && InRange(kind, n)
    ensures var b := ToBytes(ToWire(kind, n), kind.bytes);
      Decode(Integer(kind), b + suffix) == if |b + suffix| <= MAX_SAFE_INTEGER then Some(Number(n)) else None
  {
    var b := ToBytes(ToWire(kind, n), kind.bytes);
    WireTrip(kind, n);
    FromToBytes(ToWire(kind, n), kind.bytes);
    hide ToWire, FromWire, ToBytes, FromBytes;
    if |b + suffix| <= MAX_SAFE_INTEGER { ReadsBack(b + suffix, 0, b); }
  }

  lemma BytesTrip(limits: Limits, bytes: seq<Byte>, suffix: seq<Byte>)
    requires Safe(limits) && |bytes| <= limits.maxBytes
    ensures var b := Framed(Some(bytes)).value;
      Decode(Bytes(limits), b + suffix) == if |b + suffix| <= limits.maxTotalBytes then Some(Blob(bytes)) else None
  {
    var size := EncodeSize(|bytes|).value;
    var data := size + bytes + suffix;
    hide ToBytes, FromBytes;
    if |data| <= limits.maxTotalBytes {
      AtStart(size + bytes, suffix);
      AtSplit(data, 0, size, bytes);
      ReadsSizeBack(data, 0, |bytes|, limits.maxBytes);
      ReadsBack(data, SIZE_BYTES, bytes);
    }
  }

  lemma {:induction false} FixedArrayTrip(schema: Schema, value: Value, suffix: seq<Byte>)
    requires schema.FixedArray? && WellMade(schema) && TablesAreMaps(value) && Encode(schema, value).Some?
    ensures var b := Encode(schema, value).value;
      Decode(schema, b + suffix) == if |b + suffix| <= Limit(schema) && Fits(schema, value) then Some(value) else None
    decreases schema, 0
  {
    hide DecodeFixed, EncodeFixed, PartFits;
    var size := EncodeSize(|value.items|).value;
    var body := EncodeFixed(schema.element, schema.elementSize, value.items).value;
    var data := size + body + suffix;
    if |data| <= Limit(schema) {
      AtStart(size + body, suffix);
      AtSplit(data, 0, size, body);
      ReadsSizeBack(data, 0, |value.items|, schema.limits.maxContainerElements);
      FixedTrip(schema.element, schema.elementSize, value.items, data, SIZE_BYTES);
    }
  }

  lemma {:induction false} ArrayTrip(schema: Schema, value: Value, suffix: seq<Byte>)
    requires schema.Array? && WellMade(schema) && TablesAreMaps(value) && Encode(schema, value).Some?
    ensures var b := Encode(schema, value).value;
      Decode(schema, b + suffix) == if |b + suffix| <= Limit(schema) && Fits(schema, value) then Some(value) else None
    decreases schema, 0
  {
    hide DecodeFramed, EncodeFramed, PartFits;
    var size := EncodeSize(|value.items|).value;
    var body := EncodeFramed(schema.element, value.items).value;
    var data := size + body + suffix;
    if |data| <= Limit(schema) {
      AtStart(size + body, suffix);
      AtSplit(data, 0, size, body);
      ReadsSizeBack(data, 0, |value.items|, schema.limits.maxContainerElements);
      FramedTrip(schema.element, value.items, data, SIZE_BYTES);
    }
  }

  lemma {:induction false} MappingTrip(schema: Schema, value: Value, suffix: seq<Byte>)
    requires schema.Mapping? && WellMade(schema) && TablesAreMaps(value) && Encode(schema, value).Some?
    ensures var b := Encode(schema, value).value;
      Decode(schema, b + suffix) == if |b + suffix| <= Limit(schema) && Fits(schema, value) then Some(value) else None
    decreases schema, 0
  {
    hide DecodePiece, PartFits, WellMade;
    assert WellMade(schema.keys) && WellMade(schema.values) && schema.maxTotalBytes <= MAX_SAFE_INTEGER
      by { MadeOf(schema); }
    var keys, values := List(Firsts(value.entries)), List(Seconds(value.entries));
    var a, b := Framed(Encode(schema.keys, keys)).value, Framed(Encode(schema.values, values)).value;
    var data := a + b + suffix;
    hide Encode;
    if |data| <= Limit(schema) {
      AtStart(a + b, suffix);
      AtSplit(data, 0, a, b);
      PieceTrip(schema.keys, keys, data, 0);
      PieceTrip(schema.values, values, data, |a|);
      ZipsBack(value.entries);
    }
  }

  lemma MadeOf(schema: Schema)
    requires WellMade(schema)
    ensures schema.Mapping?
      ==> WellMade(schema.keys) && WellMade(schema.values) && schema.maxTotalBytes <= MAX_SAFE_INTEGER
    ensures schema.KeyValue? ==> WellMade(schema.key) && WellMade(schema.value)
  {}

  lemma {:induction false} KeyValueTrip(schema: Schema, value: Value, suffix: seq<Byte>)
    requires schema.KeyValue? && WellMade(schema) && TablesAreMaps(value) && Encode(schema, value).Some?
    ensures var b := Encode(schema, value).value;
      Decode(schema, b + suffix) == if |b + suffix| <= Limit(schema) && Fits(schema, value) then Some(value) else None
    decreases schema, 0
  {
    hide DecodePiece, PartFits, WellMade;
    MadeOf(schema);
    var a, b := Framed(Encode(schema.key, value.key)).value, Framed(Encode(schema.value, value.value)).value;
    var data := a + b + suffix;
    if |data| <= Limit(schema) {
      AtStart(a + b, suffix);
      AtSplit(data, 0, a, b);
      PieceTrip(schema.key, value.key, data, 0);
      PieceTrip(schema.value, value.value, data, |a|);
    }
  }

  /** Deserializing what was serialized, followed by anything, gives the value back if and only if the data is
      within the total limit of the outermost reader and every part within that of its own. */
  lemma {:induction false} RoundTrip(schema: Schema, value: Value, suffix: seq<Byte>)
    requires WellMade(schema) && TablesAreMaps(value) && Encode(schema, value).Some?
    ensures var b := Encode(schema, value).value;
      Decode(schema, b + suffix) == if |b + suffix| <= Limit(schema) && Fits(schema, value) then Some(value) else None
    decreases schema, 1
  {
    match schema
    case Integer(kind) => IntegerTrip(kind, value.number, suffix);
    case Bytes(limits) => BytesTrip(limits, value.bytes, suffix);
    case FixedArray(_, _, _) => FixedArrayTrip(schema, value, suffix);
    case Array(_, _) => ArrayTrip(schema, value, suffix);
    case Mapping(_, _, _) => MappingTrip(schema, value, suffix);
    case KeyValue(_, _) => KeyValueTrip(schema, value, suffix);
    hide Decode;
  }

  /** Serialization does not look at the total limits, so what it writes may be unreadable. */
  lemma Unreadable()
    ensures var schema := Bytes(Limits(4, 4, 4)); var value := Blob([7]);
      WellMade(schema) && TablesAreMaps(value) && Encode(schema, value).Some?
        && Decode(schema, Encode(schema, value).value).None?
  {
    var schema, value := Bytes(Limits(4, 4, 4)), Blob([7]);
    RoundTrip(schema, value, []);
    assert Encode(schema, value).value + [] == Encode(schema, value).value;
  }

  // ---- Prefix-freeness, whatever the readers' total limits ----

  function Unbounded(limits: Limits): Limits {
    limits.(maxTotalBytes := MAX_SAFE_INTEGER)
  }

  /** The schema with every total limit as high as it can be. */
  function Lifted(schema: Schema): Schema {
    match schema
    case Integer(kind) => schema
    case Bytes(limits) => Bytes(Unbounded(limits))
    case FixedArray(element, size, limits) => FixedArray(Lifted(element), size, Unbounded(limits))
    case Array(element, limits) => Array(Lifted(element), Unbounded(limits))
    case Mapping(keys, values, _) => Mapping(Lifted(keys), Lifted(values), MAX_SAFE_INTEGER)
    case KeyValue(key, item) => KeyValue(Lifted(key), Lifted(item))
  }

  lemma {:induction false} LiftedMade(schema: Schema)
    requires WellMade(schema)
    ensures WellMade(Lifted(schema)) && Limit(Lifted(schema)) == MAX_SAFE_INTEGER
  {
    match schema
    case Integer(_) =>
    case Bytes(_) =>
    case FixedArray(element, _, _) => LiftedMade(element);
    case Array(element, _) => LiftedMade(element);
    case Mapping(keys, values, _) =>
      LiftedMade(keys);
      LiftedMade(values);
    case KeyValue(key, item) =>
      LiftedMade(key);
      LiftedMade(item);
  }

  /** Serialization does not look at total limits. */
  lemma {:induction false} LiftedEncode(schema: Schema, value: Value)
    ensures Encode(Lifted(schema), value) == Encode(schema, value)
    decreases schema, 0
  {
    match (schema, value)
    case (FixedArray(element, size, _), List(items)) => LiftedEncodeFixed(element, size, items);
    case (Array(element, _), List(items)) => LiftedEncodeFramed(element, items);
    case (Mapping(keys, values, _), Table(entries)) =>
      LiftedEncode(keys, List(Firsts(entries)));
      LiftedEncode(values, List(Seconds(entries)));
    case (KeyValue(key, item), Pair(k, v)) =>
      LiftedEncode(key, k);
      LiftedEncode(item, v);
    case _ =>
  }

  lemma {:induction false} LiftedEncodeFixed(element: Schema, size: nat, items: seq<Value>)
    ensures EncodeFixed(Lifted(element), size, items) == EncodeFixed(element, size, items)
    decreases element, 1, |items|
  {
    hide Encode, Lifted;
    if items != [] {
      LiftedEncode(element, items[0]);
      LiftedEncodeFixed(element, size, items[1..]);
    }
  }

  lemma {:induction false} LiftedEncodeFramed(element: Schema, items: seq<Value>)
    ensures EncodeFramed(Lifted(element), items) == EncodeFramed(element, items)
    decreases element, 1, |items|
  {
    hide Encode, Lifted;
    if items != [] {
      LiftedEncode(element, items[0]);
      LiftedEncodeFramed(element, items[1..]);
    }
  }

  /** Every part of an encoding is no longer than the whole, so under lifted limits it fits. */
  lemma {:induction false} LiftedFits(schema: Schema, value: Value)
    requires WellMade(schema) && Encode(schema, value).Some? && |Encode(schema, value).value| <= MAX_SAFE_INTEGER
    ensures PartFits(Lifted(schema), value)
    decreases schema, 0
  {
    LiftedEncode(schema, value);
    LiftedMade(schema);
    match (schema, value)
    case (FixedArray(element, size, _), List(items)) => LiftedFixedFit(element, size, items);
    case (Array(element, _), List(items)) => LiftedFramedFit(element, items);
    case (Mapping(keys, values, _), Table(entries)) =>
      LiftedFits(keys, List(Firsts(entries)));
      LiftedFits(values, List(Seconds(entries)));
    case (KeyValue(key, item), Pair(k, v)) =>
      LiftedFits(key, k);
      LiftedFits(item, v);
    case _ =>
  }

  lemma {:induction false} LiftedFixedFit(element: Schema, size: nat, items: seq<Value>)
    requires WellMade(element) && EncodeFixed(element, size, items).Some?
    requires |EncodeFixed(element, size, items).value| <= MAX_SAFE_INTEGER
    ensures forall i :: 0 <= i < |items| ==> PartFits(Lifted(element), items[i])
    decreases element, 1, |items|
  {
    hide Encode, Lifted, PartFits, WellMade;
    if items != [] {
      LiftedFits(element, items[0]);
      LiftedFixedFit(element, size, items[1..]);
      AllFit(Lifted(element), items);
    }
  }

  lemma {:induction false} LiftedFramedFit(element: Schema, items: seq<Value>)
    requires WellMade(element) && EncodeFramed(element, items).Some?
    requires |EncodeFramed(element, items).value| <= MAX_SAFE_INTEGER
    ensures forall i :: 0 <= i < |items| ==> PartFits(Lifted(element), items[i])
    decreases element, 1, |items|
  {
    hide Encode, Lifted, PartFits, WellMade;
    if items != [] {
      LiftedFits(element, items[0]);
      LiftedFramedFit(element, items[1..]);
      AllFit(Lifted(element), items);
    }
  }

  /** Encodings are prefix-free: data begins with the encoding of one value only, whether or not a reader's total
      limit lets it be read. */
  lemma PrefixFree(schema: Schema, a: Value, b: Value, x: seq<Byte>, y: seq<Byte>)
    requires WellMade(schema) && TablesAreMaps(a) && TablesAreMaps(b)
    requires Encode(schema, a).Some? && Encode(schema, b).Some?
    requires Encode(schema, a).value + x == Encode(schema, b).value + y
    requires |Encode(schema, a).value + x| <= MAX_SAFE_INTEGER
    ensures a == b && x == y
  {
    hide Encode, Decode, WellMade, TablesAreMaps, Fits, Limit, Lifted;
    var e := Encode(schema, a).value;
    assert |e| <= MAX_SAFE_INTEGER && |Encode(schema, b).value| <= MAX_SAFE_INTEGER by {
      assert |Encode(schema, b).value + y| <= MAX_SAFE_INTEGER;
    }
    LiftedMade(schema);
    LiftedEncode(schema, a);
    LiftedEncode(schema, b);
    LiftedFits(schema, a);
    LiftedFits(schema, b);
    RoundTrip(Lifted(schema), a, x);
    RoundTrip(Lifted(schema), b, y);
    assert a == b;
    assert x == (e + x)[|e|..] && y == (e + y)[|e|..];
  }
}
