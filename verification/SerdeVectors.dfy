/** The wire format of the serdes on the values their tests publish. */
module SerdeVectors {
  import opened Base
  import opened SerdeFraming
  import opened Serde

  const WIDE := Limits(MAX_SAFE_INTEGER, MAX_SAFE_INTEGER, MAX_SAFE_INTEGER)

  /** A count or a length below 256 is seven zeros and the number. */
  lemma SmallSize(n: nat)
    requires n < 256
    ensures EncodeSize(n) == Some([0, 0, 0, 0, 0, 0, 0, n])
  {
    var m := n / 256;
    assert m == 0;
    Zeros(7);
    assert [0, 0, 0, 0, 0, 0, 0][..7] == [0, 0, 0, 0, 0, 0, 0];
    assert ToBytes(n, SIZE_BYTES) == [0, 0, 0, 0, 0, 0, 0] + [n];
    assert ToBytes(n, SIZE_BYTES) == [0, 0, 0, 0, 0, 0, 0, n];
  }

  lemma Zeros(w: nat)
    requires w <= 7
    ensures ToBytes(0, w) == [0, 0, 0, 0, 0, 0, 0][..w]
  {
    if w > 0 {
      Zeros(w - 1);
      assert [0, 0, 0, 0, 0, 0, 0][..w] == [0, 0, 0, 0, 0, 0, 0][..w - 1] + [0];
    }
  }

  lemma TwoBytes(a: Byte, b: Byte)
    ensures ToBytes(256 * a + b, 2) == [a, b]
  {
    assert (256 * a + b) / 256 == a && (256 * a + b) % 256 == b;
    assert ToBytes(a, 1) == [] + [a];
  }

  lemma FourBytes(a: Byte, b: Byte, c: Byte, d: Byte)
    ensures ToBytes(256 * (256 * (256 * a + b) + c) + d, 4) == [a, b, c, d]
  {
    var high := 256 * a + b;
    var mid := 256 * high + c;
    assert mid / 256 == high && mid % 256 == c && (256 * mid + d) / 256 == mid && (256 * mid + d) % 256 == d;
    TwoBytes(a, b);
    assert ToBytes(mid, 3) == [a, b] + [c];
    assert ToBytes(256 * mid + d, 4) == [a, b] + [c] + [d];
  }

  lemma Powers()
    ensures Pow256(1) == 256 && Pow256(3) == 0x100_0000 && Pow256(4) == 0x1_0000_0000
  {
    assert Pow256(0) == 1 && Pow256(2) == 256 * Pow256(1);
  }

  lemma Int16Vectors()
    ensures Encode(Integer(UINT16), Number(0xabcd)) == Some([0xab, 0xcd])
    ensures Encode(Integer(INT16), Number(-1)) == Some([0x7f, 0xff])
    ensures Encode(Integer(INT16), Number(0)) == Some([0x80, 0])
    ensures Encode(Integer(INT16), Number(1)) == Some([0x80, 1])
  {
    Powers();
    TwoBytes(0xab, 0xcd);
    TwoBytes(0x7f, 0xff);
    TwoBytes(0x80, 0);
    TwoBytes(0x80, 1);
    hide ToBytes;
  }

  lemma Int32Vectors()
    ensures Encode(Integer(UINT32), Number(0x89abcdef)) == Some([0x89, 0xab, 0xcd, 0xef])
    ensures Encode(Integer(INT32), Number(-1)) == Some([0x7f, 0xff, 0xff, 0xff])
    ensures Encode(Integer(INT32), Number(0)) == Some([0x80, 0, 0, 0])
    ensures Encode(Integer(INT32), Number(2)) == Some([0x80, 0, 0, 2])
    ensures Encode(Integer(RUNE), Number(0x1f642)) == Some([0, 1, 0xf6, 0x42])
  {
    Powers();
    FourBytes(0x89, 0xab, 0xcd, 0xef);
    FourBytes(0x7f, 0xff, 0xff, 0xff);
    FourBytes(0x80, 0, 0, 0);
    FourBytes(0x80, 0, 0, 2);
    FourBytes(0, 1, 0xf6, 0x42);
    hide ToBytes;
  }

  lemma Int8Vectors()
    ensures Encode(Integer(UINT8), Number(0xab)) == Some([0xab]) && Encode(Integer(INT8), Number(-1)) == Some([0xff])
  {
    Powers();
    assert ToWire(UINT8, 0xab) == 0xab && ToWire(INT8, -1) == 0xff;
    OneByte(0xab);
    OneByte(0xff);
    hide ToBytes, ToWire;
  }

  lemma OneByte(a: Byte)
    ensures ToBytes(a, 1) == [a]
  {
    assert ToBytes(a / 256, 0) == [] && [] + [a] == [a];
  }

  /** Bytes are framed by their length. */
  lemma BytesVector()
    ensures Encode(Bytes(WIDE), Blob([0xde, 0xad, 0xbe, 0xef]))
      == Some([0, 0, 0, 0, 0, 0, 0, 4, 0xde, 0xad, 0xbe, 0xef])
    ensures Encode(Bytes(WIDE), Blob([0x61])) == Some([0, 0, 0, 0, 0, 0, 0, 1, 0x61])
  {
    hide EncodeSize;
    SmallSize(4);
    SmallSize(1);
    var word: seq<Byte> := [0xde, 0xad, 0xbe, 0xef];
    var letter: seq<Byte> := [0x61];
    assert |word| == 4 && |letter| == 1;
    assert Framed(Some(word)) == Some([0, 0, 0, 0, 0, 0, 0, 4] + word);
    assert Framed(Some(letter)) == Some([0, 0, 0, 0, 0, 0, 0, 1] + letter);
    assert [0, 0, 0, 0, 0, 0, 0, 4] + word == [0, 0, 0, 0, 0, 0, 0, 4, 0xde, 0xad, 0xbe, 0xef];
    assert [0, 0, 0, 0, 0, 0, 0, 1] + letter == [0, 0, 0, 0, 0, 0, 0, 1, 0x61];
  }

  /** Packed elements behind their count. */
  lemma PackedVector()
    ensures Encode(FixedArray(Integer(INT16), 2, WIDE), List([Number(-1), Number(0), Number(1)]))
      == Some([0, 0, 0, 0, 0, 0, 0, 3, 0x7f, 0xff, 0x80, 0, 0x80, 1])
  {
    hide EncodeSize, ToBytes, ToWire;
    Int16Vectors();
    SmallSize(3);
    var items := [Number(-1), Number(0), Number(1)];
    assert items[1..] == [Number(0), Number(1)] && items[1..][1..] == [Number(1)] && items[1..][1..][1..] == [];
    PackedStep(items[1..][1..], [0x80, 1], []);
    PackedStep(items[1..], [0x80, 0], [0x80, 1] + []);
    PackedStep(items, [0x7f, 0xff], [0x80, 0] + ([0x80, 1] + []));
    hide EncodeFixed;
    var packed := [0x7f, 0xff] + ([0x80, 0] + ([0x80, 1] + []));
    assert [0, 0, 0, 0, 0, 0, 0, 3] + packed == [0, 0, 0, 0, 0, 0, 0, 3, 0x7f, 0xff, 0x80, 0, 0x80, 1];
  }

  lemma PackedStep(items: seq<Value>, first: seq<Byte>, rest: seq<Byte>)
    requires items != [] && Encode(Integer(INT16), items[0]) == Some(first) && |first| == 2
    requires EncodeFixed(Integer(INT16), 2, items[1..]) == Some(rest)
    ensures EncodeFixed(Integer(INT16), 2, items) == Some(first + rest)
  {
    hide ToBytes, ToWire, InRange;
  }

  /** Framed elements behind their count. */
  lemma FramedVector()
    ensures Encode(Array(Bytes(WIDE), WIDE), List([Blob([0x61])]))
      == Some([0, 0, 0, 0, 0, 0, 0, 1, 0, 0, 0, 0, 0, 0, 0, 9, 0, 0, 0, 0, 0, 0, 0, 1, 0x61])
  {
    hide EncodeSize;
    BytesVector();
    SmallSize(1);
    SmallSize(9);
    var item := Blob([0x61]);
    var framed: seq<Byte> := [0, 0, 0, 0, 0, 0, 0, 1, 0x61];
    assert |framed| == 9;
    assert Framed(Some(framed)) == Some([0, 0, 0, 0, 0, 0, 0, 9] + framed);
    assert [item][1..] == [] && [item][0] == item;
    assert EncodeFramed(Bytes(WIDE), []) == Some([]);
    assert EncodeFramed(Bytes(WIDE), [item]) == Some([0, 0, 0, 0, 0, 0, 0, 9] + framed + []);
    assert [0, 0, 0, 0, 0, 0, 0, 1] + ([0, 0, 0, 0, 0, 0, 0, 9] + framed + [])
        == [0, 0, 0, 0, 0, 0, 0, 1, 0, 0, 0, 0, 0, 0, 0, 9, 0, 0, 0, 0, 0, 0, 0, 1, 0x61];
  }

  lemma PairOf(key: Schema, item: Schema, k: Value, v: Value, a: seq<Byte>, b: seq<Byte>)
    requires Framed(Encode(key, k)) == Some(a) && Framed(Encode(item, v)) == Some(b)
    ensures Encode(KeyValue(key, item), Pair(k, v)) == Some(a + b)
  {
    hide Framed;
  }

  lemma Frame(b: seq<Byte>)
    requires |b| < 256
    ensures Framed(Some(b)) == Some([0, 0, 0, 0, 0, 0, 0, |b|] + b)
  {
    hide EncodeSize;
    SmallSize(|b|);
  }

  /** A pair is its key and its value, framed. */
  lemma PairVector()
    ensures Encode(KeyValue(Bytes(WIDE), Integer(INT32)), Pair(Blob([0x61]), Number(-1)))
      == Some([0, 0, 0, 0, 0, 0, 0, 9, 0, 0, 0, 0, 0, 0, 0, 1, 0x61, 0, 0, 0, 0, 0, 0, 0, 4, 0x7f, 0xff, 0xff, 0xff])
  {
    hide *;
    BytesVector();
    Int32Vectors();
    var key: seq<Byte> := [0, 0, 0, 0, 0, 0, 0, 1, 0x61];
    var item: seq<Byte> := [0x7f, 0xff, 0xff, 0xff];
    assert |key| == 9 && |item| == 4;
    Frame(key);
    Frame(item);
    PairOf(Bytes(WIDE), Integer(INT32), Blob([0x61]), Number(-1), [0, 0, 0, 0, 0, 0, 0, 9] + key,
           [0, 0, 0, 0, 0, 0, 0, 4] + item);
    assert [0, 0, 0, 0, 0, 0, 0, 9] + key + ([0, 0, 0, 0, 0, 0, 0, 4] + item)
        == [0, 0, 0, 0, 0, 0, 0, 9, 0, 0, 0, 0, 0, 0, 0, 1, 0x61, 0, 0, 0, 0, 0, 0, 0, 4, 0x7f, 0xff, 0xff, 0xff];
  }

  lemma OneVector(a: Byte)
    ensures Encode(FixedArray(Integer(UINT8), 1, WIDE), List([Number(a)])) == Some([0, 0, 0, 0, 0, 0, 0, 1, a])
  {
    hide EncodeSize;
    Powers();
    OneByte(a);
    SmallSize(1);
    assert ToWire(UINT8, a) == a;
    assert [Number(a)][1..] == [];
    assert EncodeFixed(Integer(UINT8), 1, []) == Some([]);
    assert EncodeFixed(Integer(UINT8), 1, [Number(a)]) == Some([a] + []);
    assert [0, 0, 0, 0, 0, 0, 0, 1] + ([a] + []) == [0, 0, 0, 0, 0, 0, 0, 1, a];
  }

  lemma MapOf(keys: Schema, values: Schema, max: nat, k: Value, v: Value, a: seq<Byte>, b: seq<Byte>)
    requires Framed(Encode(keys, List([k]))) == Some(a) && Framed(Encode(values, List([v]))) == Some(b)
    ensures Encode(Mapping(keys, values, max), Table([(k, v)])) == Some(a + b)
  {
    hide Framed;
    assert Firsts([(k, v)]) == [k] && Seconds([(k, v)]) == [v];
  }

  /** A map is the array of its keys and the array of its values, framed, the keys first. */
  lemma MapVector(k: Byte, v: Byte)
    ensures Encode(Mapping(FixedArray(Integer(UINT8), 1, WIDE), FixedArray(Integer(UINT8), 1, WIDE), MAX_SAFE_INTEGER),
                   Table([(Number(k), Number(v))]))
      == Some([0, 0, 0, 0, 0, 0, 0, 9, 0, 0, 0, 0, 0, 0, 0, 1, k, 0, 0, 0, 0, 0, 0, 0, 9, 0, 0, 0, 0, 0, 0, 0, 1, v])
  {
    hide *;
    OneVector(k);
    OneVector(v);
    var keys: seq<Byte> := [0, 0, 0, 0, 0, 0, 0, 1, k];
    var values: seq<Byte> := [0, 0, 0, 0, 0, 0, 0, 1, v];
    assert |keys| == 9 && |values| == 9;
    Frame(keys);
    Frame(values);
    MapOf(FixedArray(Integer(UINT8), 1, WIDE), FixedArray(Integer(UINT8), 1, WIDE), MAX_SAFE_INTEGER, Number(k),
          Number(v), [0, 0, 0, 0, 0, 0, 0, 9] + keys, [0, 0, 0, 0, 0, 0, 0, 9] + values);
    assert [0, 0, 0, 0, 0, 0, 0, 9] + keys + ([0, 0, 0, 0, 0, 0, 0, 9] + values)
        == [0, 0, 0, 0, 0, 0, 0, 9, 0, 0, 0, 0, 0, 0, 0, 1, k, 0, 0, 0, 0, 0, 0, 0, 9, 0, 0, 0, 0, 0, 0, 0, 1, v];
  }
}
