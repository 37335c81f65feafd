/** Bytes, big-endian integers, sizes and the reader of the serdes. */
module SerdeFraming {
  import opened Base

  type Byte = n: nat | n < 256

  const SIZE_BYTES: nat := 8

  function Pow256(w: nat): (p: nat)
    ensures p >= 1
  {
    if w == 0 then 1 else 256 * Pow256(w - 1)
  }

  /** The last w bytes of a number, the most significant first. */
  function ToBytes(n: nat, w: nat): (b: seq<Byte>)
    ensures |b| == w
  {
    if w == 0 then [] else ToBytes(n / 256, w - 1) + [n % 256]
  }

  function FromBytes(b: seq<Byte>): (n: nat)
    ensures n < Pow256(|b|)
  {
    if b == [] then 0 else 256 * FromBytes(b[..|b| - 1]) + b[|b| - 1]
  }

  lemma {:induction false} FromToBytes(n: nat, w: nat)
    requires n < Pow256(w)
    ensures FromBytes(ToBytes(n, w)) == n
  {
    if w > 0 {
      FromToBytes(n / 256, w - 1);
      assert ToBytes(n, w)[..w - 1] == ToBytes(n / 256, w - 1);
    }
  }

  /** Bytewise order, as `memcmp` and key-value stores compare. */
  predicate BytewiseLess(a: seq<Byte>, b: seq<Byte>) {
    if b == [] then false
    else if a == [] then true
    else a[0] < b[0] || (a[0] == b[0] && BytewiseLess(a[1..], b[1..]))
  }

  lemma {:induction false} LessFromEnd(a: seq<Byte>, b: seq<Byte>)
    requires |a| == |b| > 0
    ensures var x, y, n := a[..|a| - 1], b[..|b| - 1], |a| - 1;
      BytewiseLess(a, b) <==> BytewiseLess(x, y) || (x == y && a[n] < b[n])
  {
    var n := |a| - 1;
    if n > 0 {
      LessFromEnd(a[1..], b[1..]);
      assert a[..n][1..] == a[1..][..n - 1] && b[..n][1..] == b[1..][..n - 1];
      assert a[..n] == b[..n] <==> a[0] == b[0] && a[1..][..n - 1] == b[1..][..n - 1] by {
        assert a[..n] == [a[0]] + a[1..][..n - 1] && b[..n] == [b[0]] + b[1..][..n - 1];
      }
    } else {
      assert a[..0] == b[..0];
    }
  }

  /** Big-endian numbers of one width compare as their bytes do. */
  lemma {:induction false} BytewiseIsNumeric(m: nat, n: nat, w: nat)
    requires m < Pow256(w) && n < Pow256(w)
    ensures BytewiseLess(ToBytes(m, w), ToBytes(n, w)) <==> m < n
    ensures ToBytes(m, w) == ToBytes(n, w) <==> m == n
  {
    FromToBytes(m, w);
    FromToBytes(n, w);
    if w > 0 {
      BytewiseIsNumeric(m / 256, n / 256, w - 1);
      LessFromEnd(ToBytes(m, w), ToBytes(n, w));
      assert ToBytes(m, w)[..w - 1] == ToBytes(m / 256, w - 1) && ToBytes(n, w)[..w - 1] == ToBytes(n / 256, w - 1);
    }
  }

  /** `encodeSize` refuses what is not a safe integer. */
  function EncodeSize(size: nat): (b: Option<seq<Byte>>)
    ensures b.Some? <==> size <= MAX_SAFE_INTEGER
    ensures b.Some? ==> |b.value| == SIZE_BYTES
  {
    if size > MAX_SAFE_INTEGER then None else Some(ToBytes(size, SIZE_BYTES))
  }

  lemma SafeFits(size: nat)
    requires size <= MAX_SAFE_INTEGER
    ensures size < Pow256(SIZE_BYTES)
  {
    assert Pow256(SIZE_BYTES) == 256 * (256 * (256 * (256 * (256 * (256 * (256 * 256)))))) by {
      assert Pow256(1) == 256 && Pow256(2) == 256 * Pow256(1) && Pow256(3) == 256 * Pow256(2)
        && Pow256(4) == 256 * Pow256(3);
      assert Pow256(5) == 256 * Pow256(4) && Pow256(6) == 256 * Pow256(5) && Pow256(7) == 256 * Pow256(6);
    }
  }

  /** What `SerdeReader.read` returns at an offset; it fails where the source throws. */
  function ReadAt(data: seq<Byte>, offset: nat, size: nat): (b: Option<seq<Byte>>)
    ensures b.Some? ==> |b.value| == size && offset + size <= |data|
  {
    if size > MAX_SAFE_INTEGER || offset + size > MAX_SAFE_INTEGER || offset + size > |data| then None
    else Some(data[offset..offset + size])
  }

  function ReadSizeAt(data: seq<Byte>, offset: nat, maximum: nat): (n: Option<nat>)
    ensures n.Some? ==> n.value <= maximum && offset + SIZE_BYTES <= |data|
  {
    var encoded := ReadAt(data, offset, SIZE_BYTES);
    if encoded.None? then None
    else
      var n := FromBytes(encoded.value);
      if n > MAX_SAFE_INTEGER || n > maximum then None else Some(n)
  }

  /** Reading back a piece of the data. */
  lemma ReadsBack(data: seq<Byte>, offset: nat, piece: seq<Byte>)
    requires |data| <= MAX_SAFE_INTEGER && offset + |piece| <= |data| && data[offset..offset + |piece|] == piece
    ensures ReadAt(data, offset, |piece|) == Some(piece)
  {}

  lemma ReadsSizeBack(data: seq<Byte>, offset: nat, size: nat, maximum: nat)
    requires |data| <= MAX_SAFE_INTEGER && size <= MAX_SAFE_INTEGER && offset + SIZE_BYTES <= |data|
    requires data[offset..offset + SIZE_BYTES] == ToBytes(size, SIZE_BYTES)
    ensures ReadSizeAt(data, offset, maximum) == if size <= maximum then Some(size) else None
  {
    SafeFits(size);
    FromToBytes(size, SIZE_BYTES);
    hide FromBytes, ToBytes, Pow256;
  }

  /** `appendBytes`: the prefix, if there is one, comes first. */
  method AppendBytes(prefix: seq<Byte>, value: seq<Byte>) returns (result: seq<Byte>)
    ensures result == prefix + value
  {
    if |prefix| == 0 { return value; }
    var buffer := new Byte[|prefix| + |value|](_ => 0);
    var i := 0;
    while i < |prefix|
      invariant i <= |prefix| && forall j :: 0 <= j < i ==> buffer[j] == prefix[j]
    {
      buffer[i] := prefix[i];
      i := i + 1;
    }
    i := 0;
    while i < |value|
      invariant i <= |value| && forall j :: 0 <= j < |prefix| ==> buffer[j] == prefix[j]
      invariant forall j :: 0 <= j < i ==> buffer[|prefix| + j] == value[j]
    {
      buffer[|prefix| + i] := value[i];
      i := i + 1;
    }
    result := buffer[..];
  }

  /** Reads pieces off the front of the data; a piece that is not there leaves the place unchanged. */
  class SerdeReader {
    const data: seq<Byte>
    var offset: nat

    constructor (data: seq<Byte>)
      ensures this.data == data && offset == 0
    {
      this.data, offset := data, 0;
    }

    method Read(size: nat) returns (piece: Option<seq<Byte>>)
      modifies this
      ensures piece == ReadAt(data, old(offset), size)
      ensures offset == old(offset) + if piece.Some? then size else 0
    {
      if size > MAX_SAFE_INTEGER { return None; }
      var end := offset + size;
      if end > MAX_SAFE_INTEGER || end > |data| { return None; }
      piece := Some(data[offset..end]);
      offset := end;
    }

    method ReadSize(maximum: nat) returns (size: Option<nat>)
      modifies this
      ensures size == ReadSizeAt(data, old(offset), maximum)
      ensures size.Some? ==> offset == old(offset) + SIZE_BYTES
    {
      var encoded := Read(SIZE_BYTES);
      if encoded.None? { return None; }
      var n := FromBytes(encoded.value);
      if n > MAX_SAFE_INTEGER || n > maximum { return None; }
      return Some(n);
    }
  }
}
