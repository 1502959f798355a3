// Bit input in DEFLATE order (RFC 1951, section 3.1.1): bits of a byte from the low end, numbers with
// their first bit lowest.
module DeflateBits {
  import opened Common

  predicate BitAt(data: seq<byte>, k: nat)
    requires k < 8 * |data|
  {
    data[k / 8] / Pow2(k % 8) % 2 == 1
  }

  function Bit(data: seq<byte>, k: nat): (r: nat)
    requires k < 8 * |data|
    ensures r <= 1
  {
    if BitAt(data, k) then 1 else 0
  }

  /** The number in the n bits from pos on, first bit lowest. */
  function BitsValue(data: seq<byte>, pos: nat, n: nat): (r: nat)
    requires pos + n <= 8 * |data|
    ensures r < Pow2(n)
  {
    if n == 0 then 0 else BitsValue(data, pos, n - 1) + Bit(data, pos + n - 1) * Pow2(n - 1)
  }

  /** A read of n bits and the position behind it. */
  function BitsRead(data: seq<byte>, pos: nat, n: nat): (r: Option<(nat, nat)>)
    ensures r.Some? ==> r.value.0 < Pow2(n)
  {
    if pos + n <= 8 * |data| then Some((BitsValue(data, pos, n), pos + n)) else None
  }

  function Aligned(pos: nat): (r: nat)
    ensures pos <= r < pos + 8 && r % 8 == 0
  {
    (pos + 7) / 8 * 8
  }

  function BytesSkipped(data: seq<byte>, pos: nat, count: nat): Option<nat> {
    if pos % 8 == 0 && pos / 8 + count <= |data| then Some(pos + 8 * count) else None
  }

  /** The first n bytes are the same. */
  predicate Agree(a: seq<byte>, b: seq<byte>, n: nat) {
    n <= |a| && n <= |b| && a[..n] == b[..n]
  }

  lemma AgreeBit(a: seq<byte>, b: seq<byte>, n: nat, k: nat)
    requires Agree(a, b, n) && k < 8 * n
    ensures Bit(a, k) == Bit(b, k)
  {
    assert a[k / 8] == a[..n][k / 8] == b[..n][k / 8] == b[k / 8];
  }

  lemma {:induction false} AgreeBits(a: seq<byte>, b: seq<byte>, n: nat, pos: nat, count: nat)
    requires Agree(a, b, n) && pos + count <= 8 * n
    ensures BitsValue(a, pos, count) == BitsValue(b, pos, count)
  {
    hide Bit; hide Agree;
    if count > 0 {
      AgreeSizes(a, b, n);
      AgreeBits(a, b, n, pos, count - 1);
      AgreeBit(a, b, n, pos + count - 1);
    }
  }

  lemma AgreeSizes(a: seq<byte>, b: seq<byte>, n: nat)
    requires Agree(a, b, n)
    ensures n <= |a| && n <= |b|
  {
  }

  class BitInput {
    const data: seq<byte>
    var bitOffset: nat

    constructor (bytes: seq<byte>)
      ensures data == bytes && bitOffset == 0
    {
      data, bitOffset := bytes, 0;
    }

    ghost predicate Valid()
      reads this
    {
      bitOffset <= 8 * |data|
    }

    /** Read up to 24 bits; a read past the end fails. */
    method ReadBits(bitCount: nat) returns (ok: bool, value: nat)
      requires Valid() && bitCount <= 24
      modifies this
      ensures Valid()
      ensures ok <==> BitsRead(data, old(bitOffset), bitCount).Some?
      ensures ok ==> BitsRead(data, old(bitOffset), bitCount) == Some((value, bitOffset))
    {
      hide BitAt;
      value := 0;
      for index := 0 to bitCount
        invariant bitOffset == old(bitOffset) + index && Valid()
        invariant value == BitsValue(data, old(bitOffset), index)
      {
        if bitOffset / 8 >= |data| {
          return false, value;
        }
        value := value + Bit(data, bitOffset) * Pow2(index);
        bitOffset := bitOffset + 1;
      }
      ok := true;
    }

    method AlignByte() returns (ok: bool)
      requires Valid()
      modifies this
      ensures Valid() && ok && bitOffset == Aligned(old(bitOffset))
    {
      var remainder := bitOffset % 8;
      if remainder != 0 {
        bitOffset := bitOffset + (8 - remainder);
      }
      ok := bitOffset / 8 <= |data|;
    }

    method SkipBytes(byteCount: nat) returns (ok: bool)
      requires Valid()
      modifies this
      ensures Valid()
      ensures ok <==> BytesSkipped(data, old(bitOffset), byteCount).Some?
      ensures ok ==> BytesSkipped(data, old(bitOffset), byteCount) == Some(bitOffset)
    {
      if bitOffset % 8 != 0 {
        return false;
      }
      var byteOffset := bitOffset / 8;
      if byteOffset > |data| || byteCount > |data| - byteOffset {
        return false;
      }
      bitOffset := bitOffset + byteCount * 8;
      ok := true;
    }

    method ConsumedBytes() returns (n: nat)
      ensures n == Aligned(bitOffset) / 8
    {
      n := (bitOffset + 7) / 8;
    }
  }
}
