// Status codes, machine integers and small facts shared by the codec models.
module Common {

  /** The NTSTATUS values the codecs return. */
  datatype Status =
    | Success
    | InvalidParameter
    | InvalidNetworkResponse
    | IntegerOverflow
    | BufferTooSmall
    | NotSupported

  datatype Option<+T> = None | Some(value: T)

  type byte = x: int | 0 <= x < 0x100
  type Int32 = x: int | -0x8000_0000 <= x < 0x8000_0000
  type UInt32 = x: int | 0 <= x < 0x1_0000_0000

  /** The largest SIZE_T of the 64-bit build. */
  const SIZE_MAX: nat := 0xffff_ffff_ffff_ffff

  /** The index value that stands for "none" in every linked table. */
  const NO_INDEX: nat := 0xffff_ffff

  /** 2 to the power n. */
  function Pow2(n: nat): (p: nat)
    ensures p >= 1
  {
    if n == 0 then 1 else 2 * Pow2(n - 1)
  }

  lemma {:induction false} Pow2Add(a: nat, b: nat)
    ensures Pow2(a + b) == Pow2(a) * Pow2(b)
  {
    if a != 0 {
      Pow2Add(a - 1, b);
      assert Pow2(a + b) == 2 * (Pow2(a - 1) * Pow2(b));
      assert 2 * (Pow2(a - 1) * Pow2(b)) == (2 * Pow2(a - 1)) * Pow2(b);
    }
  }

  lemma {:induction false} Pow2Monotone(a: nat, b: nat)
    requires a <= b
    ensures Pow2(a) <= Pow2(b)
    decreases b - a
  {
    if a < b {
      Pow2Monotone(a + 1, b);
    }
  }

  /** n bytes of zero. */
  function Zeros(n: nat): (r: seq<byte>)
    ensures |r| == n && forall k :: 0 <= k < n ==> r[k] == 0
  {
    seq(n, k => 0)
  }

  /** The sum of a sequence of integers. */
  function Sum(s: seq<int>): int {
    if |s| == 0 then 0 else Sum(s[..|s| - 1]) + s[|s| - 1]
  }

  lemma {:induction false} SumAppend(a: seq<int>, b: seq<int>)
    ensures Sum(a + b) == Sum(a) + Sum(b)
  {
    if |b| == 0 {
      assert a + b == a;
    } else {
      SumAppend(a, b[..|b| - 1]);
      assert (a + b)[..|a + b| - 1] == a + b[..|b| - 1];
    }
  }

  /** Distinct naturals below n are at most n many. */
  lemma {:induction false} DistinctBounded(s: seq<nat>, n: nat)
    requires forall i, j :: 0 <= i < j < |s| ==> s[i] != s[j]
    requires forall i :: 0 <= i < |s| ==> s[i] < n
    ensures |s| <= n
  {
    if |s| == 0 {
    } else if k :| 0 <= k < |s| && s[k] == n - 1 {
      var t := s[..k] + s[k + 1..];
      forall i | 0 <= i < |t|
        ensures t[i] < n - 1
      {
        assert t[i] == if i < k then s[i] else s[i + 1];
      }
      DistinctBounded(t, n - 1);
    } else {
      assert s[0] < n;
      DistinctBounded(s, n - 1);
    }
  }

  /** Byte k of the 32-bit two's complement form of v, counted from the low-order end. */
  function ByteOf(v: int, k: nat): byte {
    (v % 0x1_0000_0000) / Pow2(8 * k) % 0x100
  }

  /** The `size` low-order bytes of a 32-bit integer, most significant first. */
  function BigEndian(v: int, size: nat): (r: seq<byte>)
    ensures |r| == size
  {
    seq(size, i requires 0 <= i < size => ByteOf(v, size - i - 1))
  }

  /** The unsigned number a byte string spells, most significant byte first. */
  function FromBigEndian(bytes: seq<int>): int {
    if |bytes| == 0 then 0 else FromBigEndian(bytes[..|bytes| - 1]) * 0x100 + bytes[|bytes| - 1]
  }

  /** Reading a byte string as a signed two's complement number. */
  function SignedBigEndian(bytes: seq<int>): int {
    var u := FromBigEndian(bytes);
    if u < Pow2(8 * |bytes|) / 2 then u else u - Pow2(8 * |bytes|)
  }

  lemma Pow2Bytes()
    ensures Pow2(0) == 1 && Pow2(8) == 0x100 && Pow2(16) == 0x1_0000
    ensures Pow2(24) == 0x100_0000 && Pow2(32) == 0x1_0000_0000
  {
    assert Pow2(4) == 16;
    Pow2Add(4, 4);
    Pow2Add(8, 8);
    Pow2Add(16, 8);
    Pow2Add(24, 8);
  }

  lemma BytesRecompose4(u: nat)
    requires u < 0x1_0000_0000
    ensures ((u / 0x100_0000 % 0x100 * 0x100 + u / 0x1_0000 % 0x100) * 0x100 + u / 0x100 % 0x100) * 0x100 + u % 0x100 == u
  {
    assert u / 0x1_0000 == u / 0x100 / 0x100;
    assert u / 0x100_0000 == u / 0x1_0000 / 0x100;
  }

  lemma FromBigEndian4(b: seq<int>)
    requires |b| == 4
    ensures FromBigEndian(b) == ((b[0] * 0x100 + b[1]) * 0x100 + b[2]) * 0x100 + b[3]
  {
    assert b[..3][..2][..1] == [b[0]] && b[..3][..2] == [b[0], b[1]] && b[..3] == [b[0], b[1], b[2]];
    FromBigEndian2([b[0], b[1]]);
  }

  lemma FromBigEndian2(b: seq<int>)
    requires |b| == 2
    ensures FromBigEndian(b) == b[0] * 0x100 + b[1]
  {
    assert b[..1] == [b[0]];
    assert FromBigEndian([b[0]]) == FromBigEndian([]) * 0x100 + b[0];
  }

  lemma ByteValues(v: int, u: nat)
    requires u == v % 0x1_0000_0000
    ensures ByteOf(v, 0) == u % 0x100 && ByteOf(v, 1) == u / 0x100 % 0x100
    ensures ByteOf(v, 2) == u / 0x1_0000 % 0x100 && ByteOf(v, 3) == u / 0x100_0000 % 0x100
  {
    Pow2Bytes();
  }

  /** Writing a 32-bit integer in four bytes and reading them back signed gives the integer. */
  lemma BigEndian4RoundTrip(v: Int32)
    ensures SignedBigEndian(BigEndian(v, 4)) == v
    ensures FromBigEndian(BigEndian(v, 4)) == v % 0x1_0000_0000
  {
    hide ByteOf;
    var b: seq<int> := BigEndian(v, 4);
    var u: nat := v % 0x1_0000_0000;
    assert b[3] == ByteOf(v, 0) && b[2] == ByteOf(v, 1) && b[1] == ByteOf(v, 2) && b[0] == ByteOf(v, 3);
    ByteValues(v, u);
    FromBigEndian4(b);
    BytesRecompose4(u);
    Pow2Bytes();
  }

  lemma BytesRecompose2(v: int, u: nat)
    requires -0x8000 <= v < 0x8000 && u == v % 0x1_0000_0000
    ensures u / 0x100 % 0x100 * 0x100 + u % 0x100 == if v >= 0 then v else v + 0x1_0000
  {
    if v >= 0 {
      assert u == v;
    } else {
      var w := v + 0x1_0000;
      assert u == w + 0xffff * 0x1_0000;
      assert u / 0x100 == w / 0x100 + 0xffff * 0x100;
      assert u / 0x100 % 0x100 == w / 0x100;
    }
  }

  /** Writing a 16-bit integer in two bytes and reading them back signed gives the integer. */
  lemma BigEndian2RoundTrip(v: int)
    requires -0x8000 <= v < 0x8000
    ensures SignedBigEndian(BigEndian(v, 2)) == v
  {
    hide ByteOf;
    var b: seq<int> := BigEndian(v, 2);
    var u: nat := v % 0x1_0000_0000;
    assert b[1] == ByteOf(v, 0) && b[0] == ByteOf(v, 1);
    ByteValues(v, u);
    FromBigEndian2(b);
    Pow2Bytes();
    BytesRecompose2(v, u);
  }
}
