// Reading back what BigEndian writes.
module Octets {
  import opened Common
  import opened Arithmetic

  lemma DivDiv(a: nat, m: nat, p: nat)
    requires m > 0 && p > 0
    ensures m * p > 0 && a / (m * p) == a / m / p
  {
    var q, r := a / m / p, a / m % p;
    DivMod(a, m);
    DivMod(a / m, p);
    MulMono(1, p, m);
    assert m * p >= m;
    Distributes(q * p, r, m);
    assert q * p * m == q * (m * p);
    MulMono(r + 1, p, m);
    ModUnique(a, q, r * m + a % m, m * p);
  }

  lemma ModSplit(a: nat, m: nat, p: nat)
    requires m > 0 && p > 0
    ensures m * p > 0 && a % (m * p) == a / m % p * m + a % m
  {
    var q, r := a / m / p, a / m % p;
    DivMod(a, m);
    DivMod(a / m, p);
    MulMono(1, p, m);
    Distributes(q * p, r, m);
    assert q * p * m == q * (m * p);
    MulMono(r + 1, p, m);
    ModUnique(a, q, r * m + a % m, m * p);
  }

  lemma Octave(n: nat)
    ensures Pow2(8 * (n + 1)) == 0x100 * Pow2(8 * n)
  {
    Pow2Bytes();
    Pow2Add(8, 8 * n);
    assert 8 * (n + 1) == 8 + 8 * n;
  }

  /** The octet k places up is an octet of the number without its lowest one. */
  lemma ByteAbove(u: nat, k: nat)
    requires u < 0x1_0000_0000
    ensures ByteOf(u, k + 1) == ByteOf(u / 0x100, k)
  {
    Octave(k);
    hide Pow2;
    DivDiv(u, 0x100, Pow2(8 * k));
    SmallMod(u, 0x1_0000_0000);
    SmallMod(u / 0x100, 0x1_0000_0000);
  }

  lemma FirstByte(u: nat)
    requires u < 0x1_0000_0000
    ensures ByteOf(u, 0) == u % 0x100
  {
    assert Pow2(8 * 0) == 1;
    SmallMod(u, 0x1_0000_0000);
  }

  lemma FromLast(b: seq<int>)
    requires |b| > 0
    ensures FromBigEndian(b) == FromBigEndian(b[..|b| - 1]) * 0x100 + b[|b| - 1]
  {
  }

  /** Written in n octets, a number is read back as far as n octets hold it. */
  lemma {:induction false} BigEndianValue(u: nat, n: nat)
    requires u < 0x1_0000_0000
    ensures FromBigEndian(BigEndian(u, n)) == u % Pow2(8 * n)
    decreases n
  {
    hide Pow2; hide ByteOf;
    if n == 0 {
      assert Pow2(0) == 1 by { Pow2Bytes(); }
    } else {
      hide FromBigEndian;
      BigEndianValue(u / 0x100, n - 1);
      var b: seq<int> := BigEndian(u, n);
      var front: seq<int> := BigEndian(u / 0x100, n - 1);
      forall i: nat | i < n - 1
        ensures b[i] == front[i]
      {
        ByteAbove(u, n - i - 2);
      }
      assert b[..n - 1] == front;
      FirstByte(u);
      FromLast(b);
      Octave(n - 1);
      ModSplit(u, 0x100, Pow2(8 * (n - 1)));
    }
  }

  /** The same for an integer of either sign, in at most four octets. */
  lemma IntegerValue(v: int, n: nat)
    requires n <= 4
    ensures FromBigEndian(BigEndian(v, n)) == v % Pow2(8 * n)
  {
    hide ByteOf;
    var u := v % 0x1_0000_0000;
    assert BigEndian(v, n) == BigEndian(u, n) by { SameOctets(v, n); }
    BigEndianValue(u, n);
    ModMod(v, n);
  }

  lemma SameOctets(v: int, n: nat)
    ensures BigEndian(v, n) == BigEndian(v % 0x1_0000_0000, n)
  {
    var u := v % 0x1_0000_0000;
    SmallMod(u, 0x1_0000_0000);
    forall k: nat | k < n
      ensures BigEndian(v, n)[k] == BigEndian(u, n)[k]
    {
      assert ByteOf(v, n - k - 1) == ByteOf(u, n - k - 1);
    }
  }

  lemma ModMod(v: int, n: nat)
    requires n <= 4
    ensures v % 0x1_0000_0000 % Pow2(8 * n) == v % Pow2(8 * n)
  {
    hide Pow2;
    Pow2Bytes();
    var q, u := v / 0x1_0000_0000, v % 0x1_0000_0000;
    assert v == 0x1_0000_0000 * q + u;
    if n == 1 {
      Remainder(v, 0x100_0000 * q + u / 0x100, u % 0x100, 0x100);
    } else if n == 2 {
      Remainder(v, 0x1_0000 * q + u / 0x1_0000, u % 0x1_0000, 0x1_0000);
    } else if n == 3 {
      Remainder(v, 0x100 * q + u / 0x100_0000, u % 0x100_0000, 0x100_0000);
    }
  }

  lemma Remainder(v: int, q: int, r: nat, m: nat)
    requires r < m && v == m * q + r
    ensures v % m == r
  {
    var a, b := v / m, v % m;
    assert v == m * a + b;
    Distributes(a, -q, m);
    assert m * (a - q) == r - b;
    if a - q >= 1 { MulMono(1, a - q, m); }
    if q - a >= 1 { MulMono(1, q - a, m); }
  }
}
