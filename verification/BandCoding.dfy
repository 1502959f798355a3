// The (B, H, S, D) integer codings of Pack200 (JSR 200, section 5.5): variable-length bytes in base H, an
// optional sign in the low S bits, and an optional running sum. For every coding the reader admits, a
// sequence of values is recovered exactly when each value is representable in the sense defined here.
module BandCoding {
  import opened Common
  import opened Arithmetic

  const TWO32: nat := 0x1_0000_0000

  datatype Coding = Coding(B: nat, H: nat, S: nat, D: nat)

  const BYTE1 := Coding(1, 256, 0, 0)
  const CHAR3 := Coding(3, 128, 0, 0)
  const UNSIGNED5 := Coding(5, 64, 0, 0)
  const SIGNED5 := Coding(5, 64, 1, 0)
  const DELTA5 := Coding(5, 64, 1, 1)
  const UDELTA5 := Coding(5, 64, 0, 1)
  const MDELTA5 := Coding(5, 64, 2, 1)
  const BCI5 := Coding(5, 4, 0, 0)
  const BRANCH5 := Coding(5, 4, 2, 0)

  predicate ValidCoding(c: Coding) {
    && 1 <= c.B <= 5 && 1 <= c.H <= 256 && c.S <= 2 && c.D <= 1
    && (c.B == 1 ==> c.H == 256) && (c.H == 256 ==> c.B != 5)
  }

  //
  // Places
  //

  function Power(h: nat, n: nat): nat {
    if n == 0 then 1 else h * Power(h, n - 1)
  }

  /** 1 + h + ... + h^(n-1). */
  function Places(h: nat, n: nat): nat {
    if n == 0 then 0 else 1 + h * Places(h, n - 1)
  }

  lemma {:induction false} PlacesNext(h: nat, n: nat)
    ensures Places(h, n + 1) == Places(h, n) + Power(h, n)
  {
    if n > 0 {
      PlacesNext(h, n - 1);
      assert h * (Places(h, n - 1) + Power(h, n - 1)) == h * Places(h, n - 1) + h * Power(h, n - 1);
    } else {
      assert Places(h, 1) == 1 + h * Places(h, 0);
    }
  }

  lemma {:induction false} PowerIs(h: nat, n: nat)
    requires h >= 1
    ensures Power(h, n) == (h - 1) * Places(h, n) + 1
  {
    if n > 0 {
      PowerIs(h, n - 1);
      var p := Places(h, n - 1);
      Distributes((h - 1) * p, 1, h);
      Swaps(h, h - 1, p);
      Distributes(1, h * p, h - 1);
    }
  }

  /** How many numbers the bytes can spell. */
  function Range(c: Coding): nat {
    255 * Places(c.H, c.B) + 1
  }

  method Cardinality(c: Coding) returns (cardinality: nat)
    requires ValidCoding(c)
    ensures cardinality == Range(c) && cardinality > 0
  {
    hide Power; hide Places;
    if c.H == 1 {
      OnePlaces(c.B);
      return c.B * 255 + 1;
    }
    var low := 256 - c.H;
    var power := 1;
    cardinality := 0;
    FirstPower(c.H);
    for index := 0 to c.B
      invariant low == 256 - c.H && power == Power(c.H, index) && cardinality == low * Places(c.H, index)
    {
      PlacesNext(c.H, index);
      NextPower(c.H, index);
      cardinality := cardinality + low * power;
      power := power * c.H;
      Distributes(Places(c.H, index), Power(c.H, index), low);
    }
    PowerIs(c.H, c.B);
    cardinality := cardinality + power;
    Distributes(256 - c.H, c.H - 1, Places(c.H, c.B));
  }

  lemma FirstPower(h: nat)
    ensures Power(h, 0) == 1 && Places(h, 0) == 0
  {
  }

  lemma NextPower(h: nat, n: nat)
    ensures Power(h, n + 1) == Power(h, n) * h
  {
  }

  lemma {:induction false} OnePlaces(n: nat)
    ensures Places(1, n) == n
  {
    if n > 0 { OnePlaces(n - 1); }
  }

  //
  // Bytes
  //

  /** The number in at most n bytes at pos; a byte below 256 - h is the last. */
  function Raw(data: seq<byte>, pos: nat, h: nat, n: nat): (r: Option<(nat, nat)>)
    requires n >= 1
    ensures r.Some? ==> pos < r.value.1 <= |data|
    decreases n
  {
    if pos >= |data| then None
    else if data[pos] < 256 - h || n == 1 then Some((data[pos], pos + 1))
    else
      match Raw(data, pos + 1, h, n - 1)
      case None => None
      case Some(r) => Some((data[pos] + h * r.0, r.1))
  }

  /** The bytes of a number. */
  function RawWritten(h: nat, n: nat, u: nat): (r: seq<byte>)
    requires 1 <= h <= 256 && n >= 1 && u <= 255 * Places(h, n)
    ensures 1 <= |r| <= n
    decreases n
  {
    LastPlace(h, n);
    if u < 256 - h || n == 1 then [u]
    else
      var first := 256 - h + (u - (256 - h)) % h;
      RestFits(h, n, u);
      [first] + RawWritten(h, n - 1, (u - first) / h)
  }

  lemma LastPlace(h: nat, n: nat)
    requires n >= 1
    ensures n == 1 ==> Places(h, n) == 1
  {
  }

  lemma RestFits(h: nat, n: nat, u: nat)
    requires 1 <= h <= 256 && n >= 2 && 256 - h <= u <= 255 * Places(h, n)
    ensures var first := 256 - h + (u - (256 - h)) % h;
      var rest := (u - first) / h;
      256 - h <= first <= 255 && first <= u && u == first + h * rest && 0 <= rest <= 255 * Places(h, n - 1)
  {
    var x := u - (256 - h);
    DivMod(x, h);
    var first, rest := 256 - h + x % h, x / h;
    assert u - first == rest * h;
    ModUnique(u - first, rest, 0, h);
    var p := Places(h, n - 1);
    if rest > 255 * p {
      MulMono(255 * p + 1, rest, h);
      Distributes(255 * p, 1, h);
      Swaps(h, 255, p);
      assert false;
    }
  }

  /** Bytes written for a number are read back as the number, whatever follows. */
  lemma {:induction false} RawInverts(data: seq<byte>, pos: nat, h: nat, n: nat, u: nat)
    requires 1 <= h <= 256 && n >= 1 && u <= 255 * Places(h, n)
    requires pos + |RawWritten(h, n, u)| <= |data| && data[pos..pos + |RawWritten(h, n, u)|] == RawWritten(h, n, u)
    ensures Raw(data, pos, h, n) == Some((u, pos + |RawWritten(h, n, u)|))
    decreases n
  {
    var w := RawWritten(h, n, u);
    LastPlace(h, n);
    assert data[pos] == w[0];
    if !(u < 256 - h || n == 1) {
      RestFits(h, n, u);
      var first := 256 - h + (u - (256 - h)) % h;
      var rest := RawWritten(h, n - 1, (u - first) / h);
      assert w == [first] + rest;
      assert data[pos + 1..pos + 1 + |rest|] == data[pos..pos + |w|][1..] == rest;
      RawInverts(data, pos + 1, h, n - 1, (u - first) / h);
    }
  }

  /** Whatever is read is in range, and its bytes are the ones written for it: each number has one form. */
  lemma {:induction false} RawIsWritten(data: seq<byte>, pos: nat, h: nat, n: nat)
    requires 1 <= h <= 256 && n >= 1 && Raw(data, pos, h, n).Some?
    ensures var r := Raw(data, pos, h, n).value;
      r.0 <= 255 * Places(h, n) && r.1 <= |data| && data[pos..r.1] == RawWritten(h, n, r.0)
    decreases n
  {
    LastPlace(h, n);
    var r := Raw(data, pos, h, n).value;
    var b := data[pos];
    if b < 256 - h || n == 1 {
      MulMono(0, Places(h, n - 1), h);
    } else {
      RawIsWritten(data, pos + 1, h, n - 1);
      var s := Raw(data, pos + 1, h, n - 1).value;
      FormUnique(h, n, b, s.0);
      assert data[pos..r.1] == [b] + data[pos + 1..r.1];
    }
  }

  /** A first byte that asks for more, and the number behind it, are the ones written for their sum. */
  lemma FormUnique(h: nat, n: nat, b: nat, rest: nat)
    requires 1 <= h <= 256 && n >= 2 && 256 - h <= b <= 255 && rest <= 255 * Places(h, n - 1)
    ensures var u := b + h * rest; u <= 255 * Places(h, n) && RawWritten(h, n, u) == [b] + RawWritten(h, n - 1, rest)
  {
    var p, u := Places(h, n - 1), b + h * rest;
    MulMono(rest, 255 * p, h);
    Swaps(h, 255, p);
    MulMono(0, rest, h);
    ModUnique(u - (256 - h), rest, b - (256 - h), h);
    ModUnique(u - b, rest, 0, h);
  }

  /** What a number read from here on adds up to. */
  function Weighted(sum: nat, power: nat, r: Option<(nat, nat)>): Option<(nat, nat)> {
    match r
    case None => None
    case Some(r) => Some((sum + power * r.0, r.1))
  }

  /** Asked by division, before a product that might not fit is formed. */
  predicate Exceeds(a: nat, room: nat, m: nat)
    requires m > 0
  {
    a > room / m
  }

  lemma Over(a: nat, room: nat, m: nat)
    requires m > 0
    ensures Exceeds(a, room, m) <==> a * m > room
  {
    DivMod(room, m);
    var q := room / m;
    if a > q { MulMono(q + 1, a, m); MulMono(q, q, m); } else { MulMono(a, q, m); }
  }

  lemma WeightedOnce(r: Option<(nat, nat)>)
    ensures Weighted(0, 1, r) == r
  {
  }

  lemma CodingBounds(c: Coding)
    requires ValidCoding(c)
    ensures 1 <= c.B <= 5 && 1 <= c.H <= 256
  {
  }

  lemma StopsShort(data: seq<byte>, pos: nat, h: nat, n: nat, sum: nat, power: nat)
    requires n >= 1 && pos >= |data|
    ensures Weighted(sum, power, Raw(data, pos, h, n)) == None
  {
  }

  lemma TooLarge(data: seq<byte>, pos: nat, h: nat, n: nat, sum: nat, power: nat)
    requires n >= 1 && pos < |data| && sum + data[pos] * power >= TWO32
    ensures var w := Weighted(sum, power, Raw(data, pos, h, n)); w.Some? ==> w.value.0 >= TWO32
  {
    if Raw(data, pos, h, n).Some? {
      var u := Raw(data, pos, h, n).value.0;
      if u != data[pos] { MulMono(0, Raw(data, pos + 1, h, n - 1).value.0, h); }
      MulMono(data[pos], u, power);
    }
  }

  lemma LastByte(data: seq<byte>, pos: nat, h: nat, n: nat, sum: nat, power: nat)
    requires n >= 1 && pos < |data| && (data[pos] < 256 - h || n == 1)
    ensures Weighted(sum, power, Raw(data, pos, h, n)) == Some((sum + data[pos] * power, pos + 1))
  {
  }

  lemma NextByte(data: seq<byte>, pos: nat, h: nat, n: nat, sum: nat, power: nat)
    requires n > 1 && pos < |data| && data[pos] >= 256 - h
    ensures Weighted(sum, power, Raw(data, pos, h, n)) == Weighted(sum + data[pos] * power, power * h, Raw(data, pos + 1, h, n - 1))
  {
    var rest := Raw(data, pos + 1, h, n - 1);
    if rest.Some? {
      var r := rest.value.0;
      Distributes(data[pos], h * r, power);
      assert power * (h * r) == power * h * r;
    }
  }

  lemma {:induction false} PowerMonotone(h: nat, m: nat, n: nat)
    requires 1 <= h <= m
    ensures 1 <= Power(h, n) <= Power(m, n)
  {
    if n > 0 {
      PowerMonotone(h, m, n - 1);
      MulMono(h, m, Power(h, n - 1));
      MulMono(Power(h, n - 1), Power(m, n - 1), m);
      MulMono(1, h, Power(h, n - 1));
    }
  }

  /** No weight a coding uses exceeds 32 bits. */
  lemma PowersFit(c: Coding, n: nat)
    requires ValidCoding(c) && n < c.B
    ensures 1 <= Power(c.H, n) < TWO32
  {
    var m := if c.H == 256 then 256 else 255;
    PowerMonotone(c.H, m, n);
    FirstPower(m);
    NextPower(m, 0);
    NextPower(m, 1);
    NextPower(m, 2);
    NextPower(m, 3);
  }

  //
  // Signs and sums
  //

  predicate InInt32(x: int) {
    -0x8000_0000 <= x < 0x8000_0000
  }

  /** Conversion to a signed 32-bit integer. */
  function Wrap32(x: int): (r: Int32)
    ensures (x - r) % TWO32 == 0
    ensures InInt32(x) ==> r == x
  {
    if x % TWO32 < 0x8000_0000 then x % TWO32 else x % TWO32 - TWO32
  }

  /** S low bits that are all ones mark a negative number. */
  function Signed(s: nat, u: nat): int
    requires s <= 2
  {
    if s == 0 then u
    else
      var m := if s == 1 then 2 else 4;
      if u % m == m - 1 then -(u / m) - 1 else u - u / m
  }

  function Unsigned(s: nat, v: int): nat
    requires s == 1 || s == 2
  {
    var m := if s == 1 then 2 else 4;
    if v < 0 then (-v - 1) * m + m - 1 else v / (m - 1) * m + v % (m - 1)
  }

  /** The sign mapping is a bijection between the naturals and the integers. */
  lemma SignBijection(s: nat, u: nat, v: int)
    requires s == 1 || s == 2
    ensures Signed(s, Unsigned(s, v)) == v && Unsigned(s, Signed(s, u)) == u
  {
    if s == 2 {
      if v < 0 {
        ModUnique(Unsigned(2, v), -v - 1, 3, 4);
      } else {
        ModUnique(Unsigned(2, v), v / 3, v % 3, 4);
      }
      if u % 4 != 3 { ModUnique(u - u / 4, u / 4, u % 4, 3); }
    }
  }

  /** The running sum: 32-bit wrap-around, or the remainder when the coding spells fewer than 2^32 numbers. */
  function Summed(c: Coding, previous: Int32, d: int): int {
    if Range(c) >= TWO32 then Wrap32(d + previous) else (d + previous) % Range(c)
  }

  /** One read: the value, the position behind it and the new running value. */
  function IntRead(data: seq<byte>, pos: nat, previous: Int32, c: Coding): Option<(Int32, nat, Int32)>
    requires ValidCoding(c)
  {
    match Raw(data, pos, c.H, c.B)
    case None => None
    case Some(r) =>
      if r.0 >= TWO32 then None
      else
        var d := Signed(c.S, r.0);
        if c.D == 0 then
          if c.S == 0 then Some((Wrap32(r.0), r.1, previous)) else if InInt32(d) then Some((d, r.1, previous)) else None
        else
          var x := Summed(c, previous, d);
          if InInt32(x) then Some((x, r.1, x)) else None
  }

  class BandReader {
    const data: seq<byte>
    var cursor: nat
    var previousValue: Int32

    constructor (bytes: seq<byte>)
      ensures data == bytes && cursor == 0 && previousValue == 0
    {
      data, cursor, previousValue := bytes, 0, 0;
    }

    method ReadByte() returns (ok: bool, value: byte)
      modifies this`cursor
      ensures ok <==> old(cursor) < |data|
      ensures ok ==> value == data[old(cursor)] && cursor == old(cursor) + 1
    {
      if cursor >= |data| {
        return false, 0;
      }
      ok, value := true, data[cursor];
      cursor := cursor + 1;
    }

    /** The bytes of one number; refused beyond 32 bits. */
    method ReadRaw(c: Coding) returns (ok: bool, decodedValue: nat)
      requires ValidCoding(c)
      modifies this`cursor
      ensures var r := Raw(data, old(cursor), c.H, c.B);
        && (ok <==> r.Some? && r.value.0 < TWO32)
        && (ok ==> r.value == (decodedValue, cursor))
    {
      hide Raw; hide Power; hide Weighted; hide Exceeds; hide ValidCoding;
      ghost var h, n := c.H, c.B;
      CodingBounds(c);
      var l := 256 - c.H;
      decodedValue := 0;
      var power: nat := 1;
      var index := 0;
      FirstPower(h);
      PowersFit(c, 0);
      WeightedOnce(Raw(data, cursor, h, n));
      while index < c.B
        invariant index < n && power == Power(h, index) && 1 <= power < TWO32 && decodedValue < TWO32
        invariant Raw(data, old(cursor), h, n) == Weighted(decodedValue, power, Raw(data, cursor, h, n - index))
        decreases n - index
      {
        ghost var at := cursor;
        var more, b := ReadByte();
        if !more {
          StopsShort(data, at, h, n - index, decodedValue, power);
          return false, decodedValue;
        }
        Over(b, TWO32 - 1 - decodedValue, power);
        if Exceeds(b, TWO32 - 1 - decodedValue, power) {
          TooLarge(data, at, h, n - index, decodedValue, power);
          return false, decodedValue;
        }
        if b < l || index + 1 == c.B {
          LastByte(data, at, h, n - index, decodedValue, power);
          decodedValue := decodedValue + b * power;
          return true, decodedValue;
        }
        NextByte(data, at, h, n - index, decodedValue, power);
        PowersFit(c, index + 1);
        NextPower(h, index);
        Over(power, TWO32 - 1, h);
        assert !Exceeds(power, TWO32 - 1, h);
        decodedValue := decodedValue + b * power;
        power := power * c.H;
        index := index + 1;
      }
      assert false;
    }

    method ReadInt(c: Coding) returns (ok: bool, value: Int32)
      modifies this
      ensures !ValidCoding(c) ==> !ok
      ensures ValidCoding(c) ==> (ok <==> IntRead(data, old(cursor), old(previousValue), c).Some?)
      ensures ok ==> IntRead(data, old(cursor), old(previousValue), c) == Some((value, cursor, previousValue))
    {
      hide Raw; hide Range;
      value := 0;
      if !ValidCoding(c) {
        return false, value;
      }
      var decodedValue;
      ok, decodedValue := ReadRaw(c);
      if !ok {
        return;
      }
      var signedValue: int := decodedValue;
      if c.S != 0 {
        var scale := if c.S == 1 then 2 else 4;
        var shifted: int := decodedValue / scale;
        signedValue := if decodedValue % scale == scale - 1 then -shifted - 1 else decodedValue - shifted;
      }
      if c.D != 0 {
        signedValue := signedValue + previousValue;
        var cardinality := Cardinality(c);
        if cardinality >= TWO32 {
          signedValue := Wrap32(signedValue);
        } else {
          signedValue := Normalised(signedValue, cardinality);
        }
        previousValue := Wrap32(signedValue);
      }
      if c.S == 0 && c.D == 0 {
        return true, Wrap32(decodedValue);
      }
      if !InInt32(signedValue) {
        return false, value;
      }
      value := signedValue;
    }

    method ResetDelta()
      modifies this`previousValue
      ensures previousValue == 0
    {
      previousValue := 0;
    }
  }

  /** Repeated subtraction and addition: the remainder. */
  method Normalised(sum: int, cardinality: nat) returns (r: int)
    requires cardinality > 0
    ensures r == sum % cardinality
  {
    r := sum;
    ghost var k := 0;
    while r > cardinality - 1
      invariant r == sum - k * cardinality
      decreases r
    {
      Distributes(k, 1, cardinality);
      r := r - cardinality;
      k := k + 1;
    }
    while r < 0
      invariant r == sum - k * cardinality && r < cardinality
      decreases -r
    {
      Distributes(k, -1, cardinality);
      r := r + cardinality;
      k := k - 1;
    }
    RemainderUnique(sum, k, r, cardinality);
  }

  lemma RemainderUnique(x: int, q: int, r: nat, m: nat)
    requires m > 0 && x == q * m + r && r < m
    ensures x % m == r
  {
    var a, b := x / m, x % m;
    assert x == a * m + b;
    Distributes(a, -q, m);
    assert (a - q) * m == r - b;
    if a - q >= 1 { MulMono(1, a - q, m); }
    if q - a >= 1 { MulMono(1, q - a, m); Distributes(a - q, q - a, m); }
  }

  //
  // Round trips
  //

  /**
   * The values a coding can carry. A plain coding carries those whose code fits its bytes and 32 bits; a
   * running sum carries every 32-bit integer if its numbers number at least 2^32, and otherwise only 0 up
   * to that number: negative values are lost even when the coding has a sign.
   */
  predicate Representable(c: Coding, v: Int32) {
    if c.D == 0 then
      var u := if c.S == 0 || c.S > 2 then v % TWO32 else Unsigned(c.S, v);
      u < TWO32 && u < Range(c)
    else if Range(c) >= TWO32 then true
    else 0 <= v < Range(c)
  }

  /** The number written for the value after a running value. */
  function Coded(c: Coding, previous: Int32, v: Int32): nat
    requires ValidCoding(c) && Representable(c, v)
  {
    if c.D == 0 then if c.S == 0 then v % TWO32 else Unsigned(c.S, v)
    else if Range(c) >= TWO32 then
      var d := Wrap32(v - previous);
      if c.S == 0 then d % TWO32
      else if Unsigned(c.S, d) < TWO32 then Unsigned(c.S, d)
      else Unsigned(c.S, d + TWO32)
    else
      var d := (v - previous) % Range(c);
      var scale := if c.S == 1 then 2 else 4;
      if c.S == 0 then d
      else if d < Range(c) - Range(c) / scale then Unsigned(c.S, d)
      else Unsigned(c.S, d - Range(c))
  }

  /** Differences beyond the reach of two sign bits are reached the other way round the 32-bit circle. */
  lemma WrapFits(s: nat, d: Int32)
    requires s == 1 || s == 2
    ensures Unsigned(s, d) < TWO32 || Unsigned(s, d + TWO32) < TWO32
  {
  }

  /** Below d, the images of the numbers under `range` are consecutive integers. */
  lemma SignedFits(s: nat, range: nat, d: nat)
    requires (s == 1 || s == 2) && d < range
    ensures var scale := if s == 1 then 2 else 4;
      if d < range - range / scale then Unsigned(s, d) < range else Unsigned(s, d - range) < range
  {
    if s == 2 {
      DivMod(range, 4);
      DivMod(d, 3);
    }
  }

  lemma CodedFits(c: Coding, previous: Int32, v: Int32)
    requires ValidCoding(c) && Representable(c, v)
    ensures Coded(c, previous, v) < TWO32 && Coded(c, previous, v) < Range(c)
  {
    hide Unsigned; hide Places;
    if c.D == 1 && c.S != 0 {
      if Range(c) >= TWO32 {
        WrapFits(c.S, Wrap32(v - previous));
      } else {
        SignedFits(c.S, Range(c), (v - previous) % Range(c));
      }
    }
  }

  /** Equal modulo m. */
  lemma Congruent(x: int, y: int, k: int, m: nat)
    requires m > 0 && x == y + k * m
    ensures x % m == y % m
  {
    var q, r := y / m, y % m;
    assert y == q * m + r;
    Distributes(q, k, m);
    RemainderUnique(x, q + k, r, m);
  }

  lemma SumReturns(previous: int, v: int, d: int, m: nat)
    requires m > 0 && (d == (v - previous) % m || d == (v - previous) % m - m)
    ensures (d + previous) % m == v % m
  {
    var q := (v - previous) / m;
    assert v - previous == q * m + (v - previous) % m;
    if d == (v - previous) % m {
      Congruent(v, d + previous, q, m);
    } else {
      Distributes(q, 1, m);
      Congruent(v, d + previous, q + 1, m);
    }
  }

  lemma WrapModulo(x: int)
    ensures Wrap32(x) == x % TWO32 || Wrap32(x) == x % TWO32 - TWO32
  {
  }

  lemma WrapReturns(previous: Int32, v: Int32, d: int)
    requires d == (v - previous) % TWO32 || d == (v - previous) % TWO32 - TWO32
    ensures Wrap32(d + previous) == v
  {
    SumReturns(previous, v, d, TWO32);
  }

  /** What the written number stands for: the difference, or its neighbour on the circle. */
  lemma CodedDifference(c: Coding, previous: Int32, v: Int32)
    requires ValidCoding(c) && c.D == 1 && Representable(c, v)
    ensures var m := if Range(c) >= TWO32 then TWO32 else Range(c);
      var d := Signed(c.S, Coded(c, previous, v));
      m > 0 && (d == (v - previous) % m || d == (v - previous) % m - m)
  {
    hide Range; hide Unsigned; hide Signed; hide Wrap32;
    if Range(c) >= TWO32 {
      var d := Wrap32(v - previous);
      WrapModulo(v - previous);
      if c.S == 0 {
        WrapRemainder(v - previous);
        Unsigned0(d % TWO32);
      } else {
        SignBijection(c.S, 0, d);
        SignBijection(c.S, 0, d + TWO32);
        WrapFits(c.S, d);
        if Unsigned(c.S, d) >= TWO32 { WideNonNegative(c.S, d); }
      }
    } else {
      RangePositive(c);
      var d := (v - previous) % Range(c);
      if c.S == 0 { Unsigned0(d); } else { SignBijection(c.S, 0, d); SignBijection(c.S, 0, d - Range(c)); }
    }
  }

  lemma WrapRemainder(x: int)
    ensures Wrap32(x) % TWO32 == x % TWO32
  {
  }

  /** Only negative differences need the way round. */
  lemma WideNonNegative(s: nat, d: Int32)
    requires (s == 1 || s == 2) && Unsigned(s, d) >= TWO32
    ensures d < 0
  {
  }

  lemma RangePositive(c: Coding)
    ensures Range(c) > 0
  {
    hide Places;
  }

  /** The running sum over the number written is the value. */
  lemma CodedSums(c: Coding, previous: Int32, v: Int32)
    requires ValidCoding(c) && c.D == 1 && Representable(c, v)
    ensures Summed(c, previous, Signed(c.S, Coded(c, previous, v))) == v
  {
    hide Range; hide Unsigned; hide Signed; hide Wrap32; hide Coded;
    CodedDifference(c, previous, v);
    var d := Signed(c.S, Coded(c, previous, v));
    if Range(c) >= TWO32 {
      WrapReturns(previous, v, d);
    } else {
      SumReturns(previous, v, d, Range(c));
      SmallMod(v, Range(c));
    }
  }

  lemma Unsigned0(u: nat)
    ensures Signed(0, u) == u
  {
  }

  function IntWritten(c: Coding, previous: Int32, v: Int32): (r: seq<byte>)
    requires ValidCoding(c) && Representable(c, v)
    ensures |r| >= 1
  {
    CodedFits(c, previous, v);
    RawWritten(c.H, c.B, Coded(c, previous, v))
  }

  function Next(c: Coding, previous: Int32, v: Int32): Int32 {
    if c.D == 0 then previous else v
  }

  predicate Standing(data: seq<byte>, pos: nat, bytes: seq<byte>) {
    pos + |bytes| <= |data| && data[pos..pos + |bytes|] == bytes
  }

  /** One value: what was written is read back, using exactly its bytes. */
  lemma IntInverts(data: seq<byte>, pos: nat, c: Coding, previous: Int32, v: Int32)
    requires ValidCoding(c) && Representable(c, v) && Standing(data, pos, IntWritten(c, previous, v))
    ensures IntRead(data, pos, previous, c) == Some((v, pos + |IntWritten(c, previous, v)|, Next(c, previous, v)))
  {
    hide Places; hide Raw; hide RawWritten; hide Signed; hide Unsigned; hide Summed;
    var u := Coded(c, previous, v);
    CodedFits(c, previous, v);
    RawInverts(data, pos, c.H, c.B, u);
    if c.D == 1 {
      CodedSums(c, previous, v);
    } else if c.S != 0 {
      SignBijection(c.S, 0, v);
    }
  }

  /** And whatever is read is representable. */
  lemma ReadIsRepresentable(data: seq<byte>, pos: nat, c: Coding, previous: Int32)
    requires ValidCoding(c) && IntRead(data, pos, previous, c).Some?
    ensures Representable(c, IntRead(data, pos, previous, c).value.0)
  {
    hide Places; hide Raw; hide Signed; hide Unsigned; hide Wrap32; hide Range;
    var u := Raw(data, pos, c.H, c.B).value.0;
    RawIsWritten(data, pos, c.H, c.B);
    RangeIs(c, u);
    if c.D == 1 {
      if Range(c) < TWO32 { assert IntRead(data, pos, previous, c).value.0 == (Signed(c.S, u) + previous) % Range(c); }
    } else if c.S != 0 {
      SignBijection(c.S, u, 0);
    } else {
      Unsigned0(u);
      WrapRemainder(u);
    }
  }

  lemma RangeIs(c: Coding, u: nat)
    ensures u < Range(c) <==> u <= 255 * Places(c.H, c.B)
    ensures Range(c) > 0
  {
    hide Places;
  }

  predicate AllRepresentable(c: Coding, values: seq<Int32>) {
    forall k :: 0 <= k < |values| ==> Representable(c, values[k])
  }

  function BandWritten(c: Coding, previous: Int32, values: seq<Int32>): seq<byte>
    requires ValidCoding(c) && AllRepresentable(c, values)
    decreases |values|
  {
    hide IntWritten;
    if |values| == 0 then []
    else IntWritten(c, previous, values[0]) + BandWritten(c, Next(c, previous, values[0]), values[1..])
  }

  function BandRead(data: seq<byte>, pos: nat, c: Coding, previous: Int32, count: nat): (r: Option<(seq<Int32>, nat)>)
    requires ValidCoding(c)
    ensures r.Some? ==> |r.value.0| == count
    decreases count
  {
    hide IntRead;
    if count == 0 then Some(([], pos))
    else
      match IntRead(data, pos, previous, c)
      case None => None
      case Some(first) =>
        match BandRead(data, first.1, c, first.2, count - 1)
        case None => None
        case Some(rest) => Some(([first.0] + rest.0, rest.1))
  }

  lemma StandingSplit(data: seq<byte>, pos: nat, a: seq<byte>, b: seq<byte>)
    requires Standing(data, pos, a + b)
    ensures Standing(data, pos, a) && Standing(data, pos + |a|, b)
  {
    assert data[pos..pos + |a|] == data[pos..pos + |a + b|][..|a|];
    assert data[pos + |a|..pos + |a| + |b|] == data[pos..pos + |a + b|][|a|..];
  }

  /** A sequence of representable values is recovered, whatever stands around its bytes. */
  lemma {:induction false} BandInverts(data: seq<byte>, pos: nat, c: Coding, previous: Int32, values: seq<Int32>)
    requires ValidCoding(c) && AllRepresentable(c, values) && Standing(data, pos, BandWritten(c, previous, values))
    ensures BandRead(data, pos, c, previous, |values|) == Some((values, pos + |BandWritten(c, previous, values)|))
    decreases |values|
  {
    hide IntWritten; hide IntRead; hide Representable; hide Standing;
    if |values| > 0 {
      var v, rest := values[0], values[1..];
      var next := Next(c, previous, v);
      var w := IntWritten(c, previous, v);
      StandingSplit(data, pos, w, BandWritten(c, next, rest));
      IntInverts(data, pos, c, previous, v);
      BandInverts(data, pos + |w|, c, next, rest);
      assert [v] + rest == values;
    }
  }

  /** No other values are ever read. */
  lemma {:induction false} BandIsRepresentable(data: seq<byte>, pos: nat, c: Coding, previous: Int32, count: nat)
    requires ValidCoding(c) && BandRead(data, pos, c, previous, count).Some?
    ensures AllRepresentable(c, BandRead(data, pos, c, previous, count).value.0)
    decreases count
  {
    hide IntRead; hide Representable;
    if count > 0 {
      ReadIsRepresentable(data, pos, c, previous);
      var first := IntRead(data, pos, previous, c).value;
      BandIsRepresentable(data, first.1, c, first.2, count - 1);
    }
  }

  /** Some bytes spell the values under the coding. */
  ghost predicate Recoverable(c: Coding, values: seq<Int32>)
    requires ValidCoding(c)
  {
    exists data: seq<byte> :: Spells(data, c, values)
  }

  predicate Spells(data: seq<byte>, c: Coding, values: seq<Int32>)
    requires ValidCoding(c)
  {
    BandRead(data, 0, c, 0, |values|) == Some((values, |data|))
  }

  /** A sequence can be sent under a coding exactly when each of its values is representable. */
  lemma RecoverableExactly(c: Coding, values: seq<Int32>)
    requires ValidCoding(c)
    ensures Recoverable(c, values) <==> AllRepresentable(c, values)
  {
    hide BandWritten; hide BandRead; hide AllRepresentable;
    if AllRepresentable(c, values) {
      var data := BandWritten(c, 0, values);
      BandInverts(data, 0, c, 0, values);
      assert Spells(data, c, values);
    }
    if data: seq<byte> :| Spells(data, c, values) {
      BandIsRepresentable(data, 0, c, 0, |values|);
    }
  }

  /** What the named codings can carry. */
  lemma NamedCodings(v: Int32)
    ensures Representable(DELTA5, v) && Representable(UDELTA5, v) && Representable(MDELTA5, v)
    ensures Representable(UNSIGNED5, v) && Representable(SIGNED5, v)
    ensures Representable(BYTE1, v) <==> 0 <= v <= 255
    ensures Representable(CHAR3, v) <==> 0 <= v < 4_210_816
    ensures Representable(BCI5, v) <==> 0 <= v < 86_956
    ensures Representable(BRANCH5, v) <==> -21_739 <= v < 65_217
  {
  }
}
