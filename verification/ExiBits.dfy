// EXI bit input (Efficient XML Interchange 1.0, sections 7.1.1, 7.1.6 and 7.1.9): bit-packed numbers high
// bit first, byte-aligned numbers low byte first, unsigned integers in groups of seven bits, and the
// width of a choice among n alternatives.
module ExiBits {
  import opened Common
  import opened Arithmetic

  datatype InputMode = BitPacked | ByteAligned

  /** Bit k of the stream, counted from the high end of each byte. */
  function Bit(data: seq<byte>, k: nat): (r: nat)
    requires k < 8 * |data|
    ensures r <= 1
  {
    data[k / 8] / Pow2(7 - k % 8) % 2
  }

  /** The number in n bits, high bit first. */
  function PackedValue(data: seq<byte>, pos: nat, n: nat): (r: nat)
    requires pos + n <= 8 * |data|
    ensures r < Pow2(n)
  {
    if n == 0 then 0 else 2 * PackedValue(data, pos, n - 1) + Bit(data, pos + n - 1)
  }

  /** The number in n bytes, low byte first. */
  function BytesValue(data: seq<byte>, at: nat, n: nat): nat
    requires at + n <= |data|
  {
    if n == 0 then 0 else BytesValue(data, at, n - 1) + data[at + n - 1] * Pow2(8 * (n - 1))
  }

  /** A read of n bits: the value and the position behind it. */
  function BitsRead(data: seq<byte>, mode: InputMode, pos: nat, n: nat): (r: Option<(nat, nat)>)
    ensures r.Some? ==> pos <= r.value.1 <= 8 * |data|
  {
    match mode
    case BitPacked => if pos + n <= 8 * |data| then Some((PackedValue(data, pos, n), pos + n)) else None
    case ByteAligned =>
      var bytes := (n + 7) / 8;
      if pos % 8 != 0 || pos / 8 + bytes > |data| then None
      else
        var v := BytesValue(data, pos / 8, bytes);
        if n < 32 && v >= Pow2(n) then None else Some((v, pos + 8 * bytes))
  }

  class ExiInput {
    const data: seq<byte>
    const mode: InputMode
    var bitOffset: nat

    constructor (bytes: seq<byte>, inputMode: InputMode, initialBitOffset: nat)
      requires initialBitOffset <= 8 * |bytes|
      ensures Valid() && data == bytes && mode == inputMode && bitOffset == initialBitOffset
    {
      data, mode, bitOffset := bytes, inputMode, initialBitOffset;
    }

    ghost predicate Valid()
      reads this
    {
      bitOffset <= 8 * |data|
    }

    method ReadBits(bitCount: nat) returns (ok: bool, value: nat)
      requires Valid() && bitCount <= 32
      modifies this
      ensures Valid()
      ensures ok <==> BitsRead(data, mode, old(bitOffset), bitCount).Some?
      ensures ok ==> BitsRead(data, mode, old(bitOffset), bitCount) == Some((value, bitOffset))
    {
      hide Bit; hide Pow2;
      value := 0;
      if mode == ByteAligned {
        if bitOffset % 8 != 0 {
          return false, value;
        }
        var byteCount := (bitCount + 7) / 8;
        var byteOffset := bitOffset / 8;
        if byteOffset > |data| || byteCount > |data| - byteOffset {
          return false, value;
        }
        for index := 0 to byteCount
          invariant value == BytesValue(data, byteOffset, index)
        {
          value := value + data[byteOffset + index] * Pow2(8 * index);
        }
        if bitCount < 32 && value >= Pow2(bitCount) {
          return false, value;
        }
        bitOffset := bitOffset + byteCount * 8;
        return true, value;
      }
      for index := 0 to bitCount
        invariant bitOffset == old(bitOffset) + index && Valid()
        invariant value == PackedValue(data, old(bitOffset), index)
      {
        if bitOffset / 8 >= |data| {
          return false, value;
        }
        value := 2 * value + Bit(data, bitOffset);
        bitOffset := bitOffset + 1;
      }
      ok := true;
    }

    method AlignByte() returns (ok: bool)
      requires Valid()
      modifies this
      ensures Valid() && ok && old(bitOffset) <= bitOffset < old(bitOffset) + 8 && bitOffset % 8 == 0
    {
      var remainder := bitOffset % 8;
      if remainder == 0 {
        return true;
      }
      bitOffset := bitOffset + (8 - remainder);
      ok := bitOffset / 8 <= |data|;
    }

    /** Up to five octets of seven bits each, low group first; only 32 bits of the sum are kept. */
    method ReadUnsignedInteger() returns (ok: bool, value: nat)
      requires Valid()
      modifies this
      ensures Valid()
      ensures ok <==> UnsignedRead(data, mode, old(bitOffset)).Some?
      ensures ok ==>
                var r := UnsignedRead(data, mode, old(bitOffset)).value;
                value == r.0 % 0x1_0000_0000 && bitOffset == r.1
    {
      hide BitsRead;
      value := 0;
      ghost var sum: nat := 0;
      for octetIndex := 0 to 5
        invariant Valid() && value == sum % 0x1_0000_0000 && sum < Scale(octetIndex)
        invariant UnsignedRead(data, mode, old(bitOffset)) == Octets(data, mode, bitOffset, octetIndex, sum)
      {
        var octet;
        ok, octet := ReadBits(8);
        if !ok {
          return;
        }
        var group := octet % 0x80;
        if 7 * octetIndex >= 32 && group != 0 {
          return false, value;
        }
        value := value + group * Scale(octetIndex) % 0x1_0000_0000;
        KeptBits(sum, group, octetIndex);
        sum := sum + group * Scale(octetIndex);
        if octet < 0x80 {
          return;
        }
      }
      ok := false;
    }
  }

  /** The weight of group i. */
  function Scale(i: nat): nat {
    match i
    case 0 => 1
    case 1 => 0x80
    case 2 => 0x4000
    case 3 => 0x20_0000
    case 4 => 0x1000_0000
    case _ => 0x8_0000_0000
  }

  /** Groups from number i on, added to the sum of the earlier ones; None without an end within five octets. */
  function Octets(data: seq<byte>, mode: InputMode, pos: nat, i: nat, sum: nat): Option<(nat, nat)>
    decreases 5 - i
  {
    if i >= 5 then None
    else
      match BitsRead(data, mode, pos, 8)
      case None => None
      case Some(octet) =>
        var more := sum + octet.0 % 0x80 * Scale(i);
        if octet.0 < 0x80 then Some((more, octet.1)) else Octets(data, mode, octet.1, i + 1, more)
  }

  function UnsignedRead(data: seq<byte>, mode: InputMode, pos: nat): Option<(nat, nat)> {
    Octets(data, mode, pos, 0, 0)
  }

  lemma KeptBits(sum: nat, group: nat, i: nat)
    requires i < 5 && sum < Scale(i) && group < 0x80
    ensures sum % 0x1_0000_0000 + group * Scale(i) % 0x1_0000_0000 == (sum + group * Scale(i)) % 0x1_0000_0000
    ensures sum + group * Scale(i) < Scale(i + 1)
  {
    match i
    case 0 => SmallSum(sum, group, 1);
    case 1 => SmallSum(sum, group, 0x80);
    case 2 => SmallSum(sum, group, 0x4000);
    case 3 => SmallSum(sum, group, 0x20_0000);
    case _ => TopGroup(sum, group);
  }

  lemma SmallSum(sum: nat, group: nat, scale: nat)
    requires scale <= 0x20_0000 && sum < scale && group < 0x80
    ensures sum + group * scale < 0x80 * scale
    ensures sum % 0x1_0000_0000 + group * scale % 0x1_0000_0000 == (sum + group * scale) % 0x1_0000_0000
  {
    MulMono(group, 0x7f, scale);
    SmallMod(sum, 0x1_0000_0000);
    SmallMod(group * scale, 0x1_0000_0000);
    SmallMod(sum + group * scale, 0x1_0000_0000);
  }

  lemma TopGroup(sum: nat, group: nat)
    requires sum < 0x1000_0000 && group < 0x80
    ensures sum + group * 0x1000_0000 < 0x8_0000_0000
    ensures sum % 0x1_0000_0000 + group * 0x1000_0000 % 0x1_0000_0000 == (sum + group * 0x1000_0000) % 0x1_0000_0000
  {
    var top, low := group / 16, group % 16;
    ModUnique(group * 0x1000_0000, top, low * 0x1000_0000, 0x1_0000_0000);
    ModUnique(sum + group * 0x1000_0000, top, sum + low * 0x1000_0000, 0x1_0000_0000);
    SmallMod(sum, 0x1_0000_0000);
  }

  /** The bits of octet v, high bit first. */
  function OctetBits(v: nat): (r: seq<bool>)
    ensures |r| == 8
  {
    HighBits(v, 8)
  }

  /** The n low bits of v, high bit first. */
  function HighBits(v: nat, n: nat): (r: seq<bool>)
    ensures |r| == n
    decreases n
  {
    if n == 0 then [] else HighBits(v / 2, n - 1) + [v % 2 == 1]
  }

  /** The n low bytes of v, low byte first, as bits. */
  function ByteBits(v: nat, n: nat): (r: seq<bool>)
    ensures |r| == 8 * n
    decreases n
  {
    if n == 0 then [] else OctetBits(v % 0x100) + ByteBits(v / 0x100, n - 1)
  }

  /** What an encoder writes for a value of n bits. */
  function BitsWritten(mode: InputMode, v: nat, n: nat): (r: seq<bool>)
    ensures |r| == if mode == BitPacked then n else 8 * ((n + 7) / 8)
  {
    if mode == BitPacked then HighBits(v, n) else ByteBits(v, (n + 7) / 8)
  }

  function Digit(b: bool): nat {
    if b then 1 else 0
  }

  predicate BitIs(data: seq<byte>, k: nat, b: bool) {
    k < 8 * |data| && Bit(data, k) == Digit(b)
  }

  /** The bits stand in the data from pos on. */
  predicate Stand(data: seq<byte>, pos: nat, bits: seq<bool>) {
    pos + |bits| <= 8 * |data| && forall k :: 0 <= k < |bits| ==> BitIs(data, pos + k, bits[k])
  }

  lemma StandSplit(data: seq<byte>, pos: nat, a: seq<bool>, b: seq<bool>)
    requires Stand(data, pos, a + b)
    ensures Stand(data, pos, a) && Stand(data, pos + |a|, b)
  {
    hide BitIs;
    forall k | 0 <= k < |a|
      ensures BitIs(data, pos + k, a[k])
    {
      assert (a + b)[k] == a[k];
    }
    forall k | 0 <= k < |b|
      ensures BitIs(data, pos + |a| + k, b[k])
    {
      assert BitIs(data, pos + (|a| + k), (a + b)[|a| + k]);
    }
  }

  lemma {:induction false} HighBitsRead(data: seq<byte>, pos: nat, v: nat, n: nat)
    requires Stand(data, pos, HighBits(v, n)) && v < Pow2(n)
    ensures PackedValue(data, pos, n) == v
    decreases n
  {
    hide Bit;
    if n > 0 {
      StandSplit(data, pos, HighBits(v / 2, n - 1), [v % 2 == 1]);
      HighBitsRead(data, pos, v / 2, n - 1);
      assert BitIs(data, pos + (n - 1) + 0, [v % 2 == 1][0]);
    }
  }

  /** The eight bits of an aligned byte are the byte. */
  lemma ByteIsBits(data: seq<byte>, at: nat)
    requires at < |data|
    ensures PackedValue(data, 8 * at, 8) == data[at]
  {
    var b := data[at];
    BitsOfByte(data, at, 1);
    BitsOfByte(data, at, 2);
    BitsOfByte(data, at, 3);
    BitsOfByte(data, at, 4);
    BitsOfByte(data, at, 5);
    BitsOfByte(data, at, 6);
    BitsOfByte(data, at, 7);
    BitsOfByte(data, at, 8);
  }

  /** The first n bits of a byte are its high bits. */
  lemma {:induction false} BitsOfByte(data: seq<byte>, at: nat, n: nat)
    requires at < |data| && n <= 8
    ensures PackedValue(data, 8 * at, n) == data[at] / Pow2(8 - n)
    decreases n
  {
    if n == 0 {
      Pow2Bytes();
    } else {
      BitsOfByte(data, at, n - 1);
      assert (8 * at + n - 1) / 8 == at && (8 * at + n - 1) % 8 == n - 1;
      assert Pow2(8 - (n - 1)) == 2 * Pow2(8 - n);
      HalfDiv(data[at], Pow2(8 - n));
    }
  }

  lemma HalfDiv(a: nat, m: nat)
    requires m > 0
    ensures a / m == 2 * (a / (2 * m)) + a / m % 2
  {
    DivSwap(a, m);
  }

  lemma DivSwap(a: nat, m: nat)
    requires m > 0
    ensures a / (2 * m) == a / m / 2
  {
    DivMod(a, m);
    var q, r := a / m, a % m;
    assert q == 2 * (q / 2) + q % 2;
    assert q * m == (q / 2) * (2 * m) + q % 2 * m;
    if q % 2 == 0 { assert q % 2 * m == 0; } else { assert q % 2 * m == m; }
    ModUnique(a, q / 2, q % 2 * m + r, 2 * m);
  }

  lemma {:induction false} ByteBitsRead(data: seq<byte>, at: nat, v: nat, n: nat)
    requires Stand(data, 8 * at, ByteBits(v, n)) && v < Pow2(8 * n)
    ensures BytesValue(data, at, n) == v
    decreases n
  {
    hide Stand; hide OctetBits; hide BytesValue;
    StandInside(data, 8 * at, ByteBits(v, n));
    if n == 0 {
      NoBytes(data, at);
      assert Pow2(0) == 1;
    } else {
      StandSplit(data, 8 * at, OctetBits(v % 0x100), ByteBits(v / 0x100, n - 1));
      Pow2Bytes();
      Pow2Add(8, 8 * (n - 1));
      ByteBitsRead(data, at + 1, v / 0x100, n - 1);
      OctetRead(data, at, v % 0x100);
      StandInside(data, 8 * (at + 1), ByteBits(v / 0x100, n - 1));
      LowByteFirst(data, at, n);
    }
  }

  lemma NoBytes(data: seq<byte>, at: nat)
    requires at <= |data|
    ensures BytesValue(data, at, 0) == 0
  {
  }

  lemma StandInside(data: seq<byte>, pos: nat, bits: seq<bool>)
    requires Stand(data, pos, bits)
    ensures pos + |bits| <= 8 * |data|
  {
  }

  lemma OctetRead(data: seq<byte>, at: nat, v: nat)
    requires v < 0x100 && Stand(data, 8 * at, OctetBits(v))
    ensures at < |data| && data[at] == v
  {
    hide PackedValue;
    Pow2Bytes();
    HighBitsRead(data, 8 * at, v, 8);
    ByteIsBits(data, at);
  }

  lemma {:induction false} LowByteFirst(data: seq<byte>, at: nat, n: nat)
    requires 0 < n && at + n <= |data|
    ensures BytesValue(data, at, n) == data[at] + 0x100 * BytesValue(data, at + 1, n - 1)
    decreases n
  {
    Pow2Bytes();
    if n == 1 {
      assert BytesValue(data, at, 1) == BytesValue(data, at, 0) + data[at] * Pow2(0);
    } else {
      LowByteFirst(data, at, n - 1);
      Pow2Add(8, 8 * (n - 2));
      var b, p := data[at + n - 1], Pow2(8 * (n - 2));
      assert b * (0x100 * p) == 0x100 * (b * p);
    }
  }

  /** What was written for a value is read back, and exactly that many bits are consumed. */
  lemma WrittenIsRead(data: seq<byte>, mode: InputMode, pos: nat, v: nat, n: nat)
    requires Stand(data, pos, BitsWritten(mode, v, n)) && v < Pow2(n) && (mode == ByteAligned ==> pos % 8 == 0)
    ensures BitsRead(data, mode, pos, n) == Some((v, pos + |BitsWritten(mode, v, n)|))
  {
    hide Pow2; hide Stand; hide HighBits; hide ByteBits; hide BitsRead;
    if mode == BitPacked { PackedIsRead(data, pos, v, n); } else { AlignedIsRead(data, pos, v, n); }
  }

  lemma PackedIsRead(data: seq<byte>, pos: nat, v: nat, n: nat)
    requires Stand(data, pos, HighBits(v, n)) && v < Pow2(n)
    ensures BitsRead(data, BitPacked, pos, n) == Some((v, pos + n))
  {
    hide PackedValue; hide HighBits; hide Pow2; hide Stand;
    StandInside(data, pos, HighBits(v, n));
    HighBitsRead(data, pos, v, n);
  }

  lemma AlignedIsRead(data: seq<byte>, pos: nat, v: nat, n: nat)
    requires pos % 8 == 0 && Stand(data, pos, ByteBits(v, (n + 7) / 8)) && v < Pow2(n)
    ensures BitsRead(data, ByteAligned, pos, n) == Some((v, pos + 8 * ((n + 7) / 8)))
  {
    hide BytesValue; hide ByteBits; hide Pow2; hide Stand;
    var k := (n + 7) / 8;
    assert 8 * (pos / 8) == pos;
    StandInside(data, pos, ByteBits(v, k));
    Pow2Monotone(n, 8 * k);
    ByteBitsRead(data, pos / 8, v, k);
  }

  //
  // Choices
  //

  /** The least width, from `bits` on, that tells `count` alternatives apart. */
  function WidthFrom(count: nat, bits: nat): (r: nat)
    ensures r >= bits && Pow2(r) >= count
    decreases count - Pow2(bits)
  {
    if Pow2(bits) >= count then bits else WidthFrom(count, bits + 1)
  }

  function WidthFor(count: nat): nat {
    WidthFrom(count, 0)
  }

  lemma {:induction false} WidthFromLeast(count: nat, bits: nat)
    requires bits == 0 || Pow2(bits - 1) < count
    ensures WidthFrom(count, bits) == 0 || Pow2(WidthFrom(count, bits) - 1) < count
    decreases count - Pow2(bits)
  {
    if Pow2(bits) < count { WidthFromLeast(count, bits + 1); }
  }

  /** The width is the least number of bits that tells the alternatives apart (section 6.2: the ceiling of the binary logarithm). */
  lemma WidthIsLeast(count: nat)
    ensures Pow2(WidthFor(count)) >= count
    ensures forall b: nat :: Pow2(b) >= count ==> WidthFor(count) <= b
  {
    WidthFromLeast(count, 0);
    forall b: nat | Pow2(b) >= count
      ensures WidthFor(count) <= b
    {
      if b < WidthFor(count) { Pow2Monotone(b, WidthFor(count) - 1); }
    }
  }

  /** The slots are doubled until they suffice, at most 31 times. */
  method BitsForCount(count: nat) returns (ok: bool, bits: nat)
    ensures ok <==> 0 < count <= 0x8000_0000
    ensures ok ==> bits == WidthFor(count) && bits <= 31
  {
    bits := 0;
    if count == 0 {
      return false, bits;
    }
    var slots := 1;
    ThirtyOne();
    while slots < count
      invariant bits <= 31 && slots == Pow2(bits) && WidthFrom(count, bits) == WidthFor(count)
      decreases count - slots
    {
      if bits >= 31 {
        return false, bits;
      }
      slots := slots * 2;
      bits := bits + 1;
    }
    Pow2Monotone(bits, 31);
    ok := true;
  }

  lemma ThirtyOne()
    ensures Pow2(31) == 0x8000_0000
  {
    Pow2Bytes();
    assert Pow2(32) == 2 * Pow2(31);
  }

  /** A choice among `count` alternatives and the position behind it. */
  function ChoiceRead(data: seq<byte>, mode: InputMode, pos: nat, count: nat): (r: Option<(nat, nat)>)
    ensures r.Some? ==> r.value.0 < count
  {
    if count == 0 || count > 0x8000_0000 then None
    else if WidthFor(count) == 0 then Some((0, pos))
    else
      match BitsRead(data, mode, pos, WidthFor(count))
      case None => None
      case Some(v) => if v.0 < count then Some(v) else None
  }

  function ChoiceWritten(mode: InputMode, v: nat, count: nat): seq<bool> {
    if WidthFor(count) == 0 then [] else BitsWritten(mode, v, WidthFor(count))
  }

  lemma ChoiceInverts(data: seq<byte>, mode: InputMode, pos: nat, v: nat, count: nat)
    requires v < count <= 0x8000_0000 && Stand(data, pos, ChoiceWritten(mode, v, count))
    requires mode == ByteAligned ==> pos % 8 == 0
    ensures ChoiceRead(data, mode, pos, count) == Some((v, pos + |ChoiceWritten(mode, v, count)|))
    ensures mode == ByteAligned ==> |ChoiceWritten(mode, v, count)| % 8 == 0
  {
    hide BitsRead; hide BitsWritten;
    WidthIsLeast(count);
    if WidthFor(count) == 0 {
      assert Pow2(0) == 1;
    } else {
      WrittenIsRead(data, mode, pos, v, WidthFor(count));
    }
  }

  method ReadChoice(input: ExiInput, count: nat) returns (ok: bool, choice: nat)
    requires input.Valid()
    modifies input
    ensures input.Valid()
    ensures ok <==> ChoiceRead(input.data, input.mode, old(input.bitOffset), count).Some?
    ensures ok ==> ChoiceRead(input.data, input.mode, old(input.bitOffset), count) == Some((choice, input.bitOffset))
  {
    hide BitsRead;
    choice := 0;
    var width;
    ok, width := BitsForCount(count);
    if !ok {
      return;
    }
    if width != 0 {
      ok, choice := input.ReadBits(width);
      if !ok {
        return;
      }
    }
    ok := choice < count;
  }

  //
  // Unsigned integers
  //

  /** An unsigned integer as groups of seven bits, low group first, all but the last flagged. */
  function UnsignedWritten(mode: InputMode, v: nat): seq<bool> {
    if v < 0x80 then BitsWritten(mode, v, 8) else BitsWritten(mode, v % 0x80 + 0x80, 8) + UnsignedWritten(mode, v / 0x80)
  }

  lemma OctetStep(data: seq<byte>, mode: InputMode, pos: nat, octet: nat, next: nat, i: nat, sum: nat)
    requires BitsRead(data, mode, pos, 8) == Some((octet, next)) && i < 5
    ensures Octets(data, mode, pos, i, sum) ==
              if octet < 0x80 then Some((sum + octet * Scale(i), next))
              else Octets(data, mode, next, i + 1, sum + octet % 0x80 * Scale(i))
  {
    hide BitsRead; hide Scale;
    if octet < 0x80 { assert octet % 0x80 == octet; }
  }

  lemma {:induction false} OctetsInvert(data: seq<byte>, mode: InputMode, pos: nat, v: nat, i: nat, sum: nat)
    requires i < 5 && v * Scale(i) < Scale(5) && Stand(data, pos, UnsignedWritten(mode, v))
    requires mode == ByteAligned ==> pos % 8 == 0
    ensures Octets(data, mode, pos, i, sum) == Some((sum + v * Scale(i), pos + |UnsignedWritten(mode, v)|))
    decreases v
  {
    hide BitsRead; hide BitsWritten; hide Stand; hide Pow2; hide Scale; hide Octets;
    Pow2Bytes();
    if v < 0x80 {
      WrittenIsRead(data, mode, pos, v, 8);
      OctetStep(data, mode, pos, v, pos + |BitsWritten(mode, v, 8)|, i, sum);
    } else {
      var octet := v % 0x80 + 0x80;
      assert octet % 0x80 == v % 0x80;
      StandSplit(data, pos, BitsWritten(mode, octet, 8), UnsignedWritten(mode, v / 0x80));
      WrittenIsRead(data, mode, pos, octet, 8);
      OctetStep(data, mode, pos, octet, pos + |BitsWritten(mode, octet, 8)|, i, sum);
      NextScale(v, i);
      OctetsInvert(data, mode, pos + |BitsWritten(mode, octet, 8)|, v / 0x80, i + 1, sum + v % 0x80 * Scale(i));
    }
  }

  lemma NextScale(v: nat, i: nat)
    requires i < 5 && 0x80 <= v && v * Scale(i) < Scale(5)
    ensures i + 1 < 5 && v / 0x80 * Scale(i + 1) < Scale(5)
    ensures v * Scale(i) == v % 0x80 * Scale(i) + v / 0x80 * Scale(i + 1)
  {
    var q, r := v / 0x80, v % 0x80;
    assert v == q * 0x80 + r;
    match i
    case 0 =>
    case 1 =>
    case 2 =>
    case 3 =>
    case _ =>
  }

  lemma SmallMod32(v: nat)
    ensures v % 0x1_0000_0000 == v <==> v < 0x1_0000_0000
  {
  }

  /**
   * A value of up to 35 bits is consumed whole, but ReadUnsignedInteger returns it modulo 2 to the 32: the
   * value written comes back exactly when it fits 32 bits.
   */
  lemma UnsignedInverts(data: seq<byte>, mode: InputMode, pos: nat, v: nat)
    requires v < 0x8_0000_0000 && Stand(data, pos, UnsignedWritten(mode, v)) && (mode == ByteAligned ==> pos % 8 == 0)
    ensures UnsignedRead(data, mode, pos) == Some((v, pos + |UnsignedWritten(mode, v)|))
    ensures UnsignedRead(data, mode, pos).value.0 % 0x1_0000_0000 == v <==> v < 0x1_0000_0000
  {
    hide Stand; hide UnsignedWritten; hide Octets;
    OctetsInvert(data, mode, pos, v, 0, 0);
    SmallMod32(v);
  }
}
