// Decimal numerals of unbounded numbers, and the conversion of 7-bit groups to decimal text (Efficient
// XML Interchange 1.0, sections 7.1.5 and 7.1.6).
module Decimal {
  import opened Common
  import opened Arithmetic
  import opened ExiBits

  /** The decimal numeral of n in ASCII, without leading zeros. */
  function Numeral(n: nat): (r: seq<byte>)
    ensures |r| > 0 && forall k :: 0 <= k < |r| ==> 0x30 <= r[k] <= 0x39
  {
    if n < 10 then [0x30 + n] else Numeral(n / 10) + [0x30 + n % 10]
  }

  /** The number a numeral spells. */
  function NumeralValue(s: seq<byte>): int {
    if |s| == 0 then 0 else 10 * NumeralValue(s[..|s| - 1]) + (s[|s| - 1] as int - 0x30)
  }

  lemma {:induction false} NumeralSpells(n: nat)
    ensures NumeralValue(Numeral(n)) == n
  {
    if n >= 10 {
      NumeralSpells(n / 10);
      var s := Numeral(n);
      assert s[..|s| - 1] == Numeral(n / 10);
    } else {
      assert Numeral(n)[..0] == [];
    }
  }

  /** Different numbers have different numerals. */
  lemma NumeralsDiffer(a: nat, b: nat)
    requires Numeral(a) == Numeral(b)
    ensures a == b
  {
    NumeralSpells(a);
    NumeralSpells(b);
  }

  //
  // Digit arrays, lowest digit first
  //

  predicate Digits(d: seq<nat>) {
    forall k :: 0 <= k < |d| ==> d[k] < 10
  }

  function Value(d: seq<nat>): nat {
    if |d| == 0 then 0 else d[0] + 10 * Value(d[1..])
  }

  function Pow10(n: nat): (r: nat)
    ensures r > 0
  {
    if n == 0 then 1 else 10 * Pow10(n - 1)
  }

  /** No digit is superfluous. */
  predicate Canonical(d: seq<nat>) {
    |d| > 0 && (|d| == 1 || d[|d| - 1] != 0)
  }

  /** The text of the digits, highest first. */
  function TextOf(d: seq<nat>): (r: seq<byte>)
    requires Digits(d)
    ensures |r| == |d| && forall k :: 0 <= k < |d| ==> r[k] == 0x30 + d[|d| - 1 - k]
  {
    seq(|d|, k requires 0 <= k < |d| => 0x30 + d[|d| - 1 - k])
  }

  /** Canonical digits are the numeral of their value, and the only one. */
  lemma {:induction false} CanonicalIsNumeral(d: seq<nat>)
    requires Digits(d) && Canonical(d)
    ensures TextOf(d) == Numeral(Value(d))
    decreases |d|
  {
    if |d| == 1 {
      assert d[1..] == [];
    } else {
      var rest := d[1..];
      CanonicalIsNumeral(rest);
      CanonicalPositive(rest);
      assert TextOf(d) == TextOf(rest) + [0x30 + d[0]];
      assert Value(d) / 10 == Value(rest) && Value(d) % 10 == d[0];
    }
  }

  lemma {:induction false} CanonicalPositive(d: seq<nat>)
    requires Digits(d) && |d| > 0 && d[|d| - 1] != 0
    ensures Value(d) > 0
    decreases |d|
  {
    if |d| > 1 { CanonicalPositive(d[1..]); }
  }

  lemma {:induction false} ValueAppend(a: seq<nat>, b: seq<nat>)
    ensures Value(a + b) == Value(a) + Pow10(|a|) * Value(b)
    decreases |a|
  {
    hide Value; hide Pow10;
    if |a| == 0 {
      assert a + b == b;
      NoDigits();
      PowNext(0);
      assert a == [];
    } else {
      assert (a + b)[1..] == a[1..] + b;
      ValueAppend(a[1..], b);
      ValueHead(a);
      ValueHead(a + b);
      PowNext(|a| - 1);
      Times10(Pow10(|a| - 1), Value(b));
    }
  }

  lemma ValueHead(d: seq<nat>)
    requires |d| > 0
    ensures Value(d) == d[0] + 10 * Value(d[1..])
  {
  }

  lemma PowNext(n: nat)
    ensures Pow10(n + 1) == 10 * Pow10(n) && Pow10(0) == 1
  {
  }

  lemma Times10(p: nat, v: nat)
    ensures 10 * (p * v) == (10 * p) * v
  {
  }

  lemma Shift10(p: nat, low: nat, high: nat)
    ensures p * (low + 10 * high) == p * low + (10 * p) * high
  {
  }

  //
  // Groups of seven bits
  //

  function GroupsValue(groups: seq<nat>): nat {
    if |groups| == 0 then 0 else groups[0] + 128 * GroupsValue(groups[1..])
  }

  /** The groups of an unsigned integer of any size, and the position behind the last octet. */
  function GroupsRead(data: seq<byte>, mode: InputMode, pos: nat, done: seq<nat>): (r: Option<(seq<nat>, nat)>)
    decreases 8 * |data| - pos
  {
    match BitsRead(data, mode, pos, 8)
    case None => None
    case Some(octet) =>
      if octet.1 <= pos then None
      else
        var more := done + [octet.0 % 128];
        if octet.0 < 128 then Some((more, octet.1)) else GroupsRead(data, mode, octet.1, more)
  }

  lemma OctetMoves(data: seq<byte>, mode: InputMode, pos: nat)
    requires BitsRead(data, mode, pos, 8).Some?
    ensures BitsRead(data, mode, pos, 8).value.1 == pos + 8
  {
  }

  function GroupsOf(v: nat): seq<nat> {
    if v < 128 then [v] else [v % 128] + GroupsOf(v / 128)
  }

  lemma {:induction false} GroupsOfValue(v: nat)
    ensures GroupsValue(GroupsOf(v)) == v
  {
    if v >= 128 {
      GroupsOfValue(v / 128);
      assert GroupsOf(v)[1..] == GroupsOf(v / 128);
    } else {
      assert GroupsOf(v)[1..] == [];
    }
  }

  lemma GroupStep(data: seq<byte>, mode: InputMode, pos: nat, octet: nat, done: seq<nat>)
    requires BitsRead(data, mode, pos, 8) == Some((octet, pos + 8))
    ensures GroupsRead(data, mode, pos, done) ==
              if octet < 128 then Some((done + [octet % 128], pos + 8)) else GroupsRead(data, mode, pos + 8, done + [octet % 128])
  {
    hide BitsRead;
  }

  lemma WrittenUnfold(mode: InputMode, v: nat)
    ensures v < 128 ==> UnsignedWritten(mode, v) == BitsWritten(mode, v, 8) && GroupsOf(v) == [v] && v % 128 == v
    ensures v >= 128 ==>
              && UnsignedWritten(mode, v) == BitsWritten(mode, v % 128 + 128, 8) + UnsignedWritten(mode, v / 128)
              && GroupsOf(v) == [v % 128] + GroupsOf(v / 128) && (v % 128 + 128) % 128 == v % 128
    ensures forall x :: |BitsWritten(mode, x, 8)| == 8
  {
    hide BitsWritten;
  }

  /** An unsigned integer of any size that an encoder wrote is read back in full. */
  lemma {:induction false} GroupsInvert(data: seq<byte>, mode: InputMode, pos: nat, v: nat, done: seq<nat>)
    requires Stand(data, pos, UnsignedWritten(mode, v)) && (mode == ByteAligned ==> pos % 8 == 0)
    ensures GroupsRead(data, mode, pos, done) == Some((done + GroupsOf(v), pos + |UnsignedWritten(mode, v)|))
    decreases v
  {
    hide BitsRead; hide BitsWritten; hide Stand; hide Pow2; hide GroupsRead; hide UnsignedWritten; hide GroupsOf;
    Pow2Bytes();
    WrittenUnfold(mode, v);
    if v < 128 {
      WrittenIsRead(data, mode, pos, v, 8);
      GroupStep(data, mode, pos, v, done);
    } else {
      var octet := v % 128 + 128;
      StandSplit(data, pos, BitsWritten(mode, octet, 8), UnsignedWritten(mode, v / 128));
      WrittenIsRead(data, mode, pos, octet, 8);
      GroupStep(data, mode, pos, octet, done);
      GroupsInvert(data, mode, pos + 8, v / 128, done + [v % 128]);
      Regroup(done, [v % 128], GroupsOf(v / 128));
    }
  }

  lemma Regroup(a: seq<nat>, b: seq<nat>, c: seq<nat>)
    ensures (a + b) + c == a + (b + c)
  {
  }

  //
  // The conversion
  //

  method ReadGroups(input: ExiInput) returns (ok: bool, chunks: seq<nat>)
    requires input.Valid()
    modifies input
    ensures input.Valid()
    ensures var r := GroupsRead(input.data, input.mode, old(input.bitOffset), []);
      (ok <==> r.Some?) && (ok ==> r == Some((chunks, input.bitOffset)))
    ensures ok ==> |chunks| > 0 && forall k :: 0 <= k < |chunks| ==> chunks[k] < 128
  {
    hide BitsRead;
    chunks := [];
    while true
      invariant input.Valid()
      invariant GroupsRead(input.data, input.mode, input.bitOffset, chunks)
                == GroupsRead(input.data, input.mode, old(input.bitOffset), [])
      invariant forall k :: 0 <= k < |chunks| ==> chunks[k] < 128
      decreases 8 * |input.data| - input.bitOffset
    {
      if BitsRead(input.data, input.mode, input.bitOffset, 8).Some? {
        OctetMoves(input.data, input.mode, input.bitOffset);
      }
      var octet;
      ok, octet := input.ReadBits(8);
      if !ok {
        return;
      }
      chunks := chunks + [octet % 128];
      if octet < 128 {
        return;
      }
    }
  }

  /** One digit of multiply-and-add: what is done, the carry, and what is left still spell the result. */
  lemma MultiplyStep(done: seq<nat>, carry: nat, rest: seq<nat>)
    requires |rest| > 0
    ensures var expanded := rest[0] * 128 + carry;
      Value(done) + Pow10(|done|) * (carry + 128 * Value(rest))
      == Value(done + [expanded % 10]) + Pow10(|done| + 1) * (expanded / 10 + 128 * Value(rest[1..]))
  {
    hide Value; hide Pow10;
    var expanded := rest[0] * 128 + carry;
    ValueHead(rest);
    ValueAppend(done, [expanded % 10]);
    OneDigit(expanded % 10);
    PowNext(|done|);
    Shift10(Pow10(|done|), expanded % 10, expanded / 10 + 128 * Value(rest[1..]));
  }

  lemma OneDigit(x: nat)
    ensures Value([x]) == x
  {
    assert [x][1..] == [];
  }

  lemma StartOfStep(was: seq<nat>, chunk: nat)
    ensures Value([]) + Pow10(0) * (chunk + 128 * Value(was)) == 128 * Value(was) + chunk
  {
  }

  /** The first loop: every digit in place, and the carry that is left over. */
  method MultiplyDigits(digits: array<nat>, count: nat, chunk: nat) returns (carry: nat)
    requires 0 < count <= digits.Length && chunk < 128
    requires Digits(digits[..count]) && Canonical(digits[..count])
    modifies digits
    ensures carry < 128 && (carry == 0 ==> count == 1) && Digits(digits[..count])
    ensures Value(digits[..count]) + Pow10(count) * carry == 128 * Value(old(digits[..count])) + chunk
  {
    hide Value; hide Pow10;
    ghost var was := digits[..count];
    carry := chunk;
    StartOfStep(was, chunk);
    assert was[0..] == was && digits[..0] == [];
    for digitIndex := 0 to count
      invariant carry < 128 && Digits(digits[..digitIndex])
      invariant forall k :: digitIndex <= k < count ==> digits[k] == was[k]
      invariant Value(digits[..digitIndex]) + Pow10(digitIndex) * (carry + 128 * Value(was[digitIndex..])) == 128 * Value(was) + chunk
      invariant digitIndex == count > 1 ==> carry > 0
    {
      MultiplyStep(digits[..digitIndex], carry, was[digitIndex..]);
      var expanded := digits[digitIndex] * 128 + carry;
      ghost var before := digits[..digitIndex];
      digits[digitIndex] := expanded % 10;
      carry := expanded / 10;
      assert digits[..digitIndex + 1] == before + [expanded % 10];
      assert was[digitIndex..][1..] == was[digitIndex + 1..];
    }
    assert was[count..] == [];
    NoDigits();
  }

  lemma NoDigits()
    ensures Value([]) == 0
  {
  }

  lemma CarryStep(done: seq<nat>, carry: nat)
    ensures Value(done) + Pow10(|done|) * carry == Value(done + [carry % 10]) + Pow10(|done| + 1) * (carry / 10)
  {
    hide Value; hide Pow10;
    ValueAppend(done, [carry % 10]);
    OneDigit(carry % 10);
    PowNext(|done|);
    Shift10(Pow10(|done|), carry % 10, carry / 10);
  }

  /** The second loop: the carry becomes up to three new digits, none of them superfluous. */
  method AppendCarry(digits: array<nat>, count: nat, carry0: nat) returns (count': nat)
    requires 0 < count && count + 3 <= digits.Length && carry0 < 1000
    requires Digits(digits[..count]) && (carry0 == 0 ==> Canonical(digits[..count]))
    modifies digits
    ensures count <= count' <= count + 3
    ensures Digits(digits[..count']) && Canonical(digits[..count'])
    ensures Value(digits[..count']) == Value(old(digits[..count])) + Pow10(count) * carry0
  {
    hide Value; hide Pow10;
    var carry: nat := carry0;
    count' := count;
    while carry != 0
      invariant count <= count' <= count + 3 && Digits(digits[..count'])
      invariant carry < (if count' == count then 1000 else if count' == count + 1 then 100 else if count' == count + 2 then 10 else 1)
      invariant Value(digits[..count']) + Pow10(count') * carry == Value(old(digits[..count])) + Pow10(count) * carry0
      invariant carry == 0 ==> Canonical(digits[..count'])
      decreases carry
    {
      ghost var before := digits[..count'];
      CarryStep(before, carry);
      digits[count'] := carry % 10;
      assert digits[..count' + 1] == before + [carry % 10];
      carry := carry / 10;
      count' := count' + 1;
    }
  }

  /** Multiply by 128 and add a group, in place; at most three digits are added. */
  method MultiplyAdd(digits: array<nat>, count: nat, chunk: nat) returns (count': nat)
    requires 0 < count && count + 3 <= digits.Length && chunk < 128
    requires Digits(digits[..count]) && Canonical(digits[..count])
    modifies digits
    ensures count <= count' <= count + 3
    ensures Digits(digits[..count']) && Canonical(digits[..count'])
    ensures Value(digits[..count']) == 128 * Value(old(digits[..count])) + chunk
  {
    hide Value; hide Pow10;
    var carry := MultiplyDigits(digits, count, chunk);
    count' := AppendCarry(digits, count, carry);
  }

  /** Add one, in place; at most one digit is added. */
  method Increment(digits: array<nat>, count: nat) returns (count': nat)
    requires 0 < count && count < digits.Length
    requires Digits(digits[..count]) && Canonical(digits[..count])
    modifies digits
    ensures count <= count' <= count + 1
    ensures Digits(digits[..count']) && Canonical(digits[..count'])
    ensures Value(digits[..count']) == Value(old(digits[..count])) + 1
  {
    hide Value; hide Pow10;
    ghost var was := digits[..count];
    var digitIndex: nat, carry: nat := 0, 1;
    StartOfIncrement(was);
    assert was[0..] == was && digits[..0] == [];
    while carry != 0 && digitIndex < count
      invariant digitIndex <= count && carry <= 1 && Digits(digits[..digitIndex])
      invariant forall k :: digitIndex <= k < count ==> digits[k] == was[k]
      invariant Value(digits[..digitIndex]) + Pow10(digitIndex) * (carry + Value(was[digitIndex..])) == Value(was) + 1
      invariant carry == 0 ==> digitIndex > 0 && digits[digitIndex - 1] != 0
    {
      IncrementStep(digits[..digitIndex], carry, was[digitIndex..]);
      var expanded := digits[digitIndex] + carry;
      ghost var before := digits[..digitIndex];
      digits[digitIndex] := expanded % 10;
      carry := expanded / 10;
      digitIndex := digitIndex + 1;
      assert digits[..digitIndex] == before + [expanded % 10];
      assert was[digitIndex - 1..][1..] == was[digitIndex..];
    }
    ghost var low := digits[..digitIndex];
    count' := count;
    if carry != 0 {
      assert was[count..] == [];
      NoDigits();
      digits[count] := carry;
      ValueAppend(low, [1]);
      OneDigit(1);
      assert digits[..count + 1] == low + [1];
      count' := count + 1;
    } else {
      ValueAppend(low, was[digitIndex..]);
      assert digits[..count] == low + was[digitIndex..];
    }
  }

  lemma StartOfIncrement(was: seq<nat>)
    ensures Value([]) + Pow10(0) * (1 + Value(was)) == Value(was) + 1
  {
  }

  lemma IncrementStep(done: seq<nat>, carry: nat, rest: seq<nat>)
    requires |rest| > 0
    ensures var expanded := rest[0] + carry;
      Value(done) + Pow10(|done|) * (carry + Value(rest))
      == Value(done + [expanded % 10]) + Pow10(|done| + 1) * (expanded / 10 + Value(rest[1..]))
  {
    hide Value; hide Pow10;
    var expanded := rest[0] + carry;
    ValueHead(rest);
    ValueAppend(done, [expanded % 10]);
    OneDigit(expanded % 10);
    PowNext(|done|);
    Shift10(Pow10(|done|), expanded % 10, expanded / 10 + Value(rest[1..]));
  }

  /** Highest group first: multiply by 128 and add. */
  lemma GroupsHorner(chunks: seq<nat>, i: nat)
    requires 0 < i <= |chunks|
    ensures GroupsValue(chunks[i - 1..]) == chunks[i - 1] + 128 * GroupsValue(chunks[i..])
  {
    assert chunks[i - 1..][1..] == chunks[i..];
  }

  /** Decimal text of an unsigned integer of any size, plus one if asked, behind a sign if asked. */
  method ReadArbitraryUnsignedText(input: ExiInput, addOne: bool, negative: bool) returns (ok: bool, text: seq<byte>)
    requires input.Valid()
    modifies input
    ensures input.Valid()
    ensures var r := GroupsRead(input.data, input.mode, old(input.bitOffset), []);
      && (ok <==> r.Some?)
      && (ok ==>
            && input.bitOffset == r.value.1
            && text == (if negative then [0x2d] else []) + Numeral(GroupsValue(r.value.0) + if addOne then 1 else 0))
  {
    hide Value; hide Numeral; hide GroupsValue; hide GroupsRead;
    text := [];
    var chunks;
    ok, chunks := ReadGroups(input);
    if !ok {
      return;
    }
    ghost var end := input.bitOffset;
    // three digits for every octet, one to begin with and one for the increment always suffice
    var digits := new nat[|chunks| * 3 + 2];
    digits[0] := 0;
    var digitCount := 1;
    assert digits[..1] == [0];
    OneDigit(0);
    NoGroups(chunks);
    for chunkIndex := |chunks| downto 0
      invariant 1 <= digitCount <= 1 + 3 * (|chunks| - chunkIndex)
      invariant input.Valid() && input.bitOffset == end
      invariant Digits(digits[..digitCount]) && Canonical(digits[..digitCount])
      invariant Value(digits[..digitCount]) == GroupsValue(chunks[chunkIndex..])
    {
      GroupsHorner(chunks, chunkIndex + 1);
      digitCount := MultiplyAdd(digits, digitCount, chunks[chunkIndex]);
    }
    assert chunks[0..] == chunks;
    if addOne {
      digitCount := Increment(digits, digitCount);
    }
    text := WriteText(digits, digitCount, negative);
    CanonicalIsNumeral(digits[..digitCount]);
  }

  /** The digits from the top, behind the sign. */
  method WriteText(digits: array<nat>, digitCount: nat, negative: bool) returns (text: seq<byte>)
    requires digitCount <= digits.Length && Digits(digits[..digitCount])
    ensures text == (if negative then [0x2d] else []) + TextOf(digits[..digitCount])
  {
    text := if negative then [0x2d] else [];
    ghost var sign := text;
    ghost var d := digits[..digitCount];
    for digitIndex := digitCount downto 0
      invariant text == sign + TextOf(d)[..digitCount - digitIndex]
    {
      text := text + [0x30 + digits[digitIndex]];
      assert d[digitIndex] == digits[digitIndex];
      assert TextOf(d)[..digitCount - digitIndex] == TextOf(d)[..digitCount - digitIndex - 1] + [0x30 + d[digitIndex]];
    }
    assert TextOf(d)[..digitCount] == TextOf(d);
  }

  lemma NoGroups(chunks: seq<nat>)
    ensures GroupsValue(chunks[|chunks|..]) == 0
  {
  }
}
