// Numbers and code words of the format are what the bit input and the Huffman tables read.
module DeflateWords {
  import opened Common
  import opened Arithmetic
  import opened DeflateBits
  import opened DeflateFormat
  import opened Huffman

  lemma OneBit(data: seq<byte>, k: nat)
    requires k < 8 * |data|
    ensures BitOf(data, k) == Bit(data, k) <= 1
  {
  }

  //
  // Numbers
  //

  /** Adding an even multiple of p changes no parity of what p divides off. */
  lemma EvenMultiple(low: nat, m: nat, p: nat)
    requires p > 0
    ensures (low + m * (2 * p)) / p % 2 == low / p % 2
  {
    var q, r := low / p, low % p;
    DivMod(low, p);
    Distributes(q, 2 * m, p);
    assert m * (2 * p) == 2 * m * p;
    ModUnique(low + m * (2 * p), q + 2 * m, r, p);
  }

  /** A bit on top of n others changes none of them. */
  lemma TopBit(low: nat, bit: nat, n: nat, k: nat)
    requires low < Pow2(n) && bit <= 1
    ensures k < n ==> (low + bit * Pow2(n)) / Pow2(k) % 2 == low / Pow2(k) % 2
    ensures k == n ==> (low + bit * Pow2(n)) / Pow2(k) % 2 == bit
  {
    if k < n {
      var h := n - k - 1;
      Pow2Add(h, k + 1);
      assert Pow2(k + 1) == 2 * Pow2(k);
      hide Pow2;
      assert bit * (Pow2(h) * (2 * Pow2(k))) == bit * Pow2(h) * (2 * Pow2(k));
      EvenMultiple(low, bit * Pow2(h), Pow2(k));
    } else if k == n {
      hide Pow2;
      ModUnique(low + bit * Pow2(n), bit, low, Pow2(n));
    }
  }

  lemma {:induction false} BitsAre(data: seq<byte>, pos: nat, n: nat, k: nat)
    requires pos + n <= 8 * |data| && k < n
    ensures FieldBit(data, pos, BitsValue(data, pos, n), k)
    decreases n
  {
    hide Bit; hide BitOf;
    var low, bit := BitsValue(data, pos, n - 1), Bit(data, pos + n - 1);
    OneBit(data, pos + n - 1);
    TopBit(low, bit, n - 1, k);
    if k < n - 1 { BitsAre(data, pos, n - 1, k); }
  }

  predicate SameAt(a: nat, b: nat, k: nat) {
    a / Pow2(k) % 2 == b / Pow2(k) % 2
  }

  /** A number is determined by its bits. */
  lemma {:induction false} SameBits(a: nat, b: nat, n: nat)
    requires a < Pow2(n) && b < Pow2(n) && forall k: nat :: k < n ==> SameAt(a, b, k)
    ensures a == b
    decreases n
  {
    if n > 0 {
      assert SameAt(a, b, 0);
      forall k: nat | k < n - 1
        ensures SameAt(a / 2, b / 2, k)
      {
        assert SameAt(a, b, k + 1);
        DivTwice(a, Pow2(k));
        DivTwice(b, Pow2(k));
      }
      SameBits(a / 2, b / 2, n - 1);
    }
  }

  /** A field holds exactly the number that is read there. */
  lemma FieldIs(data: seq<byte>, pos: nat, n: nat, v: nat)
    ensures Field(data, pos, n, v) <==> BitsRead(data, pos, n) == Some((v, pos + n))
  {
    hide BitOf;
    if pos + n <= 8 * |data| {
      var u := BitsValue(data, pos, n);
      forall k: nat | k < n
        ensures FieldBit(data, pos, u, k)
      {
        BitsAre(data, pos, n, k);
      }
      if Field(data, pos, n, v) {
        forall k: nat | k < n
          ensures SameAt(u, v, k)
        {
          assert FieldBit(data, pos, u, k) && FieldBit(data, pos, v, k);
        }
        SameBits(u, v, n);
      }
    }
  }

  //
  // Code words
  //

  lemma {:induction false} SpaceIsKraft(lengths: seq<nat>, n: nat)
    requires n <= |lengths|
    ensures Space(lengths, n) == Kraft(lengths, n)
  {
    if n > 0 { SpaceIsKraft(lengths, n - 1); }
  }

  lemma CodeIsAccepted(lengths: seq<nat>)
    ensures IsCode(lengths) <==> Accepted(lengths)
  {
    SpaceIsKraft(lengths, |lengths|);
  }

  /** What is taken before a word: all shorter ones, and as many as long as there are smaller symbols. */
  lemma {:induction false} AheadIs(lengths: seq<nat>, t: nat, n: nat)
    requires t < |lengths| && n <= |lengths| && 0 < lengths[t] <= LONGEST
    ensures Ahead(lengths, t, n)
         == KraftUpTo(lengths, lengths[t] - 1, n) + CountOf(lengths, lengths[t], if n <= t then n else t) * Share(lengths[t])
  {
    hide Share;
    if n > 0 {
      AheadIs(lengths, t, n - 1);
      ShareIs(lengths[n - 1]);
      MulMono(CountOf(lengths, lengths[t], n - 1), CountOf(lengths, lengths[t], n), Share(lengths[t]));
    }
  }

  lemma ShareIs(length: nat)
    ensures 0 < length <= LONGEST ==> Share(length) == Pow2(LONGEST - length)
    ensures length == 0 ==> Share(length) == 0
  {
  }

  /** A code word, stretched to the longest length, begins where the words before it end. */
  lemma CodeIs(lengths: seq<nat>, t: nat)
    requires t < |lengths| && 0 < lengths[t] <= LONGEST
    ensures CodeOf(lengths, t) * Pow2(LONGEST - lengths[t]) == Ahead(lengths, t, |lengths|)
  {
    hide Share; hide KraftUpTo; hide CountOf; hide Used;
    var n := lengths[t];
    AheadIs(lengths, t, |lengths|);
    ShareIs(n);
    NextFirst(lengths, n);
    if n == 1 {
      KraftNone(lengths, |lengths|);
      assert FirstCode(lengths, 1) == 0;
    } else {
      UsedIsKraft(lengths, n - 1);
      ShareDoubles(n - 1);
      Spread(Used(lengths, n - 1), 0, Share(n));
    }
    Distributes(FirstCode(lengths, n), CountOf(lengths, n, t), Share(n));
  }

  lemma {:induction false} ShiftIs(code: nat, n: nat)
    ensures Shift(code, n) == code / Pow2(n)
    decreases n
  {
    if n > 0 {
      ShiftIs(code / 2, n - 1);
      DivTwice(code, Pow2(n - 1));
    }
  }

  /** Bit k of a reversed code is bit n - 1 - k of the code. */
  lemma {:induction false} ReverseBit(code: nat, n: nat, k: nat)
    requires k < n
    ensures Reverse(code, n) / Pow2(k) % 2 == code / Pow2(n - 1 - k) % 2
    decreases n
  {
    TopBit(Reverse(code / 2, n - 1), code % 2, n - 1, k);
    if k < n - 1 {
      ReverseBit(code / 2, n - 1, k);
      DivTwice(code, Pow2(n - 2 - k));
    }
  }

  lemma DivScaled(x: nat, m: nat, p: nat)
    requires m > 0 && p > 0
    ensures (x * p) / (p * m) == x / m
  {
    var q, r := x / m, x % m;
    DivMod(x, m);
    Distributes(q * m, r, p);
    assert q * m * p == q * (p * m);
    MulMono(r + 1, m, p);
    assert m * p == p * m;
    ModUnique(x * p, q, r * p, p * m);
  }

  /** Digits of a number and of its multiple by a power of two. */
  lemma Stretched(code: nat, up: nat, k: nat)
    ensures (code * Pow2(up)) / Pow2(up + k) == code / Pow2(k)
  {
    Pow2Add(up, k);
    hide Pow2;
    DivScaled(code, Pow2(k), Pow2(up));
  }

  lemma WordBitIs(data: seq<byte>, pos: nat, lengths: seq<nat>, symbol: nat, k: nat)
    requires symbol < |lengths| && k < lengths[symbol] <= LONGEST && pos + lengths[symbol] <= 8 * |data|
    ensures WordBit(data, pos, Ahead(lengths, symbol, |lengths|), k)
        <==> FieldBit(data, pos, Reverse(CodeOf(lengths, symbol), lengths[symbol]), k)
  {
    hide BitOf; hide Ahead; hide CodeOf; hide Reverse;
    var n, code := lengths[symbol], CodeOf(lengths, symbol);
    CodeIs(lengths, symbol);
    Stretched(code, LONGEST - n, n - 1 - k);
    ReverseBit(code, n, k);
  }

  /** The code word of the format is the one the tables read. */
  lemma WordIs(data: seq<byte>, pos: nat, lengths: seq<nat>, symbol: nat)
    requires IsCode(lengths) && symbol < |lengths|
    ensures Word(data, pos, lengths, symbol) <==> Reads(data, pos, lengths, symbol)
  {
    hide BitOf; hide Ahead; hide CodeOf; hide Reverse; hide WordBit; hide FieldBit; hide Space; hide BitsValue;
    var n := lengths[symbol];
    if 0 < n && pos + n <= 8 * |data| {
      forall k: nat | k < n
        ensures WordBit(data, pos, Ahead(lengths, symbol, |lengths|), k)
            <==> FieldBit(data, pos, Reverse(CodeOf(lengths, symbol), n), k)
      {
        WordBitIs(data, pos, lengths, symbol, k);
      }
      FieldIs(data, pos, n, Reverse(CodeOf(lengths, symbol), n));
    }
  }
}
