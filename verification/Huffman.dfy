// Canonical Huffman codes (RFC 1951, section 3.2.2): when a vector of code lengths is accepted, that
// the codes are prefix-free, and that decoding inverts them.
module Huffman {
  import opened Common
  import opened Arithmetic
  import opened DeflateBits

  const MAX_CODE_LENGTH: nat := 15

  /** One code word: its bits in stream order, first bit lowest. */
  datatype CodeEntry = CodeEntry(reversedCode: nat, length: nat, symbol: nat)

  /** How many of the first n symbols have a code of the given length. */
  function CountOf(lengths: seq<nat>, length: nat, n: nat): nat
    requires n <= |lengths|
  {
    if n == 0 then 0 else CountOf(lengths, length, n - 1) + if lengths[n - 1] == length then 1 else 0
  }

  /** Length 0 means no code, so it counts nothing. */
  function Count(lengths: seq<nat>, length: nat): nat {
    if length == 0 then 0 else CountOf(lengths, length, |lengths|)
  }

  /** The first code of each length: all shorter codes are used up before it. */
  function FirstCode(lengths: seq<nat>, length: nat): nat {
    if length == 0 then 0 else (FirstCode(lengths, length - 1) + Count(lengths, length - 1)) * 2
  }

  function CodeOf(lengths: seq<nat>, symbol: nat): nat
    requires symbol < |lengths|
  {
    FirstCode(lengths, lengths[symbol]) + CountOf(lengths, lengths[symbol], symbol)
  }

  /** The n low bits of a code in reverse order. */
  function Reverse(code: nat, n: nat): (r: nat)
    ensures r < Pow2(n)
    decreases n
  {
    if n == 0 then 0 else Reverse(code / 2, n - 1) + code % 2 * Pow2(n - 1)
  }

  /** The entries of the first n symbols. */
  function Entries(lengths: seq<nat>, n: nat): seq<CodeEntry>
    requires n <= |lengths|
  {
    if n == 0 then []
    else
      Entries(lengths, n - 1) +
      if lengths[n - 1] == 0 then []
      else [CodeEntry(Reverse(CodeOf(lengths, n - 1), lengths[n - 1]), lengths[n - 1], n - 1)]
  }

  /** The share of the code space a length takes, in units of the longest code. */
  function Share(length: nat): nat {
    if 0 < length <= MAX_CODE_LENGTH then Pow2(MAX_CODE_LENGTH - length) else 0
  }

  /** The Kraft sum of the first n lengths, scaled so that the whole space is 2 to the 15. */
  function Kraft(lengths: seq<nat>, n: nat): nat
    requires n <= |lengths|
  {
    if n == 0 then 0 else Kraft(lengths, n - 1) + Share(lengths[n - 1])
  }

  /** Which vectors of code lengths have a code. */
  ghost predicate Accepted(lengths: seq<nat>) {
    && (forall k :: 0 <= k < |lengths| ==> lengths[k] <= MAX_CODE_LENGTH)
    && (exists k :: 0 <= k < |lengths| && lengths[k] != 0)
    && Kraft(lengths, |lengths|) <= Pow2(MAX_CODE_LENGTH)
  }

  //
  // The Kraft sum and the running check
  //

  /** The codes used up to a length, in units of that length. */
  function Used(lengths: seq<nat>, length: nat): nat {
    FirstCode(lengths, length) + Count(lengths, length)
  }

  /** The Kraft sum over the lengths up to a bound. */
  function KraftUpTo(lengths: seq<nat>, length: nat, n: nat): nat
    requires n <= |lengths|
  {
    if n == 0 then 0
    else KraftUpTo(lengths, length, n - 1) + if lengths[n - 1] <= length then Share(lengths[n - 1]) else 0
  }

  lemma {:induction false} KraftStep(lengths: seq<nat>, length: nat, n: nat)
    requires n <= |lengths| && 0 < length <= MAX_CODE_LENGTH
    ensures KraftUpTo(lengths, length, n) == KraftUpTo(lengths, length - 1, n) + CountOf(lengths, length, n) * Share(length)
  {
    hide Share;
    if n > 0 {
      KraftStep(lengths, length, n - 1);
      MulMono(CountOf(lengths, length, n - 1), CountOf(lengths, length, n), Share(length));
    }
  }

  lemma {:induction false} KraftNone(lengths: seq<nat>, n: nat)
    requires n <= |lengths|
    ensures KraftUpTo(lengths, 0, n) == 0
  {
    if n > 0 { KraftNone(lengths, n - 1); }
  }

  lemma {:induction false} KraftAll(lengths: seq<nat>, n: nat)
    requires n <= |lengths|
    ensures KraftUpTo(lengths, MAX_CODE_LENGTH, n) == Kraft(lengths, n)
  {
    if n > 0 { KraftAll(lengths, n - 1); }
  }

  lemma ShareDoubles(length: nat)
    requires 0 < length < MAX_CODE_LENGTH
    ensures Share(length) == 2 * Share(length + 1)
  {
  }

  /** The running total is the Kraft sum so far, in units of the current length. */
  lemma Spread(a: nat, b: nat, s: nat)
    ensures (a * 2 + b) * s == a * (2 * s) + b * s
  {
  }

  lemma {:induction false} UsedIsKraft(lengths: seq<nat>, length: nat)
    requires 0 < length <= MAX_CODE_LENGTH
    ensures Used(lengths, length) * Share(length) == KraftUpTo(lengths, length, |lengths|)
    decreases length
  {
    hide Share; hide KraftUpTo; hide CountOf;
    KraftStep(lengths, length, |lengths|);
    if length == 1 {
      KraftNone(lengths, |lengths|);
      assert FirstCode(lengths, 1) == 0;
    } else {
      UsedIsKraft(lengths, length - 1);
      ShareDoubles(length - 1);
      Spread(Used(lengths, length - 1), Count(lengths, length), Share(length));
    }
  }

  /** The total never shrinks, so the last check implies the earlier ones. */
  lemma {:induction false} UsedGrows(lengths: seq<nat>, a: nat, b: nat)
    requires a <= b
    ensures Used(lengths, a) * Pow2(b - a) <= Used(lengths, b)
    decreases b
  {
    hide Count;
    if a < b {
      UsedGrows(lengths, a, b - 1);
      assert Pow2(b - a) == 2 * Pow2(b - 1 - a);
      var u, p := Used(lengths, a), Pow2(b - 1 - a);
      assert u * (2 * p) == 2 * (u * p);
    } else {
      assert Pow2(0) == 1;
    }
  }

  /** Every running check passes exactly when the Kraft sum is at most one. */
  lemma ChecksAreKraft(lengths: seq<nat>)
    ensures (forall b: nat :: 1 <= b <= MAX_CODE_LENGTH ==> Used(lengths, b) <= Pow2(b))
              <==> Kraft(lengths, |lengths|) <= Pow2(MAX_CODE_LENGTH)
  {
    hide Used; hide Kraft; hide KraftUpTo;
    UsedIsKraft(lengths, MAX_CODE_LENGTH);
    KraftAll(lengths, |lengths|);
    assert Share(MAX_CODE_LENGTH) == 1;
    if Used(lengths, MAX_CODE_LENGTH) <= Pow2(MAX_CODE_LENGTH) {
      forall b: nat | 1 <= b <= MAX_CODE_LENGTH
        ensures Used(lengths, b) <= Pow2(b)
      {
        UsedGrows(lengths, b, MAX_CODE_LENGTH);
        Pow2Add(b, MAX_CODE_LENGTH - b);
        Cancels(Used(lengths, b), Pow2(b), Pow2(MAX_CODE_LENGTH - b));
      }
    }
  }

  //
  // Reversal
  //

  /** The code without its n low bits. */
  function Shift(code: nat, n: nat): nat
    decreases n
  {
    if n == 0 then code else Shift(code / 2, n - 1)
  }

  /** The low bits of a reversed code are its high bits reversed. */
  lemma {:induction false} ReverseLow(code: nat, n: nat, k: nat)
    requires k <= n
    ensures Reverse(code, n) % Pow2(k) == Reverse(Shift(code, n - k), k)
    decreases n
  {
    if k == n {
      SmallMod(Reverse(code, n), Pow2(n));
    } else {
      ReverseLow(code / 2, n - 1, k);
      TopDrops(Reverse(code / 2, n - 1), code % 2, n, k);
    }
  }

  lemma TopDrops(low: nat, bit: nat, n: nat, k: nat)
    requires k < n
    ensures (low + bit * Pow2(n - 1)) % Pow2(k) == low % Pow2(k)
  {
    Pow2Add(n - 1 - k, k);
    assert bit * (Pow2(n - 1 - k) * Pow2(k)) == (bit * Pow2(n - 1 - k)) * Pow2(k);
    ModDrops(low, bit * Pow2(n - 1 - k), Pow2(k));
  }

  /** Different codes of one length stay different. */
  lemma {:induction false} ReverseInjective(a: nat, b: nat, n: nat)
    requires a < Pow2(n) && b < Pow2(n) && Reverse(a, n) == Reverse(b, n)
    ensures a == b
    decreases n
  {
    if n > 0 {
      var p := Pow2(n - 1);
      ModUnique(Reverse(a, n), a % 2, Reverse(a / 2, n - 1), p);
      ModUnique(Reverse(b, n), b % 2, Reverse(b / 2, n - 1), p);
      ReverseInjective(a / 2, b / 2, n - 1);
    }
  }

  //
  // Prefix freedom
  //

  lemma {:induction false} CountRises(lengths: seq<nat>, length: nat, a: nat, b: nat)
    requires a <= b <= |lengths|
    ensures CountOf(lengths, length, a) <= CountOf(lengths, length, b)
    ensures a < b && lengths[a] == length ==> CountOf(lengths, length, a) < CountOf(lengths, length, b)
    decreases b
  {
    if a < b { CountRises(lengths, length, a, b - 1); }
  }

  lemma UsedFits(lengths: seq<nat>, length: nat)
    requires Accepted(lengths) && 1 <= length <= MAX_CODE_LENGTH
    ensures Used(lengths, length) <= Pow2(length)
  {
    hide Used; hide Kraft;
    ChecksAreKraft(lengths);
  }

  /** A symbol's code lies in the range of its length. */
  lemma CodeInRange(lengths: seq<nat>, symbol: nat)
    requires Accepted(lengths) && symbol < |lengths| && lengths[symbol] > 0
    ensures lengths[symbol] <= MAX_CODE_LENGTH
    ensures FirstCode(lengths, lengths[symbol]) <= CodeOf(lengths, symbol) < Used(lengths, lengths[symbol]) <= Pow2(lengths[symbol])
  {
    hide FirstCode; hide CountOf; hide Kraft;
    CountRises(lengths, lengths[symbol], symbol, |lengths|);
    UsedFits(lengths, lengths[symbol]);
  }

  lemma {:induction false} ShiftAtLeast(x: nat, u: nat, d: nat)
    requires u * Pow2(d) <= x
    ensures u <= Shift(x, d)
    decreases d
  {
    if d == 0 {
      assert Pow2(0) == 1;
    } else {
      assert u * Pow2(d) == 2 * (u * Pow2(d - 1));
      ShiftAtLeast(x / 2, u, d - 1);
    }
  }

  lemma {:induction false} ShiftBelow(x: nat, n: nat, d: nat)
    requires x < Pow2(n + d)
    ensures Shift(x, d) < Pow2(n)
    decreases d
  {
    if d > 0 { ShiftBelow(x / 2, n, d - 1); }
  }

  /** No code is the beginning of another symbol's code. */
  lemma CodesApart(lengths: seq<nat>, s: nat, t: nat)
    requires Accepted(lengths) && s < |lengths| && t < |lengths| && s != t
    requires 0 < lengths[s] <= lengths[t]
    ensures Shift(CodeOf(lengths, t), lengths[t] - lengths[s]) != CodeOf(lengths, s)
  {
    hide Kraft; hide CountOf; hide FirstCode; hide Pow2; hide Used; hide Accepted;
    var a, b := lengths[s], lengths[t];
    CodeInRange(lengths, s);
    CodeInRange(lengths, t);
    if a == b {
      if s < t { CountRises(lengths, a, s, t); } else { CountRises(lengths, a, t, s); }
    } else {
      FirstAfter(lengths, a, b);
      ShiftAtLeast(CodeOf(lengths, t), Used(lengths, a), b - a);
    }
  }

  /** The first code of a length lies behind all shorter codes, extended to that length. */
  lemma FirstAfter(lengths: seq<nat>, a: nat, b: nat)
    requires a < b
    ensures Used(lengths, a) * Pow2(b - a) <= FirstCode(lengths, b)
  {
    hide Used;
    UsedGrows(lengths, a, b - 1);
    NextFirst(lengths, b);
    Double(Used(lengths, a), Pow2(b - 1 - a), Pow2(b - a));
  }

  lemma Double(u: nat, p: nat, q: nat)
    requires q == 2 * p
    ensures u * q == 2 * (u * p)
  {
  }

  lemma NextFirst(lengths: seq<nat>, length: nat)
    requires length > 0
    ensures FirstCode(lengths, length) == 2 * Used(lengths, length - 1)
  {
    hide Count;
  }

  /** The same, for the bits in stream order. */
  lemma ReversedApart(lengths: seq<nat>, s: nat, t: nat)
    requires Accepted(lengths) && s < |lengths| && t < |lengths| && s != t
    requires 0 < lengths[s] <= lengths[t]
    ensures Reverse(CodeOf(lengths, t), lengths[t]) % Pow2(lengths[s]) != Reverse(CodeOf(lengths, s), lengths[s])
  {
    hide Accepted; hide CodeOf; hide Used; hide FirstCode; hide Reverse; hide Shift; hide Pow2;
    CodeInRange(lengths, s);
    CodeInRange(lengths, t);
    CodesApart(lengths, s, t);
    var d := lengths[t] - lengths[s];
    ReverseLow(CodeOf(lengths, t), lengths[t], lengths[s]);
    ShiftBelow(CodeOf(lengths, t), lengths[s], d);
    if Reverse(Shift(CodeOf(lengths, t), d), lengths[s]) == Reverse(CodeOf(lengths, s), lengths[s]) {
      ReverseInjective(Shift(CodeOf(lengths, t), d), CodeOf(lengths, s), lengths[s]);
    }
  }

  //
  // The table of entries
  //

  /** The entry belongs to its symbol. */
  predicate EntryOf(lengths: seq<nat>, e: CodeEntry) {
    && e.symbol < |lengths| && lengths[e.symbol] > 0 && e.length == lengths[e.symbol]
    && e.reversedCode == Reverse(CodeOf(lengths, e.symbol), e.length)
  }

  lemma {:induction false} EntriesBelong(lengths: seq<nat>, n: nat)
    requires n <= |lengths|
    ensures forall k :: 0 <= k < |Entries(lengths, n)| ==> EntryOf(lengths, Entries(lengths, n)[k])
    ensures |Entries(lengths, n)| <= n
  {
    hide Reverse; hide CodeOf;
    if n > 0 { EntriesBelong(lengths, n - 1); }
  }

  lemma {:induction false} EntryIndex(lengths: seq<nat>, n: nat, symbol: nat) returns (k: nat)
    requires symbol < n <= |lengths| && lengths[symbol] > 0
    ensures k < |Entries(lengths, n)| && Entries(lengths, n)[k].symbol == symbol
    decreases n
  {
    hide Reverse; hide CodeOf;
    if symbol == n - 1 { k := |Entries(lengths, n - 1)|; } else { k := EntryIndex(lengths, n - 1, symbol); }
  }

  //
  // Decoding
  //

  /** The symbol of the first entry with the given length and bits. */
  function Find(codes: seq<CodeEntry>, from: nat, length: nat, value: nat): Option<nat>
    decreases |codes| - from
  {
    if from >= |codes| then None
    else if codes[from].length == length && codes[from].reversedCode == value then Some(codes[from].symbol)
    else Find(codes, from + 1, length, value)
  }

  /** Try the bits from pos on with growing lengths, starting with the given one. */
  function DecodeFrom(data: seq<byte>, pos: nat, codes: seq<CodeEntry>, length: nat): (r: Option<(nat, nat)>)
    ensures r.Some? ==> pos + length <= r.value.1 <= 8 * |data|
    decreases 8 * |data| + MAX_CODE_LENGTH + 1 - (pos + length)
  {
    if length > MAX_CODE_LENGTH || pos + length > 8 * |data| then None
    else
      match Find(codes, 0, length, BitsValue(data, pos, length))
      case Some(symbol) => Some((symbol, pos + length))
      case None => DecodeFrom(data, pos, codes, length + 1)
  }

  function DecodeSymbol(data: seq<byte>, pos: nat, codes: seq<CodeEntry>): (r: Option<(nat, nat)>)
    ensures r.Some? ==> pos < r.value.1 <= 8 * |data|
  {
    DecodeFrom(data, pos, codes, 1)
  }

  lemma {:induction false} FindSound(codes: seq<CodeEntry>, from: nat, length: nat, value: nat)
    requires Find(codes, from, length, value).Some?
    ensures exists k :: 0 <= k < |codes| && codes[k].length == length && codes[k].reversedCode == value
                        && codes[k].symbol == Find(codes, from, length, value).value
    decreases |codes| - from
  {
    if !(codes[from].length == length && codes[from].reversedCode == value) {
      FindSound(codes, from + 1, length, value);
    }
  }

  lemma {:induction false} FindComplete(codes: seq<CodeEntry>, from: nat, length: nat, value: nat, k: nat)
    requires from <= k < |codes| && codes[k].length == length && codes[k].reversedCode == value
    ensures Find(codes, from, length, value).Some?
    decreases |codes| - from
  {
    if from < k && !(codes[from].length == length && codes[from].reversedCode == value) {
      FindComplete(codes, from + 1, length, value, k);
    }
  }

  /** The low bits of a longer read are the shorter read. */
  lemma {:induction false} BitsLow(data: seq<byte>, pos: nat, n: nat, k: nat)
    requires k <= n && pos + n <= 8 * |data|
    ensures BitsValue(data, pos, n) % Pow2(k) == BitsValue(data, pos, k)
    decreases n
  {
    hide Bit;
    if k == n {
      SmallMod(BitsValue(data, pos, n), Pow2(n));
    } else {
      BitsLow(data, pos, n - 1, k);
      TopDrops(BitsValue(data, pos, n - 1), Bit(data, pos + n - 1), n, k);
    }
  }

  /** The stream at pos reads the code of the symbol. */
  predicate Reads(data: seq<byte>, pos: nat, lengths: seq<nat>, symbol: nat)
    requires symbol < |lengths|
  {
    && lengths[symbol] > 0 && pos + lengths[symbol] <= 8 * |data|
    && BitsValue(data, pos, lengths[symbol]) == Reverse(CodeOf(lengths, symbol), lengths[symbol])
  }

  /** What Find returns at pos is a symbol whose code is read there. */
  lemma FoundReads(data: seq<byte>, pos: nat, lengths: seq<nat>, length: nat)
    requires pos + length <= 8 * |data|
    ensures var r := Find(Entries(lengths, |lengths|), 0, length, BitsValue(data, pos, length));
      r.Some? ==> r.value < |lengths| && lengths[r.value] == length && Reads(data, pos, lengths, r.value)
  {
    hide Reverse; hide CodeOf; hide Entries;
    var codes := Entries(lengths, |lengths|);
    var v := BitsValue(data, pos, length);
    EntriesBelong(lengths, |lengths|);
    if Find(codes, 0, length, v).Some? {
      FindSound(codes, 0, length, v);
      var k :| 0 <= k < |codes| && codes[k].length == length && codes[k].reversedCode == v
               && codes[k].symbol == Find(codes, 0, length, v).value;
      assert EntryOf(lengths, codes[k]);
    }
  }

  /** No two codes can be read at one place. */
  lemma ReadsOne(data: seq<byte>, pos: nat, lengths: seq<nat>, s: nat, t: nat)
    requires Accepted(lengths) && s < |lengths| && t < |lengths| && lengths[s] <= lengths[t]
    requires Reads(data, pos, lengths, s) && Reads(data, pos, lengths, t)
    ensures s == t
  {
    hide Accepted; hide CodeOf; hide Reverse; hide Pow2;
    if s != t {
      BitsLow(data, pos, lengths[t], lengths[s]);
      ReversedApart(lengths, s, t);
    }
  }

  lemma {:induction false} DecodeFromFinds(data: seq<byte>, pos: nat, lengths: seq<nat>, symbol: nat, length: nat)
    requires Accepted(lengths) && symbol < |lengths| && Reads(data, pos, lengths, symbol) && length <= lengths[symbol]
    ensures DecodeFrom(data, pos, Entries(lengths, |lengths|), length) == Some((symbol, pos + lengths[symbol]))
    decreases lengths[symbol] - length
  {
    hide CodeOf; hide Reverse; hide Find; hide Entries; hide EntryOf; hide Kraft;
    var codes := Entries(lengths, |lengths|);
    FoundReads(data, pos, lengths, length);
    var found := Find(codes, 0, length, BitsValue(data, pos, length));
    if found.Some? {
      ReadsOne(data, pos, lengths, found.value, symbol);
    } else if length == lengths[symbol] {
      SymbolFound(data, pos, lengths, symbol);
    } else {
      DecodeFromFinds(data, pos, lengths, symbol, length + 1);
    }
  }

  lemma SymbolFound(data: seq<byte>, pos: nat, lengths: seq<nat>, symbol: nat)
    requires symbol < |lengths| && Reads(data, pos, lengths, symbol)
    ensures Find(Entries(lengths, |lengths|), 0, lengths[symbol], BitsValue(data, pos, lengths[symbol])).Some?
  {
    hide CodeOf; hide Reverse; hide Entries;
    var codes := Entries(lengths, |lengths|);
    var k := EntryIndex(lengths, |lengths|, symbol);
    EntriesBelong(lengths, |lengths|);
    assert EntryOf(lengths, codes[k]);
    FindComplete(codes, 0, lengths[symbol], BitsValue(data, pos, lengths[symbol]), k);
  }

  lemma {:induction false} DecodeFromSound(data: seq<byte>, pos: nat, lengths: seq<nat>, length: nat)
    requires DecodeFrom(data, pos, Entries(lengths, |lengths|), length).Some?
    ensures var r := DecodeFrom(data, pos, Entries(lengths, |lengths|), length).value;
      r.0 < |lengths| && Reads(data, pos, lengths, r.0) && r.1 == pos + lengths[r.0]
    decreases 8 * |data| + MAX_CODE_LENGTH + 1 - (pos + length)
  {
    hide CodeOf; hide Reverse; hide Find; hide Entries;
    FoundReads(data, pos, lengths, length);
    if Find(Entries(lengths, |lengths|), 0, length, BitsValue(data, pos, length)).None? {
      DecodeFromSound(data, pos, lengths, length + 1);
    }
  }

  /** Decoding returns a symbol exactly when the symbol's code is read there, and steps over just that code. */
  lemma DecodeInverts(data: seq<byte>, pos: nat, lengths: seq<nat>, symbol: nat)
    requires Accepted(lengths) && symbol < |lengths|
    ensures Reads(data, pos, lengths, symbol) <==>
            DecodeSymbol(data, pos, Entries(lengths, |lengths|)) == Some((symbol, pos + lengths[symbol]))
  {
    hide Reads; hide Entries; hide Accepted; hide DecodeFrom;
    if Reads(data, pos, lengths, symbol) {
      assert 1 <= lengths[symbol] by { ReadsLength(data, pos, lengths, symbol); }
      DecodeFromFinds(data, pos, lengths, symbol, 1);
    } else if DecodeSymbol(data, pos, Entries(lengths, |lengths|)).Some? {
      DecodeFromSound(data, pos, lengths, 1);
    }
  }

  lemma ReadsLength(data: seq<byte>, pos: nat, lengths: seq<nat>, symbol: nat)
    requires symbol < |lengths| && Reads(data, pos, lengths, symbol)
    ensures lengths[symbol] > 0
  {
  }
}
