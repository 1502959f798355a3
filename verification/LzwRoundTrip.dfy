// Whatever an encoder with the same width, alignment and clear rules packs, the decoder returns; and
// such an encoder exists for every byte string.
module LzwRoundTrip {
  import opened Common
  import opened Arithmetic
  import opened DeflateBits
  import opened LzwModel

  //
  // Packing bits
  //

  function Digit(b: bool): nat {
    if b then 1 else 0
  }

  /** The n low bits of v, lowest first. */
  function CodeBits(v: nat, n: nat): (r: seq<bool>)
    ensures |r| == n
    decreases n
  {
    if n == 0 then [] else [v % 2 == 1] + CodeBits(v / 2, n - 1)
  }

  /** The number n bits spell, lowest first; missing bits are zero. */
  function Number(bits: seq<bool>, n: nat): (r: nat)
    ensures r < Pow2(n)
    decreases n
  {
    if n == 0 || |bits| == 0 then 0 else Digit(bits[0]) + 2 * Number(bits[1..], n - 1)
  }

  /** Bits into bytes, the last byte filled with zeros. */
  function Pack(bits: seq<bool>): (r: seq<byte>)
    ensures 8 * |r| < |bits| + 8 && |bits| <= 8 * |r|
  {
    EightBits();
    if |bits| == 0 then []
    else if |bits| <= 8 then [Number(bits, 8)]
    else [Number(bits[..8], 8)] + Pack(bits[8..])
  }

  lemma EightBits()
    ensures Pow2(8) == 256
  {
    Pow2Bytes();
  }

  lemma {:induction false} NumberBit(bits: seq<bool>, n: nat, k: nat)
    requires k < |bits| && k < n
    ensures Number(bits, n) / Pow2(k) % 2 == Digit(bits[k])
    decreases k
  {
    var rest := Number(bits[1..], n - 1);
    if k == 0 {
      assert Pow2(0) == 1;
    } else {
      NumberBit(bits[1..], n - 1, k - 1);
      assert Number(bits, n) / 2 == rest;
      DivTwice(Number(bits, n), Pow2(k - 1));
    }
  }

  lemma {:induction false} PackedBit(bits: seq<bool>, k: nat)
    requires k < |bits|
    ensures Bit(Pack(bits), k) == Digit(bits[k])
    decreases |bits|
  {
    hide Number;
    EightBits();
    if |bits| <= 8 {
      NumberBit(bits, 8, k);
    } else if k < 8 {
      NumberBit(bits[..8], 8, k);
    } else {
      PackedBit(bits[8..], k - 8);
      assert Pack(bits)[k / 8] == Pack(bits[8..])[(k - 8) / 8];
    }
  }

  /** The bits stand in the data from pos on. */
  predicate Stand(data: seq<byte>, pos: nat, bits: seq<bool>) {
    pos + |bits| <= 8 * |data| && forall k :: 0 <= k < |bits| ==> BitIs(data, pos + k, bits[k])
  }

  predicate BitIs(data: seq<byte>, k: nat, b: bool) {
    k < 8 * |data| && Bit(data, k) == Digit(b)
  }

  lemma StandSplit(data: seq<byte>, pos: nat, a: seq<bool>, b: seq<bool>)
    requires Stand(data, pos, a + b)
    ensures Stand(data, pos, a) && Stand(data, pos + |a|, b)
  {
    hide BitIs;
    forall k | 0 <= k < |a| ensures BitIs(data, pos + k, a[k]) { assert (a + b)[k] == a[k]; }
    forall k | 0 <= k < |b|
      ensures BitIs(data, pos + |a| + k, b[k])
    {
      assert (a + b)[|a| + k] == b[k];
      assert BitIs(data, pos + (|a| + k), (a + b)[|a| + k]);
    }
  }

  /** Reading takes the lowest bit first. */
  lemma {:induction false} ReadLowFirst(data: seq<byte>, pos: nat, n: nat)
    requires 0 < n && pos + n <= 8 * |data|
    ensures BitsValue(data, pos, n) == Bit(data, pos) + 2 * BitsValue(data, pos + 1, n - 1)
    decreases n
  {
    hide Bit;
    if n == 1 {
      assert BitsValue(data, pos, 1) == BitsValue(data, pos, 0) + Bit(data, pos) * Pow2(0);
    } else {
      ReadLowFirst(data, pos, n - 1);
      assert Pow2(n - 1) == 2 * Pow2(n - 2);
      var b, p := Bit(data, pos + n - 1), Pow2(n - 2);
      assert b * (2 * p) == 2 * (b * p);
    }
  }

  /** A code that stands in the data is read back. */
  lemma {:induction false} CodeRead(data: seq<byte>, pos: nat, v: nat, n: nat)
    requires Stand(data, pos, CodeBits(v, n)) && v < Pow2(n)
    ensures BitsValue(data, pos, n) == v
    decreases n
  {
    hide Bit;
    if n > 0 {
      StandSplit(data, pos, [v % 2 == 1], CodeBits(v / 2, n - 1));
      CodeRead(data, pos + 1, v / 2, n - 1);
      ReadLowFirst(data, pos, n);
      assert BitIs(data, pos + 0, [v % 2 == 1][0]);
    }
  }

  //
  // The encoder
  //

  function After(f: Format, st: State, c: nat): State {
    if IsClear(f, c) then Cleared(f, st)
    else
      match Phrase(st, c)
      case None => st
      case Some(s) => Advance(f, st, c, s)
  }

  function Padding(n: nat): (r: seq<bool>)
    ensures |r| == n
  {
    seq(n, i => false)
  }

  /** The bits the chosen codes are packed into. */
  function EncodeBits(f: Format, st: State, choices: seq<nat>): seq<bool>
    decreases |choices|
  {
    if |choices| == 0 then []
    else
      var st1 := Widen(f, st);
      Padding(st1.pos - st.pos) + (CodeBits(choices[0], st1.width) + EncodeBits(f, After(f, st1, choices[0]), choices[1..]))
  }

  /** The chosen codes, clears among them, stand for the text. */
  predicate Spells(f: Format, st: State, choices: seq<nat>, text: seq<byte>)
    decreases |choices|
  {
    if |choices| == 0 then text == []
    else
      var st1 := Widen(f, st);
      var c := choices[0];
      if IsClear(f, c) then Spells(f, Cleared(f, st1), choices[1..], text)
      else
        && c < MaxCodes(f)
        && match Phrase(st1, c)
           case None => false
           case Some(s) => s <= text && Spells(f, Advance(f, st1, c, s), choices[1..], text[|s|..])
  }

  /** Every code an encoder can choose fits the width. */
  lemma ChoiceFits(f: Format, st: State, c: nat)
    requires StateOk(f, st) && (st.width < f.maxBits ==> |st.dict| < Pow2(st.width))
    requires IsClear(f, c) || (c < MaxCodes(f) && Phrase(st, c).Some?)
    ensures c < Pow2(st.width)
  {
    Powers();
    Pow2Monotone(9, st.width);
  }

  /** The decoder at a state returns what the encoder packed from that state. */
  lemma {:induction false} Decodes(f: Format, data: seq<byte>, st: State, choices: seq<nat>, text: seq<byte>)
    requires StateOk(f, st) && Spells(f, st, choices, text)
    requires Stand(data, st.pos, EncodeBits(f, st, choices)) && 8 * |data| < st.pos + |EncodeBits(f, st, choices)| + 8
    ensures Decode(f, data, st) == Some(text)
    decreases |choices|
  {
    hide StateOk; hide Widen; hide Phrase; hide Advance; hide Cleared; hide IsClear; hide CodeBits; hide BitsValue;
    hide Stand; hide FreshDict;
    var st1 := Widen(f, st);
    if |choices| == 0 {
      WidthOk(f, st);
    } else {
      var c := choices[0];
      var rest := EncodeBits(f, After(f, st1, c), choices[1..]);
      WidenOk(f, st);
      WidthOk(f, st);
      WidthOk(f, st1);
      StandSplit(data, st.pos, Padding(st1.pos - st.pos), CodeBits(c, st1.width) + rest);
      StandSplit(data, st1.pos, CodeBits(c, st1.width), rest);
      StandInside(data, st1.pos, CodeBits(c, st1.width));
      ChoiceFits(f, st1, c);
      CodeRead(data, st1.pos, c, st1.width);
      if IsClear(f, c) {
        ClearedOk(f, st1);
        AfterPosition(f, st1, c);
        Decodes(f, data, Cleared(f, st1), choices[1..], text);
      } else {
        var s := Phrase(st1, c).value;
        AdvanceOk(f, st1, c);
        AfterPosition(f, st1, c);
        Decodes(f, data, Advance(f, st1, c, s), choices[1..], text[|s|..]);
        assert s + text[|s|..] == text;
      }
    }
  }

  lemma WidthOk(f: Format, st: State)
    requires StateOk(f, st)
    ensures 9 <= st.width <= f.maxBits && FormatOk(f)
  {
  }

  lemma StandInside(data: seq<byte>, pos: nat, bits: seq<bool>)
    requires Stand(data, pos, bits)
    ensures pos + |bits| <= 8 * |data|
  {
  }

  lemma AfterPosition(f: Format, st: State, c: nat)
    requires IsClear(f, c) || Phrase(st, c).Some?
    ensures After(f, st, c).pos == st.pos + st.width
    ensures IsClear(f, c) ==> Cleared(f, st).pos == st.pos + st.width && After(f, st, c) == Cleared(f, st)
    ensures !IsClear(f, c) ==> Advance(f, st, c, Phrase(st, c).value).pos == st.pos + st.width
                               && After(f, st, c) == Advance(f, st, c, Phrase(st, c).value)
  {
  }

  function HeaderByte(f: Format): byte
    requires FormatOk(f)
  {
    f.maxBits + if f.blockMode then 0x80 else 0
  }

  /** A whole compressed file: the magic bytes, the format, the packed codes. */
  function File(f: Format, choices: seq<nat>): seq<byte>
    requires FormatOk(f)
  {
    [0x1f, 0x9d, HeaderByte(f)] + Pack(EncodeBits(f, InitialState(f), choices))
  }

  lemma PackStands(bits: seq<bool>)
    ensures Stand(Pack(bits), 0, bits)
  {
    hide Pack; hide Bit;
    forall k | 0 <= k < |bits|
      ensures BitIs(Pack(bits), 0 + k, bits[k])
    {
      PackedBit(bits, k);
    }
  }

  /** The decoder undoes any encoder that follows the same rules. */
  lemma DecodeInvertsEncode(f: Format, choices: seq<nat>, text: seq<byte>)
    requires FormatOk(f) && Spells(f, InitialState(f), choices, text)
    ensures Decode(f, Pack(EncodeBits(f, InitialState(f), choices)), InitialState(f)) == Some(text)
  {
    hide Spells; hide Decode; hide EncodeBits; hide Pack; hide Stand; hide StateOk;
    var bits := EncodeBits(f, InitialState(f), choices);
    InitialOk(f);
    PackStands(bits);
    Decodes(f, Pack(bits), InitialState(f), choices, text);
  }

  //
  // The greedy encoder
  //

  /** Code c can be chosen for a text. */
  predicate Fits(f: Format, st: State, c: nat, text: seq<byte>) {
    !IsClear(f, c) && c < MaxCodes(f) && Phrase(st, c).Some? && Phrase(st, c).value != [] && Phrase(st, c).value <= text
  }

  /** Among the codes below n, one with the longest string that the text begins with. */
  function Longest(f: Format, st: State, text: seq<byte>, n: nat): nat
    requires |text| > 0
  {
    if n == 0 then text[0]
    else
      var best := Longest(f, st, text, n - 1);
      if Fits(f, st, n - 1, text) && Phrase(st, best).Some? && |Phrase(st, best).value| < |Phrase(st, n - 1).value| then n - 1 else best
  }

  lemma {:induction false} LongestFits(f: Format, st: State, text: seq<byte>, n: nat)
    requires StateOk(f, st) && |text| > 0
    ensures Fits(f, st, Longest(f, st, text, n), text)
    ensures forall c: nat :: c < n && Fits(f, st, c, text) ==>
              |Phrase(st, c).value| <= |Phrase(st, Longest(f, st, text, n)).value|
  {
    if n == 0 {
      assert EntryOk(f, st.dict, text[0]);
      Powers();
      Pow2Monotone(9, f.maxBits);
    } else {
      hide StateOk; hide Fits; hide Phrase;
      LongestFits(f, st, text, n - 1);
      FitsPhrase(f, st, Longest(f, st, text, n - 1), text);
    }
  }

  lemma FitsPhrase(f: Format, st: State, c: nat, text: seq<byte>)
    requires Fits(f, st, c, text)
    ensures Phrase(st, c).Some? && Phrase(st, c).value <= text && Phrase(st, c).value != [] && !IsClear(f, c) && c < MaxCodes(f)
  {
  }

  /** Always take the longest string of the dictionary. */
  function Greedy(f: Format, st: State, text: seq<byte>): seq<nat>
    decreases |text|
  {
    if |text| == 0 then []
    else
      var st1 := Widen(f, st);
      var c := Longest(f, st1, text, |st1.dict| + 1);
      if !Fits(f, st1, c, text) then []
      else
        var s := Phrase(st1, c).value;
        [c] + Greedy(f, Advance(f, st1, c, s), text[|s|..])
  }

  lemma {:induction false} GreedySpells(f: Format, st: State, text: seq<byte>)
    requires StateOk(f, st)
    ensures Spells(f, st, Greedy(f, st, text), text)
    decreases |text|
  {
    hide StateOk; hide Widen; hide Phrase; hide Advance; hide Longest; hide Fits;
    if |text| > 0 {
      var st1 := Widen(f, st);
      var c := Longest(f, st1, text, |st1.dict| + 1);
      WidenOk(f, st);
      LongestFits(f, st1, text, |st1.dict| + 1);
      FitsPhrase(f, st1, c, text);
      var s := Phrase(st1, c).value;
      ChoiceFits(f, st1, c);
      AdvanceOk(f, st1, c);
      GreedySpells(f, Advance(f, st1, c, s), text[|s|..]);
      assert ([c] + Greedy(f, Advance(f, st1, c, s), text[|s|..]))[1..] == Greedy(f, Advance(f, st1, c, s), text[|s|..]);
    }
  }

  /** Every byte string survives greedy compression, in both modes and at every width. */
  lemma GreedyRoundTrip(f: Format, text: seq<byte>)
    requires FormatOk(f)
    ensures Decode(f, Pack(EncodeBits(f, InitialState(f), Greedy(f, InitialState(f), text))), InitialState(f)) == Some(text)
  {
    hide Decode; hide Pack; hide EncodeBits; hide Greedy; hide Spells; hide StateOk;
    InitialOk(f);
    GreedySpells(f, InitialState(f), text);
    DecodeInvertsEncode(f, Greedy(f, InitialState(f), text), text);
  }
}
