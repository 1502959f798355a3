// The compressed text as cut into phrases: since the last clear, code b + j stands for phrase j followed by the
// first byte of phrase j + 1, where b is the first free code. No dictionary is kept.
module LzwText {
  import opened Common
  import opened Arithmetic
  import opened DeflateBits
  import opened LzwModel

  type Bytes = seq<byte>

  /** The first code that is given out: behind the bytes, and behind the clear code in block mode. */
  function FirstFree(f: Format): nat {
    if f.blockMode then 257 else 256
  }

  /** How many codes are known behind the phrases: every phrase but the first defined one, up to the limit. */
  function Known(f: Format, phrases: seq<Bytes>): nat {
    var n := FirstFree(f) + if |phrases| == 0 then 0 else |phrases| - 1;
    if n > Pow2(f.maxBits) then Pow2(f.maxBits) else n
  }

  /** The least width, from `bits` on, whose numbers are more than n; at most the limit. */
  function Wide(n: nat, bits: nat, most: nat): (r: nat)
    requires bits <= most
    ensures bits <= r <= most && (r < most ==> n < Pow2(r))
    decreases most - bits
  {
    if n < Pow2(bits) || bits == most then bits else Wide(n, bits + 1, most)
  }

  function WidthOf(f: Format, phrases: seq<Bytes>): (r: nat)
    requires FormatOk(f)
  {
    Wide(Known(f, phrases), 9, f.maxBits)
  }

  /** The least multiple of a group that is not below pos. */
  function RoundedUp(pos: nat, group: nat): nat
    requires group > 0
  {
    (pos + group - 1) / group * group
  }

  /** Where the code behind the phrases starts: the codes of one width fill whole groups of eight. */
  function StartOf(f: Format, phrases: seq<Bytes>, pos: nat): nat
    requires FormatOk(f)
  {
    if |phrases| > 0 && WidthOf(f, phrases) > WidthOf(f, phrases[..|phrases| - 1])
    then RoundedUp(pos, 8 * WidthOf(f, phrases[..|phrases| - 1]))
    else pos
  }

  predicate NonEmpty(phrases: seq<Bytes>) {
    forall k :: 0 <= k < |phrases| ==> phrases[k] != []
  }

  /** What code c stands for behind the phrases. */
  function Meaning(f: Format, phrases: seq<Bytes>, c: nat): Option<Bytes>
    requires NonEmpty(phrases)
  {
    var j := c - FirstFree(f);
    if c < 256 then Some([c])
    else if j < 0 || j >= |phrases| then None
    else if j + 1 < |phrases| then Some(phrases[j] + [phrases[j + 1][0]])
    else Some(phrases[j] + [phrases[j][0]])
  }

  /** The text from position pos on, behind the phrases since the last clear. */
  function Text(f: Format, data: seq<byte>, pos: nat, phrases: seq<Bytes>): Option<Bytes>
    requires FormatOk(f) && NonEmpty(phrases)
    decreases 8 * |data| - pos
  {
    var w, at := WidthOf(f, phrases), StartOf(f, phrases, pos);
    RoundsUp(f, phrases, pos);
    if at + w > 8 * |data| then Some([])
    else
      var c := BitsValue(data, at, w);
      if f.blockMode && c == 256 then Text(f, data, at + w, [])
      else
        match Meaning(f, phrases, c)
        case None => None
        case Some(s) =>
          match Text(f, data, at + w, phrases + [s])
          case None => None
          case Some(rest) => Some(s + rest)
  }

  lemma RoundedIsLeast(pos: nat, group: nat)
    requires group > 0
    ensures pos <= RoundedUp(pos, group) < pos + group && RoundedUp(pos, group) % group == 0
    ensures forall m: nat :: m % group == 0 && pos <= m ==> RoundedUp(pos, group) <= m
  {
    var x := pos + group - 1;
    DivMod(x, group);
    var r := RoundedUp(pos, group);
    ModUnique(r, x / group, 0, group);
    forall m: nat | m % group == 0 && pos <= m
      ensures r <= m
    {
      DivMod(m, group);
      if m / group < x / group {
        MulMono(m / group + 1, x / group, group);
      } else {
        MulMono(x / group, m / group, group);
      }
    }
  }

  lemma RoundsUp(f: Format, phrases: seq<Bytes>, pos: nat)
    requires FormatOk(f)
    ensures StartOf(f, phrases, pos) >= pos
  {
    hide WidthOf; hide RoundedUp;
    if |phrases| > 0 && WidthOf(f, phrases) > WidthOf(f, phrases[..|phrases| - 1]) {
      WidthBound(f, phrases[..|phrases| - 1]);
      RoundedIsLeast(pos, 8 * WidthOf(f, phrases[..|phrases| - 1]));
    }
  }

  lemma WidthBound(f: Format, phrases: seq<Bytes>)
    requires FormatOk(f)
    ensures 9 <= WidthOf(f, phrases) <= f.maxBits
  {
  }

  //
  // The state of the decoder on strings
  //

  /** The alignment between two widths is the least whole group. */
  lemma AlignIsLeast(pos: nat, width: nat)
    requires width > 0
    ensures AlignTo(pos, width) == RoundedUp(pos, 8 * width)
    ensures AlignTo(pos, width) % (8 * width) == 0 && pos <= AlignTo(pos, width)
    ensures forall m: nat :: m % (8 * width) == 0 && pos <= m ==> AlignTo(pos, width) <= m
  {
    RoundedIsLeast(pos, 8 * width);
    DivMod(pos + 8 * width - 1, 8 * width);
  }

  /** The dictionary and the previous code are those of the phrases. */
  ghost predicate Knows(f: Format, st: State, phrases: seq<Bytes>) {
    && FormatOk(f) && NonEmpty(phrases)
    && |st.dict| == Known(f, phrases)
    && (forall c: nat :: c < |st.dict| && !IsClear(f, c) ==> Meaning(f, phrases, c) == Some(st.dict[c]))
    && (if phrases == [] then st.previous == None
        else
          && st.previous.Some? && st.previous.value < |st.dict| && !IsClear(f, st.previous.value)
          && st.dict[st.previous.value] == phrases[|phrases| - 1])
  }

  /** Before a code is read, the width is the one of the code before it. */
  ghost predicate Follows(f: Format, st: State, phrases: seq<Bytes>) {
    && Knows(f, st, phrases)
    && st.width == if phrases == [] then 9 else WidthOf(f, phrases[..|phrases| - 1])
  }

  lemma WideIs(n: nat, bits: nat, most: nat)
    requires bits < most && n < Pow2(bits + 1)
    ensures Wide(n, bits, most) == if n < Pow2(bits) then bits else bits + 1
  {
  }

  lemma {:induction false} WideNext(n: nat, bits: nat, most: nat)
    requires bits <= most
    ensures var w := Wide(n, bits, most);
      Wide(n + 1, bits, most) == if n + 1 >= Pow2(w) && w < most then w + 1 else w
    decreases most - bits
  {
    if n < Pow2(bits) || bits == most {
      if bits < most && n + 1 >= Pow2(bits) {
        assert Pow2(bits + 1) == 2 * Pow2(bits);
        WideIs(n + 1, bits, most);
      }
    } else {
      WideNext(n, bits + 1, most);
    }
  }

  /** Widening leads to the width and the start of the next code. */
  lemma WidenFollows(f: Format, st: State, phrases: seq<Bytes>)
    requires Follows(f, st, phrases) && StateOk(f, st)
    ensures Widen(f, st).width == WidthOf(f, phrases) && Widen(f, st).pos == StartOf(f, phrases, st.pos)
  {
    Powers();
    var n := |phrases|;
    if n == 0 {
      assert Wide(FirstFree(f), 9, f.maxBits) == 9;
      Pow2Monotone(9, f.maxBits);
    } else {
      var front := phrases[..n - 1];
      AlignIsLeast(st.pos, st.width);
      WideNext(Known(f, front), 9, f.maxBits);
      Pow2Monotone(9, f.maxBits);
      WidthGrows(f, front, phrases);
    }
  }

  /** One phrase more makes the width one more when all numbers of the width are known. */
  lemma WidthGrows(f: Format, front: seq<Bytes>, phrases: seq<Bytes>)
    requires FormatOk(f) && |phrases| == |front| + 1
    ensures var w := WidthOf(f, front); var n := Known(f, phrases);
      WidthOf(f, phrases) == if n > Pow2(w) - 1 && w < f.maxBits then w + 1 else w
  {
    Powers();
    Pow2Monotone(9, f.maxBits);
    var a, b := Known(f, front), Known(f, phrases);
    if b == a + 1 {
      WideNext(a, 9, f.maxBits);
    } else {
      assert a == b;
      Enough(a, 9, f.maxBits);
    }
  }

  lemma Enough(n: nat, bits: nat, most: nat)
    requires bits <= most
    ensures var w := Wide(n, bits, most); w < most ==> n < Pow2(w)
  {
  }

  /** The string of a code is its meaning. */
  lemma PhraseFollows(f: Format, st: State, phrases: seq<Bytes>, c: nat)
    requires Knows(f, st, phrases) && StateOk(f, st) && c < Pow2(f.maxBits) && !IsClear(f, c)
    ensures Phrase(st, c) == Meaning(f, phrases, c)
  {
    Powers();
    Pow2Monotone(9, f.maxBits);
  }

  lemma AdvanceFollows(f: Format, st: State, phrases: seq<Bytes>, c: nat, s: Bytes)
    requires Knows(f, st, phrases) && StateOk(f, st) && c < Pow2(f.maxBits) && !IsClear(f, c) && Phrase(st, c) == Some(s) && s != []
    requires st.width == WidthOf(f, phrases)
    ensures Follows(f, Advance(f, st, c, s), phrases + [s])
  {
    var r := Advance(f, st, c, s);
    var more := phrases + [s];
    assert more[..|phrases|] == phrases;
    Powers();
    Pow2Monotone(9, f.maxBits);
    forall d: nat | d < |r.dict| && !IsClear(f, d)
      ensures Meaning(f, more, d) == Some(r.dict[d])
    {
      if d < |st.dict| {
        assert Meaning(f, phrases, d) == Some(st.dict[d]);
      }
    }
  }

  lemma MeaningHas(f: Format, phrases: seq<Bytes>, c: nat)
    requires NonEmpty(phrases)
    ensures Meaning(f, phrases, c).Some? ==> Meaning(f, phrases, c).value != []
  {
  }

  lemma ClearedFollows(f: Format, st: State)
    requires FormatOk(f)
    ensures Follows(f, Cleared(f, st), []) && StateOk(f, Cleared(f, st))
  {
    ClearedOk(f, st);
    StartFollows(f, Cleared(f, st));
  }

  /** A fresh dictionary holds the bytes. */
  lemma StartFollows(f: Format, st: State)
    requires FormatOk(f) && st.dict == FreshDict(f) && st.previous == None && st.width == 9
    ensures Follows(f, st, [])
  {
    Powers();
    Pow2Monotone(9, f.maxBits);
  }

  lemma ShortCode(f: Format, data: seq<byte>, at: nat, w: nat)
    requires at + w <= 8 * |data| && w <= f.maxBits
    ensures BitsValue(data, at, w) < Pow2(w) <= Pow2(f.maxBits)
  {
    Pow2Monotone(w, f.maxBits);
  }

  /** The decoder on strings reads the text that the codes stand for. */
  lemma {:induction false} DecodeIsText(f: Format, data: seq<byte>, st: State, phrases: seq<Bytes>)
    requires Follows(f, st, phrases) && StateOk(f, st)
    ensures Decode(f, data, st) == Text(f, data, st.pos, phrases)
    decreases 8 * |data| - st.pos
  {
    hide StateOk; hide Widen; hide Phrase; hide Advance; hide Cleared; hide BitsValue; hide WidthOf; hide StartOf; hide Meaning;
    hide Follows;
    var st1 := Widen(f, st);
    FollowsFormat(f, st, phrases);
    WidenFollows(f, st, phrases);
    WidenOk(f, st);
    WidthBound(f, phrases);
    RoundsUp(f, phrases, st.pos);
    if st1.pos + st1.width <= 8 * |data| {
      WidenKeeps(f, st, phrases);
      var c := BitsValue(data, st1.pos, st1.width);
      ShortCode(f, data, st1.pos, st1.width);
      if IsClear(f, c) {
        ClearedFollows(f, st1);
        ClearedAt(f, st1);
        DecodeIsText(f, data, Cleared(f, st1), []);
      } else {
        WidenedPhrase(f, st, phrases, c);
        MeaningHas(f, phrases, c);
        if Phrase(st1, c).Some? {
          var s := Phrase(st1, c).value;
          WidenedAdvance(f, st, phrases, c, s);
          AdvanceOk(f, st1, c);
          AdvancedAt(f, st1, c, s);
          DecodeIsText(f, data, Advance(f, st1, c, s), phrases + [s]);
        }
      }
    }
  }

  lemma FollowsFormat(f: Format, st: State, phrases: seq<Bytes>)
    requires Follows(f, st, phrases) && StateOk(f, st)
    ensures FormatOk(f) && NonEmpty(phrases) && st.width > 0
  {
  }

  /** The old width was no larger, so a code of the new width is not read where none of the old one stands. */
  lemma WidenKeeps(f: Format, st: State, phrases: seq<Bytes>)
    requires Follows(f, st, phrases) && StateOk(f, st)
    ensures st.pos + st.width <= Widen(f, st).pos + Widen(f, st).width
  {
  }

  lemma WidenedPhrase(f: Format, st: State, phrases: seq<Bytes>, c: nat)
    requires Follows(f, st, phrases) && StateOk(f, st) && c < Pow2(f.maxBits) && !IsClear(f, c)
    ensures Phrase(Widen(f, st), c) == Meaning(f, phrases, c)
  {
    hide StateOk; hide Meaning;
    PhraseFollows(f, st, phrases, c);
  }

  lemma WidenedAdvance(f: Format, st: State, phrases: seq<Bytes>, c: nat, s: Bytes)
    requires Follows(f, st, phrases) && StateOk(f, st) && c < Pow2(f.maxBits) && !IsClear(f, c)
    requires Phrase(Widen(f, st), c) == Some(s) && s != []
    ensures NonEmpty(phrases + [s]) && Follows(f, Advance(f, Widen(f, st), c, s), phrases + [s])
  {
    hide StateOk; hide Advance;
    WidenFollows(f, st, phrases);
    WidenOk(f, st);
    AdvanceFollows(f, Widen(f, st), phrases, c, s);
  }

  lemma ClearedAt(f: Format, st: State)
    ensures Cleared(f, st).pos == st.pos + st.width
  {
  }

  lemma AdvancedAt(f: Format, st: State, c: nat, s: Bytes)
    ensures Advance(f, st, c, s).pos == st.pos + st.width
  {
  }

  /** So from the start. */
  lemma DecodeFromStart(f: Format, data: seq<byte>)
    requires FormatOk(f)
    ensures Decode(f, data, InitialState(f)) == Text(f, data, 0, [])
  {
    InitialOk(f);
    StartFollows(f, InitialState(f));
    DecodeIsText(f, data, InitialState(f), []);
  }
}
