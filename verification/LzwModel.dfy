// The "compress" format: LZW with codes of growing width packed low bit first. One state serves both
// sides: the decoder follows the codes it reads, the encoder the codes it chooses.
module LzwModel {
  import opened Common
  import opened DeflateBits

  const CLEAR_CODE: nat := 256
  const INITIAL_BITS: nat := 9
  const MAX_BITS: nat := 16

  /** What the header says: block mode reserves code 256 for clearing the dictionary. */
  datatype Format = Format(blockMode: bool, maxBits: nat)

  predicate FormatOk(f: Format) {
    INITIAL_BITS <= f.maxBits <= MAX_BITS
  }

  function MaxCodes(f: Format): nat {
    Pow2(f.maxBits)
  }

  /** The string every code stands for, the previous code, the current width and bit offset. */
  datatype State = State(pos: nat, width: nat, dict: seq<seq<byte>>, previous: Option<nat>)

  function SingleBytes(): (r: seq<seq<byte>>)
    ensures |r| == 256 && forall k :: 0 <= k < 256 ==> r[k] == [k]
  {
    seq(256, k requires 0 <= k < 256 => [k])
  }

  /** The dictionary after a clear; in block mode code 256 stands for no string. */
  function FreshDict(f: Format): (r: seq<seq<byte>>)
    ensures |r| == if f.blockMode then 257 else 256
    ensures forall k :: 0 <= k < 256 ==> r[k] == [k]
  {
    SingleBytes() + if f.blockMode then [[]] else []
  }

  function InitialState(f: Format): State {
    State(0, INITIAL_BITS, FreshDict(f), None)
  }

  /** Round the absolute bit offset up to a whole group of eight codes. */
  function AlignTo(pos: nat, width: nat): (r: nat)
    requires width > 0
    ensures pos <= r < pos + 8 * width
  {
    var group := 8 * width;
    var current := pos - 1 + group;
    current - current % group
  }

  /** Before a code: when the dictionary has outgrown the width, align and use one more bit. */
  function Widen(f: Format, st: State): (r: State)
    ensures st.pos <= r.pos && r.dict == st.dict && r.previous == st.previous && st.width <= r.width <= st.width + 1
  {
    if |st.dict| > Pow2(st.width) - 1 && 0 < st.width < f.maxBits then
      st.(pos := AlignTo(st.pos, st.width), width := st.width + 1)
    else st
  }

  /** The string code c stands for now; the code just about to be defined repeats the old string's first byte. */
  function Phrase(st: State, c: nat): Option<seq<byte>> {
    if c < |st.dict| then Some(st.dict[c])
    else if c == |st.dict| && st.previous.Some? && st.previous.value < |st.dict| && st.dict[st.previous.value] != [] then
      Some(st.dict[st.previous.value] + [st.dict[st.previous.value][0]])
    else None
  }

  /** The state behind code c with string s: the old string with the first byte of s becomes a new entry. */
  function Advance(f: Format, st: State, c: nat, s: seq<byte>): State {
    State(st.pos + st.width, st.width,
          if st.previous.Some? && st.previous.value < |st.dict| && |st.dict| < MaxCodes(f) && s != []
          then st.dict + [st.dict[st.previous.value] + [s[0]]] else st.dict,
          Some(c))
  }

  /** The state behind a clear code. The bit offset is not realigned. */
  function Cleared(f: Format, st: State): State {
    State(st.pos + st.width, INITIAL_BITS, FreshDict(f), None)
  }

  predicate IsClear(f: Format, c: nat) {
    f.blockMode && c == CLEAR_CODE
  }

  /** Decode from a state to the end of the data; None when a code stands for nothing. */
  function Decode(f: Format, data: seq<byte>, st: State): Option<seq<byte>>
    decreases 8 * |data| - st.pos
  {
    var st1 := Widen(f, st);
    if st.width == 0 || st.pos + st.width > 8 * |data| || st1.pos + st1.width > 8 * |data| then Some([])
    else
      var c := BitsValue(data, st1.pos, st1.width);
      if IsClear(f, c) then Decode(f, data, Cleared(f, st1))
      else
        match Phrase(st1, c)
        case None => None
        case Some(s) =>
          match Decode(f, data, Advance(f, st1, c, s))
          case None => None
          case Some(rest) => Some(s + rest)
  }

  //
  // What every state reached by decoding keeps
  //

  predicate EntryOk(f: Format, dict: seq<seq<byte>>, c: nat)
    requires c < |dict|
  {
    if c < 256 then dict[c] == [c]
    else if f.blockMode && c == 256 then dict[c] == []
    else 1 <= |dict[c]| <= c + 1
  }

  ghost predicate StateOk(f: Format, st: State) {
    && FormatOk(f) && INITIAL_BITS <= st.width <= f.maxBits
    && |FreshDict(f)| <= |st.dict| <= MaxCodes(f) && |st.dict| <= Pow2(st.width)
    && (forall c: nat :: c < |st.dict| ==> EntryOk(f, st.dict, c))
    && (st.previous.Some? ==> st.previous.value < |st.dict| && !IsClear(f, st.previous.value))
  }

  lemma Powers()
    ensures Pow2(9) == 512 && Pow2(16) == 65536
  {
    Pow2Bytes();
    assert Pow2(9) == 2 * Pow2(8);
  }

  lemma InitialOk(f: Format)
    requires FormatOk(f)
    ensures StateOk(f, InitialState(f))
  {
    Powers();
    Pow2Monotone(9, f.maxBits);
  }

  /** After widening, every code that can come next fits the width. */
  lemma WidenOk(f: Format, st: State)
    requires StateOk(f, st)
    ensures StateOk(f, Widen(f, st))
    ensures Widen(f, st).width < f.maxBits ==> |st.dict| < Pow2(Widen(f, st).width)
  {
    hide EntryOk;
    assert Pow2(st.width + 1) == 2 * Pow2(st.width);
  }

  lemma ClearedOk(f: Format, st: State)
    requires FormatOk(f)
    ensures StateOk(f, Cleared(f, st))
  {
    InitialOk(f);
  }

  /** A code within the width keeps the state sound. */
  lemma AdvanceOk(f: Format, st: State, c: nat)
    requires StateOk(f, st) && (st.width < f.maxBits ==> |st.dict| < Pow2(st.width))
    requires c < Pow2(st.width) && !IsClear(f, c) && Phrase(st, c).Some?
    ensures var s := Phrase(st, c).value;
      s != [] && StateOk(f, Advance(f, st, c, s))
  {
    var s := Phrase(st, c).value;
    assert forall d: nat :: d < |st.dict| ==> EntryOk(f, st.dict, d);
    if st.previous.Some? { assert EntryOk(f, st.dict, st.previous.value); }
    if c < |st.dict| { assert EntryOk(f, st.dict, c); }
    Pow2Monotone(st.width, f.maxBits);
    var r := Advance(f, st, c, s);
    forall d: nat | d < |r.dict|
      ensures EntryOk(f, r.dict, d)
    {
      if d < |st.dict| { assert EntryOk(f, st.dict, d); }
    }
  }
}
