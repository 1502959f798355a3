// The table-driven decoder: prefix and suffix arrays in place of strings, and a stack that turns a
// chain of prefixes round.
module LzwDecoder {
  import opened Common
  import opened DeflateBits
  import opened LzwModel
  import opened LzwRoundTrip

  method HasCompleteCode(dataBits: nat, bitOffset: nat, codeBits: nat) returns (ok: bool)
    ensures ok <==> codeBits != 0 && bitOffset + codeBits <= dataBits
  {
    if codeBits == 0 || dataBits < codeBits - 1 {
      return false;
    }
    ok := bitOffset < dataBits - (codeBits - 1);
  }

  method ReadCode(data: seq<byte>, bitOffset: nat, codeBits: nat) returns (ok: bool, code: nat)
    ensures ok <==> 0 < codeBits <= MAX_BITS && bitOffset + codeBits <= 8 * |data|
    ensures ok ==> code == BitsValue(data, bitOffset, codeBits)
  {
    hide Bit;
    code := 0;
    if codeBits == 0 || codeBits > MAX_BITS {
      return false, code;
    }
    var dataBits := |data| * 8;
    if bitOffset > dataBits || codeBits > dataBits - bitOffset {
      return false, code;
    }
    for bit := 0 to codeBits
      invariant code == BitsValue(data, bitOffset, bit)
    {
      code := code + Bit(data, bitOffset + bit) * Pow2(bit);
    }
    ok := true;
  }

  /** Entry c of the tables spells string c of the dictionary; every prefix is smaller than its own index. */
  predicate Entry(f: Format, prefixes: seq<nat>, suffixes: seq<byte>, dict: seq<seq<byte>>, c: nat)
    requires c < |dict| && |dict| <= |prefixes| && |dict| <= |suffixes|
  {
    if c < 256 then dict[c] == [c]
    else if IsClear(f, c) then true
    else prefixes[c] < c && !IsClear(f, prefixes[c]) && dict[c] == dict[prefixes[c]] + [suffixes[c]]
  }

  ghost predicate Tables(f: Format, prefixes: seq<nat>, suffixes: seq<byte>, dict: seq<seq<byte>>) {
    && |dict| <= |prefixes| == |suffixes| && |dict| >= 256
    && forall c: nat :: c < |dict| ==> Entry(f, prefixes, suffixes, dict, c)
  }

  function Reversed(s: seq<byte>): (r: seq<byte>)
    ensures |r| == |s| && forall k :: 0 <= k < |s| ==> r[k] == s[|s| - 1 - k]
  {
    seq(|s|, k requires 0 <= k < |s| => s[|s| - 1 - k])
  }

  /** Follow the prefixes of a code, stacking the string last byte first. */
  method ExpandCode(f: Format, code: nat, prefixes: array<nat>, suffixes: array<byte>, nextCode: nat, stack: array<byte>,
                    ghost dict: seq<seq<byte>>)
    returns (ok: bool, stackLength: nat, firstByte: byte)
    requires Tables(f, prefixes[..], suffixes[..], dict) && nextCode == |dict| && code < nextCode && !IsClear(f, code)
    requires stack != suffixes && nextCode <= stack.Length
    modifies stack
    ensures ok && dict[code] != [] && stackLength == |dict[code]| <= stack.Length
    ensures stack[..stackLength] == Reversed(dict[code]) && firstByte == dict[code][0]
    ensures forall k :: |dict[code]| <= k < stack.Length ==> stack[k] == old(stack[k])
  {
    hide IsClear;
    stackLength := 0;
    var current: nat := code;
    ghost var tail: seq<byte> := [];
    while current >= 256
      invariant current < nextCode && !IsClear(f, current) && stackLength == |tail| && stackLength + current <= code
      invariant dict[code] == dict[current] + tail
      invariant stack[..stackLength] == Reversed(tail)
      invariant forall k :: stackLength <= k < stack.Length ==> stack[k] == old(stack[k])
      decreases current
    {
      assert Entry(f, prefixes[..], suffixes[..], dict, current);
      stack[stackLength] := suffixes[current];
      ReversedPush(tail, suffixes[current]);
      tail := [suffixes[current]] + tail;
      stackLength := stackLength + 1;
      current := prefixes[current];
    }
    assert Entry(f, prefixes[..], suffixes[..], dict, current);
    stack[stackLength] := current;
    ReversedPush(tail, current);
    stackLength := stackLength + 1;
    assert dict[code] == [current] + tail;
    ok, firstByte := true, current;
  }

  lemma ReversedPush(tail: seq<byte>, b: byte)
    ensures Reversed([b] + tail) == Reversed(tail) + [b]
  {
  }

  /** Write the stack from its top. */
  method EmitStack(stack: array<byte>, stackLength: nat, destination: array<byte>, decodedLength: nat, ghost s: seq<byte>)
    returns (status: Status, length: nat)
    requires stack != destination && stackLength <= stack.Length && decodedLength <= destination.Length
    requires stack[..stackLength] == Reversed(s)
    modifies destination
    ensures status == Success <==> decodedLength + |s| <= destination.Length
    ensures status == Success ==> length == decodedLength + |s| && destination[..length] == old(destination[..decodedLength]) + s
    ensures status in {Success, BufferTooSmall}
  {
    length := decodedLength;
    for index := stackLength downto 0
      invariant length == decodedLength + (stackLength - index) <= destination.Length
      invariant destination[..length] == old(destination[..decodedLength]) + s[..stackLength - index]
    {
      if length >= destination.Length {
        return BufferTooSmall, length;
      }
      destination[length] := stack[index];
      assert stack[..stackLength][index] == s[stackLength - 1 - index];
      length := length + 1;
    }
    assert s[..|s|] == s;
    status := Success;
  }

  /** Decoding from the start comes to the output so far and decoding from the current state. */
  predicate Continues(f: Format, data: seq<byte>, out: seq<byte>, st: State) {
    match Decode(f, data, st)
    case None => Decode(f, data, InitialState(f)).None?
    case Some(rest) => Decode(f, data, InitialState(f)) == Some(out + rest)
  }

  /** The whole data decodes, into no more than `capacity` bytes. */
  predicate DecodesInto(f: Format, data: seq<byte>, capacity: nat) {
    Decode(f, data, InitialState(f)).Some? && |Decode(f, data, InitialState(f)).value| <= capacity
  }

  lemma ContinuesFromStart(f: Format, data: seq<byte>)
    ensures Continues(f, data, [], InitialState(f))
  {
    hide Decode;
    if Decode(f, data, InitialState(f)).Some? {
      assert [] + Decode(f, data, InitialState(f)).value == Decode(f, data, InitialState(f)).value;
    }
  }

  /** Nothing left to read. */
  lemma ContinuesToEnd(f: Format, data: seq<byte>, out: seq<byte>, st: State)
    requires Continues(f, data, out, st) && StateOk(f, st)
    requires st.pos + st.width > 8 * |data| || Widen(f, st).pos + Widen(f, st).width > 8 * |data|
    ensures Decode(f, data, InitialState(f)) == Some(out)
  {
    assert out + [] == out;
  }

  lemma ContinuesOverClear(f: Format, data: seq<byte>, out: seq<byte>, st: State)
    requires Continues(f, data, out, st) && StateOk(f, st)
    requires st.pos + st.width <= 8 * |data| && Widen(f, st).pos + Widen(f, st).width <= 8 * |data|
    requires IsClear(f, BitsValue(data, Widen(f, st).pos, Widen(f, st).width))
    ensures Continues(f, data, out, Cleared(f, Widen(f, st)))
  {
    hide Widen; hide Cleared; hide BitsValue; hide IsClear;
  }

  lemma ContinuesOverCode(f: Format, data: seq<byte>, out: seq<byte>, st: State, capacity: nat)
    requires Continues(f, data, out, st) && StateOk(f, st)
    requires st.pos + st.width <= 8 * |data| && Widen(f, st).pos + Widen(f, st).width <= 8 * |data|
    requires !IsClear(f, BitsValue(data, Widen(f, st).pos, Widen(f, st).width))
    ensures var st1 := Widen(f, st);
      var c := BitsValue(data, st1.pos, st1.width);
      match Phrase(st1, c)
      case None => !DecodesInto(f, data, capacity)
      case Some(s) =>
        && Continues(f, data, out + s, Advance(f, st1, c, s))
        && (|out| + |s| > capacity ==> !DecodesInto(f, data, capacity))
  {
    hide Widen; hide Advance; hide BitsValue; hide IsClear; hide Phrase;
    var st1 := Widen(f, st);
    var c := BitsValue(data, st1.pos, st1.width);
    if Phrase(st1, c).Some? {
      var s := Phrase(st1, c).value;
      if Decode(f, data, Advance(f, st1, c, s)).Some? {
        var rest := Decode(f, data, Advance(f, st1, c, s)).value;
        assert out + (s + rest) == (out + s) + rest;
      }
    }
  }

  /** The tables hold the fresh dictionary once the single bytes are set. */
  lemma FreshTables(f: Format, prefixes: seq<nat>, suffixes: seq<byte>)
    requires |prefixes| == |suffixes| >= 257
    ensures Tables(f, prefixes, suffixes, FreshDict(f))
  {
  }

  /** A new entry extends the tables. */
  lemma TablesGrow(f: Format, prefixes: seq<nat>, suffixes: seq<byte>, dict: seq<seq<byte>>, prefix: nat, suffix: byte)
    requires Tables(f, prefixes, suffixes, dict) && |dict| < |prefixes| && prefix < |dict| && !IsClear(f, prefix)
    requires !IsClear(f, |dict|)
    ensures Tables(f, prefixes[|dict| := prefix], suffixes[|dict| := suffix], dict + [dict[prefix] + [suffix]])
  {
    hide IsClear;
    var more := dict + [dict[prefix] + [suffix]];
    var prefixes', suffixes' := prefixes[|dict| := prefix], suffixes[|dict| := suffix];
    forall c: nat | c < |more|
      ensures Entry(f, prefixes', suffixes', more, c)
    {
      if c < |dict| { assert Entry(f, prefixes, suffixes, dict, c); }
    }
  }

  lemma Sizes(f: Format)
    requires FormatOk(f)
    ensures 512 <= MaxCodes(f) <= 65536
  {
    Powers();
    Pow2Monotone(9, f.maxBits);
    Pow2Monotone(f.maxBits, 16);
  }

  lemma StartIs(f: Format)
    ensures InitialState(f) == State(0, INITIAL_BITS, FreshDict(f), None) && |FreshDict(f)| == if f.blockMode then 257 else 256
  {
  }

  lemma StateFacts(f: Format, st: State)
    requires StateOk(f, st)
    ensures INITIAL_BITS <= st.width <= f.maxBits <= MAX_BITS && 256 <= |st.dict| <= MaxCodes(f) && !IsClear(f, |st.dict|)
    ensures st.previous.Some? ==>
              st.previous.value < |st.dict| && !IsClear(f, st.previous.value) && st.dict[st.previous.value] != []
  {
    if st.previous.Some? { assert EntryOk(f, st.dict, st.previous.value); }
  }

  lemma WidenIs(f: Format, st: State)
    requires INITIAL_BITS <= st.width
    ensures Widen(f, st).dict == st.dict && Widen(f, st).previous == st.previous
    ensures if |st.dict| > Pow2(st.width) - 1 && st.width < f.maxBits
            then Widen(f, st).pos == AlignTo(st.pos, st.width) && Widen(f, st).width == st.width + 1
            else Widen(f, st) == st
  {
  }

  lemma ClearIs(f: Format, c: nat)
    ensures IsClear(f, c) <==> f.blockMode && c == CLEAR_CODE
  {
  }

  lemma ClearedIs(f: Format, st: State)
    requires f.blockMode
    ensures Cleared(f, st) == State(st.pos + st.width, INITIAL_BITS, FreshDict(f), None) && |FreshDict(f)| == 257
  {
  }

  lemma PhraseIs(f: Format, st: State, c: nat)
    requires StateOk(f, st) && !IsClear(f, c)
    ensures c < |st.dict| ==> Phrase(st, c) == Some(st.dict[c]) && st.dict[c] != []
    ensures c >= |st.dict| && !(c == |st.dict| && st.previous.Some?) ==> Phrase(st, c).None?
    ensures c == |st.dict| && st.previous.Some? ==>
              && st.previous.value < |st.dict| && st.dict[st.previous.value] != []
              && Phrase(st, c) == Some(st.dict[st.previous.value] + [st.dict[st.previous.value][0]])
  {
    StateFacts(f, st);
    if c < |st.dict| { assert EntryOk(f, st.dict, c); }
  }

  lemma AdvanceIs(f: Format, st: State, c: nat, s: seq<byte>)
    requires s != [] && (st.previous.Some? ==> st.previous.value < |st.dict|)
    ensures Advance(f, st, c, s).pos == st.pos + st.width && Advance(f, st, c, s).width == st.width
    ensures Advance(f, st, c, s).previous == Some(c)
    ensures Advance(f, st, c, s).dict == if st.previous.Some? && |st.dict| < MaxCodes(f)
                                         then st.dict + [st.dict[st.previous.value] + [s[0]]] else st.dict
  {
  }

  lemma DecodesIs(f: Format, data: seq<byte>, out: seq<byte>, capacity: nat)
    requires Decode(f, data, InitialState(f)) == Some(out)
    ensures DecodesInto(f, data, capacity) <==> |out| <= capacity
  {
    hide Decode;
  }

  /** Emit the string of one code; the code about to be defined is the old string and its first byte. */
  method EmitPhrase(f: Format, ghost st: State, code: nat, oldCode: Option<nat>, prefixes: array<nat>, suffixes: array<byte>,
                    nextCode: nat, stack: array<byte>, destination: array<byte>, decodedLength: nat)
    returns (status: Status, length: nat, first: byte)
    requires StateOk(f, st) && st.previous == oldCode && |st.dict| == nextCode && !IsClear(f, code)
    requires Tables(f, prefixes[..], suffixes[..], st.dict) && nextCode <= stack.Length
    requires stack != suffixes && stack != destination && suffixes != destination && decodedLength <= destination.Length
    modifies stack, destination
    ensures status == Success <==> Phrase(st, code).Some? && decodedLength + |Phrase(st, code).value| <= destination.Length
    ensures status == Success ==>
              && length == decodedLength + |Phrase(st, code).value|
              && destination[..length] == old(destination[..decodedLength]) + Phrase(st, code).value
              && Phrase(st, code).value != [] && first == Phrase(st, code).value[0]
    ensures status in {Success, InvalidNetworkResponse, BufferTooSmall}
  {
    hide StateOk; hide Tables; hide Phrase; hide IsClear;
    first, length := 0, decodedLength;
    PhraseIs(f, st, code);
    StateFacts(f, st);
    var ok, stackLength;
    if code < nextCode {
      ok, stackLength, first := ExpandCode(f, code, prefixes, suffixes, nextCode, stack, st.dict);
      status, length := EmitStack(stack, stackLength, destination, decodedLength, st.dict[code]);
    } else if code == nextCode && oldCode.Some? {
      ok, stackLength, first := ExpandCode(f, oldCode.value, prefixes, suffixes, nextCode, stack, st.dict);
      status, length := EmitStack(stack, stackLength, destination, decodedLength, st.dict[oldCode.value]);
      if status != Success {
        return;
      }
      if length >= destination.Length {
        return BufferTooSmall, length, first;
      }
      ghost var before := destination[..length];
      destination[length] := first;
      length := length + 1;
      assert destination[..length] == before + [first];
    } else {
      status := InvalidNetworkResponse;
    }
  }

  /** Decode the packed codes into the destination. */
  method DecodeCodes(f: Format, data: seq<byte>, destination: array<byte>, prefixes: array<nat>, suffixes: array<byte>,
                     stack: array<byte>)
    returns (status: Status, decodedLength: nat)
    requires FormatOk(f)
    requires prefixes.Length == suffixes.Length == stack.Length == MaxCodes(f)
    requires stack != suffixes && stack != destination && suffixes != destination
    modifies destination, prefixes, suffixes, stack
    ensures status == Success <==> DecodesInto(f, data, destination.Length)
    ensures status == Success ==>
              decodedLength <= destination.Length && Decode(f, data, InitialState(f)) == Some(destination[..decodedLength])
    ensures status in {Success, InvalidNetworkResponse, BufferTooSmall}
  {
    hide StateOk; hide Decode; hide Tables; hide FreshDict; hide Phrase; hide Advance; hide Cleared; hide IsClear;
    hide Widen; hide BitsValue;
    hide Continues; hide DecodesInto; hide InitialState;
    Sizes(f);
    for index := 0 to 256
      invariant forall k :: 0 <= k < index ==> prefixes[k] == 0 && suffixes[k] == k
    {
      prefixes[index] := 0;
      suffixes[index] := index;
    }
    var dataBits := |data| * 8;
    var bitOffset, codeBits, nextCode := 0, INITIAL_BITS, if f.blockMode then 257 else CLEAR_CODE;
    var oldCode: Option<nat> := None;
    decodedLength := 0;
    ghost var st := InitialState(f);
    StartIs(f);
    InitialOk(f);
    FreshTables(f, prefixes[..], suffixes[..]);
    ContinuesFromStart(f, data);
    assert destination[..0] == [];
    while true
      invariant StateOk(f, st) && st.pos == bitOffset && st.width == codeBits && |st.dict| == nextCode && st.previous == oldCode
      invariant Tables(f, prefixes[..], suffixes[..], st.dict)
      invariant decodedLength <= destination.Length && Continues(f, data, destination[..decodedLength], st)
      decreases dataBits - bitOffset
    {
      ghost var out := destination[..decodedLength];
      StateFacts(f, st);
      var complete := HasCompleteCode(dataBits, bitOffset, codeBits);
      if !complete {
        break;
      }
      ghost var st1 := Widen(f, st);
      WidenIs(f, st);
      WidenOk(f, st);
      StateFacts(f, st1);
      if nextCode > Pow2(codeBits) - 1 && codeBits < f.maxBits {
        bitOffset := AlignTo(bitOffset, codeBits);
        codeBits := codeBits + 1;
        complete := HasCompleteCode(dataBits, bitOffset, codeBits);
        if !complete {
          break;
        }
      }
      var ok, code := ReadCode(data, bitOffset, codeBits);
      bitOffset := bitOffset + codeBits;
      ClearIs(f, code);
      if f.blockMode && code == CLEAR_CODE {
        ContinuesOverClear(f, data, out, st);
        ClearedOk(f, st1);
        ClearedIs(f, st1);
        FreshTables(f, prefixes[..], suffixes[..]);
        codeBits, nextCode, oldCode := INITIAL_BITS, 257, None;
        st := Cleared(f, st1);
        continue;
      }
      ContinuesOverCode(f, data, out, st, destination.Length);
      PhraseIs(f, st1, code);
      var first;
      status, decodedLength, first := EmitPhrase(f, st1, code, oldCode, prefixes, suffixes, nextCode, stack, destination, decodedLength);
      if status != Success {
        return;
      }
      ghost var s := Phrase(st1, code).value;
      assert destination[..decodedLength] == out + s;
      AdvanceOk(f, st1, code);
      AdvanceIs(f, st1, code, s);
      if oldCode.Some? && nextCode < MaxCodes(f) {
        TablesGrow(f, prefixes[..], suffixes[..], st1.dict, oldCode.value, first);
        prefixes[nextCode] := oldCode.value;
        suffixes[nextCode] := first;
        nextCode := nextCode + 1;
      }
      oldCode := Some(code);
      st := Advance(f, st1, code, s);
    }
    ContinuesToEnd(f, data, destination[..decodedLength], st);
    DecodesIs(f, data, destination[..decodedLength], destination.Length);
    status := Success;
  }

  /** The format a header byte announces. */
  function FormatOf(flags: byte): Format {
    Format(flags >= 0x80, flags % 0x20)
  }

  /** Check the header and decode what follows. */
  method DecodeCompress(compressed: seq<byte>, destination: array<byte>) returns (status: Status, decodedLength: nat)
    modifies destination
    ensures status == Success <==>
              && |compressed| >= 3 && compressed[0] == 0x1f && compressed[1] == 0x9d && FormatOk(FormatOf(compressed[2]))
              && DecodesInto(FormatOf(compressed[2]), compressed[3..], destination.Length)
    ensures status == Success ==>
              && decodedLength <= destination.Length
              && Decode(FormatOf(compressed[2]), compressed[3..],
                 InitialState(FormatOf(compressed[2]))) == Some(destination[..decodedLength])
  {
    hide DecodesInto; hide Decode; hide InitialState;
    decodedLength := 0;
    if |compressed| < 3 || compressed[0] != 0x1f || compressed[1] != 0x9d {
      return InvalidNetworkResponse, decodedLength;
    }
    var f := FormatOf(compressed[2]);
    if f.maxBits < INITIAL_BITS || f.maxBits > MAX_BITS {
      return InvalidNetworkResponse, decodedLength;
    }
    var maxCodes := Pow2(f.maxBits);
    var prefixes := new nat[maxCodes](_ => 0);
    var suffixes := new byte[maxCodes](_ => 0);
    var stack := new byte[maxCodes](_ => 0);
    status, decodedLength := DecodeCodes(f, compressed[3..], destination, prefixes, suffixes, stack);
  }

  /** Decoding a file an encoder with the same rules wrote gives back its text, if it fits. */
  method DecodeEncoded(f: Format, choices: seq<nat>, text: seq<byte>, destination: array<byte>) returns (length: nat)
    requires FormatOk(f) && Spells(f, InitialState(f), choices, text) && |text| <= destination.Length
    modifies destination
    ensures length == |text| && destination[..length] == text
  {
    hide Decode; hide InitialState; hide EncodeBits; hide Pack;
    var compressed := File(f, choices);
    HeaderRead(f);
    assert compressed[3..] == Pack(EncodeBits(f, InitialState(f), choices));
    DecodeInvertsEncode(f, choices, text);
    DecodesIs(f, compressed[3..], text, destination.Length);
    var status;
    status, length := DecodeCompress(compressed, destination);
  }

  lemma HeaderRead(f: Format)
    requires FormatOk(f)
    ensures FormatOf(HeaderByte(f)) == f
  {
  }
}
