// Finding the end of a raw DEFLATE stream (RFC 1951): block headers, stored blocks, fixed and dynamic
// trees, and compressed data that is decoded only to be stepped over.
module DeflateScan {
  import opened Common
  import opened Arithmetic
  import opened DeflateBits
  import opened Huffman

  //
  // Building the codes of a length vector
  //

  method ReverseCode(code: nat, length: nat) returns (reversed: nat)
    ensures reversed == Reverse(code, length)
  {
    reversed := 0;
    var rest := code;
    for index := 0 to length
      invariant reversed * Pow2(length - index) + Reverse(rest, length - index) == Reverse(code, length)
    {
      ReverseStep(reversed, rest, length - index);
      reversed := 2 * reversed + rest % 2;
      rest := rest / 2;
    }
    assert Pow2(0) == 1;
  }

  lemma ReverseStep(reversed: nat, rest: nat, n: nat)
    requires n > 0
    ensures reversed * Pow2(n) + Reverse(rest, n) == (2 * reversed + rest % 2) * Pow2(n - 1) + Reverse(rest / 2, n - 1)
  {
    var p := Pow2(n - 1);
    assert reversed * (2 * p) + rest % 2 * p == (2 * reversed + rest % 2) * p;
  }

  method CountLengths(lengths: seq<nat>) returns (ok: bool, counts: array<nat>)
    ensures fresh(counts) && counts.Length == 16
    ensures ok <==> forall k :: 0 <= k < |lengths| ==> lengths[k] <= MAX_CODE_LENGTH
    ensures ok ==> forall b: nat :: b < 16 ==> counts[b] == Count(lengths, b)
  {
    counts := new nat[16](_ => 0);
    for index := 0 to |lengths|
      invariant counts[0] == 0 && forall b :: 1 <= b < 16 ==> counts[b] == CountOf(lengths, b, index)
      invariant forall k :: 0 <= k < index ==> lengths[k] <= MAX_CODE_LENGTH
    {
      var length := lengths[index];
      if length > 15 {
        return false, counts;
      }
      if length != 0 {
        counts[length] := counts[length] + 1;
      }
    }
    ok := true;
  }

  lemma NoCodeYet(lengths: seq<nat>)
    ensures FirstCode(lengths, 0) == 0
  {
  }

  lemma FirstNext(lengths: seq<nat>, b: nat)
    requires b > 0
    ensures FirstCode(lengths, b) == (FirstCode(lengths, b - 1) + Count(lengths, b - 1)) * 2
    ensures Used(lengths, b) == FirstCode(lengths, b) + Count(lengths, b)
  {
    hide Count;
  }

  /** The first code of every length; refused as soon as the codes of a length do not fit. */
  method FirstCodes(lengths: seq<nat>, counts: array<nat>) returns (ok: bool, nextCodes: array<nat>)
    requires counts.Length == 16 && forall b: nat :: b < 16 ==> counts[b] == Count(lengths, b)
    ensures fresh(nextCodes) && nextCodes.Length == 16
    ensures ok <==> Kraft(lengths, |lengths|) <= Pow2(MAX_CODE_LENGTH)
    ensures ok ==> forall b: nat :: 1 <= b < 16 ==> nextCodes[b] == FirstCode(lengths, b)
  {
    hide Kraft; hide Pow2; hide Count; hide FirstCode; hide Used;
    nextCodes := new nat[16](_ => 0);
    ChecksAreKraft(lengths);
    NoCodeYet(lengths);
    var code := 0;
    for bits := 1 to 16
      invariant code == FirstCode(lengths, bits - 1)
      invariant forall b: nat :: 1 <= b < bits ==> Used(lengths, b) <= Pow2(b)
      invariant forall b: nat :: 1 <= b < bits ==> nextCodes[b] == FirstCode(lengths, b)
    {
      code := (code + counts[bits - 1]) * 2;
      FirstNext(lengths, bits);
      if code + counts[bits] > Pow2(bits) {
        return false, nextCodes;
      }
      nextCodes[bits] := code;
    }
    ok := true;
  }

  /** Number the symbols of each length in order. */
  method NumberSymbols(lengths: seq<nat>, nextCodes: array<nat>) returns (codes: seq<CodeEntry>)
    requires forall k :: 0 <= k < |lengths| ==> lengths[k] <= MAX_CODE_LENGTH
    requires nextCodes.Length == 16 && forall b: nat :: 1 <= b < 16 ==> nextCodes[b] == FirstCode(lengths, b)
    modifies nextCodes
    ensures codes == Entries(lengths, |lengths|)
  {
    hide Reverse; hide FirstCode;
    codes := [];
    for symbol := 0 to |lengths|
      invariant codes == Entries(lengths, symbol)
      invariant forall b :: 1 <= b < 16 ==> nextCodes[b] == FirstCode(lengths, b) + CountOf(lengths, b, symbol)
    {
      var length := lengths[symbol];
      if length != 0 {
        var reversed := ReverseCode(nextCodes[length], length);
        codes := codes + [CodeEntry(reversed, length, symbol)];
        nextCodes[length] := nextCodes[length] + 1;
      }
    }
  }

  /** Count the lengths, give every length its first code, and number the symbols. */
  method BuildCodes(lengths: seq<nat>) returns (status: Status, codes: seq<CodeEntry>)
    requires |lengths| <= 0xffff
    ensures status == Success <==> Accepted(lengths)
    ensures status == Success ==> codes == Entries(lengths, |lengths|)
    ensures status == InvalidParameter <==> |lengths| == 0
    ensures status in {Success, InvalidParameter, InvalidNetworkResponse}
  {
    hide Kraft; hide Pow2; hide Entries; hide Count; hide FirstCode;
    codes := [];
    if |lengths| == 0 {
      return InvalidParameter, codes;
    }
    var ok, counts := CountLengths(lengths);
    if !ok {
      return InvalidNetworkResponse, codes;
    }
    var nextCodes;
    ok, nextCodes := FirstCodes(lengths, counts);
    if !ok {
      return InvalidNetworkResponse, codes;
    }
    codes := NumberSymbols(lengths, nextCodes);
    SomeCode(lengths, |lengths|);
    status := if codes == [] then InvalidNetworkResponse else Success;
  }

  /** There is an entry exactly when some symbol has a code. */
  lemma {:induction false} SomeCode(lengths: seq<nat>, n: nat)
    requires n <= |lengths|
    ensures Entries(lengths, n) != [] <==> exists k :: 0 <= k < n && lengths[k] != 0
  {
    if n > 0 { SomeCode(lengths, n - 1); }
  }

  method Search(codes: seq<CodeEntry>, length: nat, code: nat) returns (ok: bool, symbol: nat)
    ensures ok <==> Find(codes, 0, length, code).Some?
    ensures ok ==> Find(codes, 0, length, code) == Some(symbol)
  {
    for index := 0 to |codes|
      invariant Find(codes, index, length, code) == Find(codes, 0, length, code)
    {
      if codes[index].length == length && codes[index].reversedCode == code {
        return true, codes[index].symbol;
      }
    }
    ok, symbol := false, 0;
  }

  /** Decode one symbol, bit by bit. */
  method NextSymbol(input: BitInput, codes: seq<CodeEntry>) returns (ok: bool, symbol: nat)
    requires input.Valid()
    modifies input
    ensures input.Valid()
    ensures ok <==> DecodeSymbol(input.data, old(input.bitOffset), codes).Some?
    ensures ok ==> DecodeSymbol(input.data, old(input.bitOffset), codes) == Some((symbol, input.bitOffset))
  {
    hide Bit; hide Find;
    symbol := 0;
    var code := 0;
    for length := 1 to 16
      invariant input.Valid() && input.bitOffset == old(input.bitOffset) + length - 1
      invariant code == BitsValue(input.data, old(input.bitOffset), length - 1)
      invariant DecodeFrom(input.data, old(input.bitOffset), codes, length) == DecodeSymbol(input.data, old(input.bitOffset), codes)
    {
      var bit;
      ok, bit := input.ReadBits(1);
      if !ok {
        return;
      }
      OneBit(input.data, input.bitOffset - 1);
      code := code + bit * Pow2(length - 1);
      ok, symbol := Search(codes, length, code);
      if ok {
        return;
      }
    }
    ok := false;
  }

  lemma OneBit(data: seq<byte>, pos: nat)
    requires pos < 8 * |data|
    ensures BitsValue(data, pos, 1) == Bit(data, pos)
  {
    assert Pow2(0) == 1;
  }

  //
  // Trees
  //

  function Repeat(v: nat, n: nat): (r: seq<nat>)
    ensures |r| == n && forall k :: 0 <= k < n ==> r[k] == v
  {
    seq(n, i => v)
  }

  /** The fixed literal/length code (RFC 1951, section 3.2.6). */
  function FixedLiterals(): seq<nat> {
    Repeat(8, 144) + Repeat(9, 112) + Repeat(7, 24) + Repeat(8, 8)
  }

  function FixedDistances(): seq<nat> {
    Repeat(5, 32)
  }

  lemma {:induction false} KraftRun(lengths: seq<nat>, a: nat, b: nat, length: nat)
    requires a <= b <= |lengths| && forall k :: a <= k < b ==> lengths[k] == length
    ensures Kraft(lengths, b) == Kraft(lengths, a) + (b - a) * Share(length)
    decreases b
  {
    hide Share;
    if a < b {
      KraftRun(lengths, a, b - 1, length);
      MulMono(b - 1 - a, b - a, Share(length));
    }
  }

  /** The fixed codes use the whole code space. */
  lemma FixedAccepted()
    ensures Accepted(FixedLiterals()) && Accepted(FixedDistances())
    ensures Kraft(FixedLiterals(), 288) == Pow2(15) == Kraft(FixedDistances(), 32)
  {
    hide Kraft; hide Share;
    var b := FixedDistances();
    FixedLiteralsKraft();
    assert FixedLiterals()[0] == 8 && b[0] == 5;
    Shares();
    KraftRun(b, 0, 32, 5);
    KraftEmpty(b);
  }

  lemma FixedLiteralsKraft()
    ensures Kraft(FixedLiterals(), 288) == Pow2(15)
    ensures forall k :: 0 <= k < 288 ==> FixedLiterals()[k] <= 9
  {
    hide Kraft; hide Share;
    var a := FixedLiterals();
    Shares();
    KraftEmpty(a);
    KraftRun(a, 0, 144, 8);
    KraftRun(a, 144, 256, 9);
    KraftRun(a, 256, 280, 7);
    KraftRun(a, 280, 288, 8);
  }

  lemma FixedSizes()
    ensures |FixedLiterals()| == 288 && |FixedDistances()| == 32
  {
  }

  lemma KraftEmpty(lengths: seq<nat>)
    ensures Kraft(lengths, 0) == 0
  {
  }

  lemma Shares()
    ensures Share(5) == 1024 && Share(7) == 256 && Share(8) == 128 && Share(9) == 64 && Pow2(15) == 32768
  {
    assert Pow2(6) == 64;
    Pow2Add(6, 1);
    Pow2Add(7, 1);
    Pow2Add(8, 2);
    Pow2Add(10, 5);
  }

  /** The order in which the lengths of the code-length code are sent. */
  function OrderAt(i: nat): (r: nat)
    ensures r < 19
  {
    match i
    case 0 => 16 case 1 => 17 case 2 => 18 case 3 => 0 case 4 => 8 case 5 => 7 case 6 => 9 case 7 => 6 case 8 => 10
    case 9 => 5 case 10 => 11 case 11 => 4 case 12 => 12 case 13 => 3 case 14 => 13 case 15 => 2 case 16 => 14
    case 17 => 1 case _ => 15
  }

  /** The first n lengths of the code-length code, three bits each. */
  function LengthCodes(data: seq<byte>, pos: nat, n: nat): (r: Option<seq<nat>>)
    ensures r.Some? ==> |r.value| == 19
  {
    if n == 0 then Some(Repeat(0, 19))
    else
      match LengthCodes(data, pos, n - 1)
      case None => None
      case Some(table) =>
        match BitsRead(data, pos + 3 * (n - 1), 3)
        case None => None
        case Some(v) => Some(table[OrderAt(n - 1) := v.0])
  }

  /** The run a symbol of the code-length code stands for, and the position behind its extra bits. */
  function Run(data: seq<byte>, pos: nat, symbol: nat, done: seq<nat>): (r: Option<(seq<nat>, nat)>)
    ensures r.Some? ==> |r.value.0| > 0 && pos <= r.value.1
  {
    if symbol <= 15 then Some(([symbol], pos))
    else if symbol == 16 then
      if done == [] then None
      else
        match BitsRead(data, pos, 2)
        case None => None
        case Some(v) => Some((Repeat(done[|done| - 1], v.0 + 3), v.1))
    else if symbol == 17 then
      match BitsRead(data, pos, 3)
      case None => None
      case Some(v) => Some((Repeat(0, v.0 + 3), v.1))
    else if symbol == 18 then
      match BitsRead(data, pos, 7)
      case None => None
      case Some(v) => Some((Repeat(0, v.0 + 11), v.1))
    else None
  }

  /** Run-length coded lengths until there are `total` of them. */
  function Lengths(data: seq<byte>, pos: nat, codes: seq<CodeEntry>, total: nat, done: seq<nat>): (r: Option<(seq<nat>, nat)>)
    requires |done| <= total
    ensures r.Some? ==> |r.value.0| == total && pos <= r.value.1
    decreases total - |done|
  {
    if |done| == total then Some((done, pos))
    else
      match DecodeSymbol(data, pos, codes)
      case None => None
      case Some(s) =>
        match Run(data, s.1, s.0, done)
        case None => None
        case Some(run) =>
          if |run.0| > total - |done| then None else Lengths(data, run.1, codes, total, done + run.0)
  }

  /** The two length vectors of a block and the position behind its header. */
  datatype Trees = Trees(literals: seq<nat>, distances: seq<nat>, end: nat)

  ghost function DynamicTrees(data: seq<byte>, pos: nat): (r: Option<Trees>)
    ensures r.Some? ==> pos <= r.value.end && Accepted(r.value.literals) && Accepted(r.value.distances)
  {
    match BitsRead(data, pos, 5)
    case None => None
    case Some(a) =>
      match BitsRead(data, pos + 5, 5)
      case None => None
      case Some(b) =>
        match BitsRead(data, pos + 10, 4)
        case None => None
        case Some(c) => TreesOf(data, pos + 14, a.0 + 257, b.0 + 1, c.0 + 4)
  }

  ghost function TreesOf(data: seq<byte>, pos: nat, literals: nat, distances: nat, count: nat): (r: Option<Trees>)
    requires literals > 256
    ensures r.Some? ==> pos <= r.value.end && Accepted(r.value.literals) && Accepted(r.value.distances)
  {
    if literals > 286 || distances > 32 || count > 19 then None
    else
      match LengthCodes(data, pos, count)
      case None => None
      case Some(table) =>
        if !Accepted(table) then None
        else
          match Lengths(data, pos + 3 * count, Entries(table, 19), literals + distances, [])
          case None => None
          case Some(all) =>
            if all.0[256] == 0 || !Accepted(all.0[..literals]) || !Accepted(all.0[literals..]) then None
            else Some(Trees(all.0[..literals], all.0[literals..], all.1))
  }

  //
  // Blocks
  //

  function LengthExtra(symbol: nat): nat {
    if symbol < 265 || symbol == 285 then 0 else (symbol - 261) / 4
  }

  function DistanceExtra(symbol: nat): nat {
    if symbol < 4 then 0 else (symbol - 2) / 2
  }

  /** Step over symbols until the end-of-block symbol. */
  function SkipBlock(data: seq<byte>, pos: nat, literals: seq<CodeEntry>, distances: seq<CodeEntry>): (r: Option<nat>)
    ensures r.Some? ==> pos < r.value <= 8 * |data|
    decreases 8 * |data| - pos
  {
    match DecodeSymbol(data, pos, literals)
    case None => None
    case Some(s) =>
      if s.0 < 256 then SkipBlock(data, s.1, literals, distances)
      else if s.0 == 256 then Some(s.1)
      else if s.0 > 285 then None
      else
        match SkipMatch(data, s.1, s.0, distances)
        case None => None
        case Some(next) => SkipBlock(data, next, literals, distances)
  }

  /** The extra length bits, the distance symbol and its extra bits. */
  function SkipMatch(data: seq<byte>, pos: nat, symbol: nat, distances: seq<CodeEntry>): (r: Option<nat>)
    ensures r.Some? ==> pos < r.value <= 8 * |data|
  {
    match BitsRead(data, pos, LengthExtra(symbol))
    case None => None
    case Some(extra) =>
      match DecodeSymbol(data, extra.1, distances)
      case None => None
      case Some(d) =>
        if d.0 >= 30 then None
        else
          match BitsRead(data, d.1, DistanceExtra(d.0))
          case None => None
          case Some(end) => Some(end.1)
  }

  /** A stored block: aligned length, its complement, and that many bytes. */
  function SkipStored(data: seq<byte>, pos: nat): (r: Option<nat>)
    ensures r.Some? ==> pos < r.value <= 8 * |data|
  {
    match BitsRead(data, Aligned(pos), 16)
    case None => None
    case Some(length) =>
      match BitsRead(data, length.1, 16)
      case None => None
      case Some(inverse) =>
        if length.0 + inverse.0 != 0xffff then None else BytesSkipped(data, inverse.1, length.0)
  }

  /** The block behind its three header bits. */
  ghost function SkipBody(data: seq<byte>, pos: nat, kind: nat): (r: Option<nat>)
    ensures r.Some? ==> pos < r.value <= 8 * |data|
  {
    if kind == 0 then SkipStored(data, pos)
    else if kind == 3 then None
    else
      match if kind == 1 then Some(Trees(FixedLiterals(), FixedDistances(), pos)) else DynamicTrees(data, pos)
      case None => None
      case Some(t) =>
        SkipBlock(data, t.end, Entries(t.literals, |t.literals|), Entries(t.distances, |t.distances|))
  }

  ghost function Blocks(data: seq<byte>, pos: nat): (r: Option<nat>)
    ensures r.Some? ==> pos < r.value <= 8 * |data|
    decreases 8 * |data| - pos
  {
    match BitsRead(data, pos, 1)
    case None => None
    case Some(final) =>
      match BitsRead(data, pos + 1, 2)
      case None => None
      case Some(kind) =>
        match SkipBody(data, pos + 3, kind.0)
        case None => None
        case Some(end) => if final.0 != 0 then Some(end) else Blocks(data, end)
  }

  /** The number of bytes of the stream the data begins with. */
  ghost function StreamLength(data: seq<byte>): (r: Option<nat>)
    ensures r.Some? ==> 0 < r.value <= |data|
  {
    match Blocks(data, 0)
    case None => None
    case Some(end) => Some(Aligned(end) / 8)
  }

  //
  // The scanner
  //

  method BuildFixedTrees() returns (literals: seq<CodeEntry>, distances: seq<CodeEntry>)
    ensures literals == Entries(FixedLiterals(), 288) && distances == Entries(FixedDistances(), 32)
  {
    hide Accepted; hide Entries; hide FixedLiterals; hide FixedDistances;
    FixedAccepted();
    FixedSizes();
    var status;
    status, literals := BuildCodes(FixedLiterals());
    status, distances := BuildCodes(FixedDistances());
  }

  method ReadLengthCodes(input: BitInput, count: nat) returns (ok: bool, table: seq<nat>)
    requires input.Valid() && count <= 19
    modifies input
    ensures input.Valid()
    ensures ok <==> LengthCodes(input.data, old(input.bitOffset), count).Some?
    ensures ok ==>
              && LengthCodes(input.data, old(input.bitOffset), count) == Some(table)
              && input.bitOffset == old(input.bitOffset) + 3 * count
  {
    hide OrderAt; hide BitsValue;
    table := Repeat(0, 19);
    for index := 0 to count
      invariant input.Valid() && input.bitOffset == old(input.bitOffset) + 3 * index
      invariant LengthCodes(input.data, old(input.bitOffset), index) == Some(table)
    {
      var parsed;
      ok, parsed := input.ReadBits(3);
      if !ok {
        LengthCodesFail(input.data, old(input.bitOffset), index + 1, count);
        return;
      }
      table := table[OrderAt(index) := parsed];
    }
    ok := true;
  }

  lemma {:induction false} LengthCodesFail(data: seq<byte>, pos: nat, n: nat, count: nat)
    requires n <= count && LengthCodes(data, pos, n).None?
    ensures LengthCodes(data, pos, count).None?
    decreases count
  {
    hide OrderAt;
    if n < count { LengthCodesFail(data, pos, n, count - 1); }
  }

  /** The run of one symbol of the code-length code. */
  method ReadRun(input: BitInput, symbol: nat, done: seq<nat>) returns (ok: bool, run: seq<nat>)
    requires input.Valid()
    modifies input
    ensures input.Valid()
    ensures ok <==> Run(input.data, old(input.bitOffset), symbol, done).Some?
    ensures ok ==> Run(input.data, old(input.bitOffset), symbol, done) == Some((run, input.bitOffset))
  {
    hide BitsValue;
    run := [];
    if symbol <= 15 {
      return true, [symbol];
    }
    var parsed;
    if symbol == 16 {
      if done == [] {
        return false, run;
      }
      ok, parsed := input.ReadBits(2);
      if ok { run := Repeat(done[|done| - 1], parsed + 3); }
    } else if symbol == 17 {
      ok, parsed := input.ReadBits(3);
      if ok { run := Repeat(0, parsed + 3); }
    } else if symbol == 18 {
      ok, parsed := input.ReadBits(7);
      if ok { run := Repeat(0, parsed + 11); }
    } else {
      ok := false;
    }
  }

  method ReadLengths(input: BitInput, codes: seq<CodeEntry>, total: nat) returns (ok: bool, lengths: seq<nat>)
    requires input.Valid()
    modifies input
    ensures input.Valid()
    ensures ok <==> Lengths(input.data, old(input.bitOffset), codes, total, []).Some?
    ensures ok ==> Lengths(input.data, old(input.bitOffset), codes, total, []) == Some((lengths, input.bitOffset))
  {
    hide DecodeSymbol; hide Run;
    lengths := [];
    while |lengths| < total
      invariant input.Valid() && |lengths| <= total
      invariant Lengths(input.data, input.bitOffset, codes, total, lengths)
                == Lengths(input.data, old(input.bitOffset), codes, total, [])
      decreases total - |lengths|
    {
      var symbol, run;
      ok, symbol := NextSymbol(input, codes);
      if !ok {
        return;
      }
      ok, run := ReadRun(input, symbol, lengths);
      if !ok {
        return;
      }
      if |run| > total - |lengths| {
        return false, lengths;
      }
      lengths := lengths + run;
    }
    ok := true;
  }

  method BuildDynamicTrees(input: BitInput) returns (ok: bool, literals: seq<CodeEntry>, distances: seq<CodeEntry>)
    requires input.Valid()
    modifies input
    ensures input.Valid()
    ensures ok <==> DynamicTrees(input.data, old(input.bitOffset)).Some?
    ensures ok ==>
              var t := DynamicTrees(input.data, old(input.bitOffset)).value;
              && input.bitOffset == t.end
              && literals == Entries(t.literals, |t.literals|) && distances == Entries(t.distances, |t.distances|)
  {
    hide BitsValue; hide Accepted; hide Entries; hide LengthCodes; hide Lengths; hide Repeat;
    literals, distances := [], [];
    var a, b, c, status, table, lengthCodes, all;
    ok, a := input.ReadBits(5);
    if !ok { return; }
    ok, b := input.ReadBits(5);
    if !ok { return; }
    ok, c := input.ReadBits(4);
    if !ok { return; }
    var literalCount, distanceCount, codeCount := a + 257, b + 1, c + 4;
    if literalCount > 286 || distanceCount > 32 || codeCount > 19 {
      return false, literals, distances;
    }
    ok, table := ReadLengthCodes(input, codeCount);
    if !ok { return; }
    status, lengthCodes := BuildCodes(table);
    if status != Success {
      return false, literals, distances;
    }
    ok, all := ReadLengths(input, lengthCodes, literalCount + distanceCount);
    if !ok { return; }
    if all[256] == 0 {
      return false, literals, distances;
    }
    status, literals := BuildCodes(all[..literalCount]);
    if status != Success {
      return false, literals, distances;
    }
    status, distances := BuildCodes(all[literalCount..]);
    ok := status == Success;
  }

  method SkipCompressedBlock(input: BitInput, literals: seq<CodeEntry>, distances: seq<CodeEntry>) returns (ok: bool)
    requires input.Valid()
    modifies input
    ensures input.Valid()
    ensures ok <==> SkipBlock(input.data, old(input.bitOffset), literals, distances).Some?
    ensures ok ==> SkipBlock(input.data, old(input.bitOffset), literals, distances) == Some(input.bitOffset)
  {
    hide DecodeSymbol; hide BitsValue; hide LengthExtra; hide DistanceExtra;
    ok := true;
    while ok
      invariant input.Valid()
      invariant ok ==> (SkipBlock(input.data, input.bitOffset, literals, distances)
                        == SkipBlock(input.data, old(input.bitOffset), literals, distances))
      invariant !ok ==> SkipBlock(input.data, old(input.bitOffset), literals, distances).None?
      decreases ok, 8 * |input.data| - input.bitOffset
    {
      ghost var at := input.bitOffset;
      var symbol, ignored, distance;
      ok, symbol := NextSymbol(input, literals);
      if !ok || symbol < 256 {
        continue;
      }
      if symbol == 256 {
        return;
      }
      if symbol > 285 {
        return false;
      }
      ExtraSmall(symbol);
      ok, ignored := input.ReadBits(LengthExtra(symbol));
      if !ok { return; }
      ok, distance := NextSymbol(input, distances);
      if !ok || distance >= 30 {
        return false;
      }
      ExtraSmall(distance);
      ok, ignored := input.ReadBits(DistanceExtra(distance));
    }
  }

  lemma ExtraSmall(symbol: nat)
    ensures symbol <= 285 ==> LengthExtra(symbol) <= 5
    ensures symbol < 30 ==> DistanceExtra(symbol) <= 13
  {
  }

  method SkipStoredBlock(input: BitInput) returns (ok: bool)
    requires input.Valid()
    modifies input
    ensures input.Valid()
    ensures ok <==> SkipStored(input.data, old(input.bitOffset)).Some?
    ensures ok ==> SkipStored(input.data, old(input.bitOffset)) == Some(input.bitOffset)
  {
    hide BitsValue;
    var length, inverse;
    ok := input.AlignByte();
    ok, length := input.ReadBits(16);
    if !ok { return; }
    ok, inverse := input.ReadBits(16);
    if !ok || length + inverse != 0xffff {
      return false;
    }
    ok := input.SkipBytes(length);
  }

  /** One block behind its three header bits. */
  method SkipAnyBlock(input: BitInput, kind: nat) returns (ok: bool)
    requires input.Valid() && kind < 4
    modifies input
    ensures input.Valid()
    ensures ok <==> SkipBody(input.data, old(input.bitOffset), kind).Some?
    ensures ok ==> SkipBody(input.data, old(input.bitOffset), kind) == Some(input.bitOffset)
  {
    hide DynamicTrees; hide SkipBlock; hide SkipStored; hide Entries; hide FixedLiterals; hide FixedDistances; hide Accepted;
    if kind == 0 {
      ok := SkipStoredBlock(input);
      return;
    }
    if kind == 3 {
      return false;
    }
    var literals, distances;
    if kind == 1 {
      FixedSizes();
      literals, distances := BuildFixedTrees();
    } else {
      ok, literals, distances := BuildDynamicTrees(input);
      if !ok { return; }
    }
    ok := SkipCompressedBlock(input, literals, distances);
  }

  /** Walk from block to block until the final one, and count the bytes. */
  method FindStreamLength(compressed: seq<byte>) returns (status: Status, length: nat)
    ensures status == InvalidParameter <==> |compressed| == 0
    ensures status == Success <==> StreamLength(compressed).Some?
    ensures status == Success ==> StreamLength(compressed) == Some(length)
    ensures status in {Success, InvalidParameter, InvalidNetworkResponse}
  {
    hide SkipBody; hide BitsValue;
    length := 0;
    if |compressed| == 0 {
      return InvalidParameter, length;
    }
    var input := new BitInput(compressed);
    var finalBlock := false;
    while !finalBlock
      invariant input.Valid() && input.data == compressed
      invariant !finalBlock ==> Blocks(compressed, input.bitOffset) == Blocks(compressed, 0)
      invariant finalBlock ==> Blocks(compressed, 0) == Some(input.bitOffset)
      decreases !finalBlock, 8 * |compressed| - input.bitOffset
    {
      var ok, finalValue, kind;
      ok, finalValue := input.ReadBits(1);
      if !ok { return InvalidNetworkResponse, length; }
      ok, kind := input.ReadBits(2);
      if !ok { return InvalidNetworkResponse, length; }
      FourKinds(kind);
      finalBlock := finalValue != 0;
      ok := SkipAnyBlock(input, kind);
      if !ok { return InvalidNetworkResponse, length; }
    }
    length := input.ConsumedBytes();
    status := if length != 0 && length <= |compressed| then Success else InvalidNetworkResponse;
  }

  lemma FourKinds(kind: nat)
    requires kind < Pow2(2)
    ensures kind < 4
  {
  }
}
